/**
  Rescan hints: debounced change notifications of one root collapse into the nearest common ancestor, and
  a plain string-prefix test later decides which index rows the hint covers.
*/
module Hints {

  function IndexOf(s: string, c: char): (i: int)
    ensures -1 <= i < |s| && (0 <= i ==> s[i] == c)
    ensures forall k | 0 <= k < (if i < 0 then |s| else i) :: s[k] != c
  {
    if s == "" then -1 else if s[0] == c then 0
    else var i := IndexOf(s[1..], c); if i < 0 then -1 else i + 1
  }

  lemma IndexIsUnique(s: string, c: char, i: int)
    requires 0 <= i < |s| && s[i] == c && forall k | 0 <= k < i :: s[k] != c
    ensures IndexOf(s, c) == i
  {}

  function Split(s: string): (parts: seq<string>)
    ensures parts != [] && forall p | p in parts :: '/' !in p
    decreases |s|
  {
    var i := IndexOf(s, '/');
    if i < 0 then [s] else [s[..i]] + Split(s[i + 1..])
  }

  function Join(parts: seq<string>): string {
    if parts == [] then "" else if |parts| == 1 then parts[0] else parts[0] + "/" + Join(parts[1..])
  }

  /** The components of a hint; the whole root has none. */
  function Parts(hint: string): seq<string> {
    if hint == "" then [] else Split(hint)
  }

  /** A clean relative path: no empty component. */
  predicate IsNormal(hint: string) {
    forall p | p in Parts(hint) :: p != ""
  }

  function Common(a: seq<string>, b: seq<string>): (c: seq<string>)
    ensures c <= a && c <= b
  {
    if a == [] || b == [] || a[0] != b[0] then [] else [a[0]] + Common(a[1..], b[1..])
  }

  function Merge(a: string, b: string): string {
    Join(Common(Parts(a), Parts(b)))
  }

  /** The test that filters the index, on the bare strings. */
  predicate EntryInHint(rel: string, hint: string) {
    hint == "" || rel == hint || hint + "/" <= rel
  }

  lemma {:induction false} JoinSplit(s: string)
    ensures Join(Split(s)) == s
    decreases |s|
  {
    var i := IndexOf(s, '/');
    if i >= 0 {
      JoinSplit(s[i + 1..]);
      assert s == s[..i] + "/" + s[i + 1..];
      assert Split(s)[1..] == Split(s[i + 1..]);
    }
  }

  lemma SplitCons(p: string, rest: string)
    requires '/' !in p
    ensures Split(p + "/" + rest) == [p] + Split(rest)
  {
    var s := p + "/" + rest;
    IndexIsUnique(s, '/', |p|);
    assert s[..|p|] == p && s[|p| + 1..] == rest;
  }

  lemma {:induction false} SplitJoin(parts: seq<string>)
    requires parts != [] && forall p | p in parts :: '/' !in p
    ensures Split(Join(parts)) == parts
  {
    if |parts| == 1 {
      assert parts[0] in parts;
      assert parts == [parts[0]] && IndexOf(parts[0], '/') < 0;
    } else {
      SplitJoin(parts[1..]);
      SplitCons(parts[0], Join(parts[1..]));
      assert parts == [parts[0]] + parts[1..];
    }
  }

  lemma JoinIsNotEmpty(parts: seq<string>)
    requires parts != [] && parts[0] != ""
    ensures Join(parts) != ""
  {}

  /** Normal hints and their component lists are the same thing. */
  lemma PartsOfJoin(parts: seq<string>)
    requires forall p | p in parts :: p != "" && '/' !in p
    ensures Parts(Join(parts)) == parts && IsNormal(Join(parts))
  {
    if parts != [] {
      assert parts[0] in parts;
      JoinIsNotEmpty(parts);
      SplitJoin(parts);
    }
  }

  lemma JoinOfParts(hint: string)
    ensures Join(Parts(hint)) == hint
  {
    JoinSplit(hint);
  }

  lemma PartsOfMerge(a: string, b: string)
    requires IsNormal(a) && IsNormal(b)
    ensures Parts(Merge(a, b)) == Common(Parts(a), Parts(b)) && IsNormal(Merge(a, b))
  {
    var shared := Common(Parts(a), Parts(b));
    forall p | p in shared ensures p != "" && '/' !in p {
      var i :| 0 <= i < |shared| && shared[i] == p;
      assert Parts(a)[i] == p && p in Parts(a);
    }
    PartsOfJoin(shared);
  }

  lemma {:induction false} CommonIsGreatest(a: seq<string>, b: seq<string>, c: seq<string>)
    requires c <= a && c <= b
    ensures c <= Common(a, b)
  {
    if c != [] {
      assert a[0] == c[0] == b[0];
      CommonIsGreatest(a[1..], b[1..], c[1..]);
      assert c == [c[0]] + c[1..];
    }
  }

  lemma PrefixesAgree(a: seq<string>, b: seq<string>)
    requires a <= b && b <= a
    ensures a == b
  {}

  lemma SameParts(a: string, b: string)
    requires Parts(a) == Parts(b)
    ensures a == b
  {
    JoinOfParts(a);
    JoinOfParts(b);
  }

  /** The merged hint is the longest common ancestor: an ancestor of both, and below every other one. */
  lemma MergeIsLongestCommonAncestor(a: string, b: string, c: string)
    requires IsNormal(a) && IsNormal(b)
    ensures Parts(Merge(a, b)) <= Parts(a) && Parts(Merge(a, b)) <= Parts(b)
    ensures Parts(c) <= Parts(a) && Parts(c) <= Parts(b) ==> Parts(c) <= Parts(Merge(a, b))
  {
    PartsOfMerge(a, b);
    if Parts(c) <= Parts(a) && Parts(c) <= Parts(b) {
      CommonIsGreatest(Parts(a), Parts(b), Parts(c));
    }
  }

  lemma MergeCommutes(a: string, b: string)
    requires IsNormal(a) && IsNormal(b)
    ensures Merge(a, b) == Merge(b, a)
  {
    MergeIsLongestCommonAncestor(a, b, Merge(b, a));
    MergeIsLongestCommonAncestor(b, a, Merge(a, b));
    PrefixesAgree(Parts(Merge(a, b)), Parts(Merge(b, a)));
    SameParts(Merge(a, b), Merge(b, a));
  }

  lemma PrefixChain(a: seq<string>, b: seq<string>, c: seq<string>)
    requires a <= b && b <= c
    ensures a <= c
  {}

  lemma MergeAssociates(a: string, b: string, c: string)
    requires IsNormal(a) && IsNormal(b) && IsNormal(c)
    ensures Merge(Merge(a, b), c) == Merge(a, Merge(b, c))
  {
    PartsOfMerge(a, b);
    PartsOfMerge(b, c);
    var left, right := Merge(Merge(a, b), c), Merge(a, Merge(b, c));
    MergeIsLongestCommonAncestor(a, b, left);
    MergeIsLongestCommonAncestor(Merge(a, b), c, left);
    PrefixChain(Parts(left), Parts(Merge(a, b)), Parts(a));
    PrefixChain(Parts(left), Parts(Merge(a, b)), Parts(b));
    MergeIsLongestCommonAncestor(b, c, left);
    MergeIsLongestCommonAncestor(a, Merge(b, c), left);
    MergeIsLongestCommonAncestor(b, c, right);
    MergeIsLongestCommonAncestor(a, Merge(b, c), right);
    PrefixChain(Parts(right), Parts(Merge(b, c)), Parts(b));
    PrefixChain(Parts(right), Parts(Merge(b, c)), Parts(c));
    MergeIsLongestCommonAncestor(a, b, right);
    MergeIsLongestCommonAncestor(Merge(a, b), c, right);
    PrefixesAgree(Parts(left), Parts(right));
    SameParts(left, right);
  }

  lemma MergeIsIdempotent(a: string)
    requires IsNormal(a)
    ensures Merge(a, a) == a
  {
    MergeIsLongestCommonAncestor(a, a, a);
    PrefixesAgree(Parts(Merge(a, a)), Parts(a));
    SameParts(Merge(a, a), a);
  }

  lemma {:induction false} JoinAppend(a: seq<string>, b: seq<string>)
    requires a != [] && b != []
    ensures Join(a + b) == Join(a) + "/" + Join(b)
  {
    if |a| == 1 {
      assert (a + b)[1..] == b;
    } else {
      assert (a + b)[1..] == a[1..] + b;
      JoinAppend(a[1..], b);
      assert Join(a + b) == a[0] + "/" + (Join(a[1..]) + "/" + Join(b));
    }
  }

  lemma {:induction false} SplitAppend(a: string, b: string)
    ensures Split(a + "/" + b) == Split(a) + Split(b)
  {
    JoinSplit(a);
    JoinSplit(b);
    JoinAppend(Split(a), Split(b));
    SplitJoin(Split(a) + Split(b));
  }

  lemma CoveredMeansAncestor(rel: string, hint: string)
    requires hint != "" && hint + "/" <= rel
    ensures Parts(hint) <= Parts(rel)
  {
    hide Split;
    var rest := rel[|hint| + 1..];
    assert rel == hint + "/" + rest;
    SplitAppend(hint, rest);
  }

  lemma AncestorMeansCovered(rel: string, hint: string)
    requires hint != "" && Parts(hint) <= Parts(rel) && Parts(hint) != Parts(rel)
    ensures hint + "/" <= rel
  {
    hide Split, Join;
    var tail := Parts(rel)[|Parts(hint)|..];
    assert Parts(rel) == Parts(hint) + tail;
    JoinOfParts(rel);
    JoinOfParts(hint);
    JoinAppend(Parts(hint), tail);
    assert rel == hint + "/" + Join(tail);
  }

  /** On normal paths the string test and the component test agree. */
  lemma CoveredIffAncestor(rel: string, hint: string)
    requires IsNormal(rel) && IsNormal(hint)
    ensures EntryInHint(rel, hint) <==> Parts(hint) <= Parts(rel)
  {
    hide Parts, IsNormal;
    if hint == "" {
      assert Parts(hint) == [] by { NoParts(); }
    } else if hint + "/" <= rel {
      CoveredMeansAncestor(rel, hint);
    } else if Parts(hint) <= Parts(rel) {
      if Parts(hint) == Parts(rel) {
        SameParts(hint, rel);
      } else {
        AncestorMeansCovered(rel, hint);
      }
    }
  }

  lemma NoParts()
    ensures Parts("") == []
  {}

  function MergeAll(first: string, rest: seq<string>): string
    decreases |rest|
  {
    if rest == [] then first else Merge(MergeAll(first, rest[..|rest| - 1]), rest[|rest| - 1])
  }

  lemma MergeKeepsCovered(rel: string, a: string, b: string)
    requires IsNormal(rel) && IsNormal(a) && IsNormal(b)
    requires EntryInHint(rel, a) || EntryInHint(rel, b)
    ensures EntryInHint(rel, Merge(a, b)) && IsNormal(Merge(a, b))
  {
    PartsOfMerge(a, b);
    CoveredIffAncestor(rel, a);
    CoveredIffAncestor(rel, b);
    CoveredIffAncestor(rel, Merge(a, b));
    if EntryInHint(rel, a) {
      PrefixChain(Parts(Merge(a, b)), Parts(a), Parts(rel));
    } else {
      PrefixChain(Parts(Merge(a, b)), Parts(b), Parts(rel));
    }
  }

  lemma {:induction false} MergeAllIsNormal(first: string, rest: seq<string>)
    requires IsNormal(first) && forall h | h in rest :: IsNormal(h)
    ensures IsNormal(MergeAll(first, rest))
    decreases |rest|
  {
    if rest != [] {
      MergeAllIsNormal(first, rest[..|rest| - 1]);
      PartsOfMerge(MergeAll(first, rest[..|rest| - 1]), rest[|rest| - 1]);
    }
  }

  /** Any number of merged notifications: what one of them covered, the final hint still covers. */
  lemma {:induction false} MergeAllCovers(rel: string, first: string, rest: seq<string>, hint: string)
    requires IsNormal(rel) && IsNormal(first) && forall h | h in rest :: IsNormal(h)
    requires (hint == first || hint in rest) && EntryInHint(rel, hint)
    ensures EntryInHint(rel, MergeAll(first, rest))
    decreases |rest|
  {
    if rest != [] {
      var front, last := rest[..|rest| - 1], rest[|rest| - 1];
      MergeAllIsNormal(first, front);
      if hint == first || hint in front {
        MergeAllCovers(rel, first, front, hint);
      } else {
        assert hint == last;
      }
      MergeKeepsCovered(rel, MergeAll(first, front), last);
    }
  }

  lemma {:induction false} CommonStep(a: seq<string>, b: seq<string>, i: nat)
    requires i <= |a| && i <= |b| && a[..i] == b[..i]
    ensures Common(a, b) == a[..i] + Common(a[i..], b[i..])
  {
    if i > 0 {
      assert a[0] == a[..i][0] == b[..i][0] == b[0];
      assert a[1..][..i - 1] == a[..i][1..] == b[..i][1..] == b[1..][..i - 1];
      CommonStep(a[1..], b[1..], i - 1);
      assert a[1..][i - 1..] == a[i..] && b[1..][i - 1..] == b[i..];
      assert a[..i] == [a[0]] + a[1..][..i - 1];
    }
  }

  /** The loop over the components of two normal hints. */
  method MergeRescanHints(current: string, next: string) returns (r: string)
    requires IsNormal(current) && IsNormal(next)
    ensures r == Merge(current, next)
  {
    if current == "" || next == "" {
      return "";
    }
    var currentParts, nextParts := Split(current), Split(next);
    var limit := if |nextParts| < |currentParts| then |nextParts| else |currentParts|;
    var shared: seq<string> := [];
    var i := 0;
    while i < limit && currentParts[i] == nextParts[i]
      invariant 0 <= i <= limit && shared == currentParts[..i] == nextParts[..i]
    {
      shared := shared + [currentParts[i]];
      i := i + 1;
    }
    CommonStep(currentParts, nextParts, i);
    assert Common(currentParts[i..], nextParts[i..]) == [];
    assert Common(currentParts, nextParts) == shared;
    r := Join(shared);
  }
}
