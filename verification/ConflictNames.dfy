/** The names of conflict copies, and why two files never compete for one name within the same second. */
module ConflictNames {

  function LastIndexOf(s: string, c: char): (i: int)
    ensures -1 <= i < |s| && (0 <= i ==> s[i] == c)
    ensures forall k | i < k < |s| :: s[k] != c
  {
    if s == "" then -1 else if s[|s| - 1] == c then |s| - 1 else LastIndexOf(s[..|s| - 1], c)
  }

  lemma LastIndexIsUnique(s: string, c: char, i: int)
    requires -1 <= i < |s| && (0 <= i ==> s[i] == c)
    requires forall k | i < k < |s| :: s[k] != c
    ensures LastIndexOf(s, c) == i
  {}

  /** The extension starts at the last dot; a name without one has none. */
  function Ext(name: string): string {
    var i := LastIndexOf(name, '.');
    if i < 0 then "" else name[i..]
  }

  function Stem(name: string): string {
    var i := LastIndexOf(name, '.');
    if i < 0 then name else name[..i]
  }

  lemma StemAndExt(name: string)
    ensures Stem(name) + Ext(name) == name
  {}

  /** The parts of a clean relative path before and after its last separator. */
  function Dir(rel: string): string {
    var i := LastIndexOf(rel, '/');
    if i < 0 then "" else rel[..i]
  }

  function Base(rel: string): string {
    rel[LastIndexOf(rel, '/') + 1..]
  }

  predicate IsSlugChar(c: char) {
    'a' <= c <= 'z' || '0' <= c <= '9'
  }

  function Lower(c: char): char {
    if 'A' <= c <= 'Z' then ((c as int) + 32) as char else c
  }

  /** Every run of other characters becomes one dash. */
  function Dashed(s: string): (r: string)
    ensures forall c | c in r :: IsSlugChar(c) || c == '-'
  {
    if s == "" then ""
    else
      var front := Dashed(s[..|s| - 1]);
      var c := Lower(s[|s| - 1]);
      if IsSlugChar(c) then front + [c]
      else if front != "" && front[|front| - 1] == '-' then front
      else front + "-"
  }

  function TrimLeft(s: string): (r: string)
    ensures forall c | c in r :: c in s
  {
    if s != "" && s[0] == '-' then TrimLeft(s[1..]) else s
  }

  function TrimRight(s: string): (r: string)
    ensures forall c | c in r :: c in s
  {
    if s != "" && s[|s| - 1] == '-' then TrimRight(s[..|s| - 1]) else s
  }

  /** A device's short name is safe in a file name: 1 to 16 letters, digits and dashes. */
  function DeviceShort(name: string): (r: string)
    ensures 1 <= |r| <= 16
    ensures forall c | c in r :: IsSlugChar(c) || c == '-'
  {
    var slug := TrimRight(TrimLeft(Dashed(name)));
    var chosen := if slug == "" then "device" else slug;
    if |chosen| > 16 then chosen[..16] else chosen
  }

  predicate IsWord(w: string) {
    w != "" && forall i | 0 <= i < |w| :: IsSlugChar(w[i])
  }

  /** The longest runs of letters and digits in a name, in lower case. */
  function Words(s: string): (ws: seq<string>)
    ensures forall i | 0 <= i < |ws| :: IsWord(ws[i])
    ensures s != "" && (IsSlugChar(Lower(s[0])) || IsSlugChar(Lower(s[|s| - 1]))) ==> ws != []
  {
    if s == "" then []
    else
      var n := |s| - 1;
      var front, c := Words(s[..n]), Lower(s[n]);
      if !IsSlugChar(c) then front
      else if n > 0 && IsSlugChar(Lower(s[n - 1])) then
        assert IsWord(front[|front| - 1]);
        front[|front| - 1 := front[|front| - 1] + [c]]
      else front + [[c]]
  }

  function Hyphenated(ws: seq<string>): string {
    if ws == [] then "" else if |ws| == 1 then ws[0]
    else Hyphenated(ws[..|ws| - 1]) + "-" + ws[|ws| - 1]
  }

  lemma {:induction false} HyphenatedEnds(ws: seq<string>)
    requires ws != [] && forall i | 0 <= i < |ws| :: IsWord(ws[i])
    ensures var h := Hyphenated(ws); h != "" && h[0] != '-' && h[|h| - 1] != '-'
    decreases |ws|
  {
    var last := ws[|ws| - 1];
    assert IsWord(last) && IsSlugChar(last[0]) && IsSlugChar(last[|last| - 1]);
    if |ws| > 1 {
      HyphenatedEnds(ws[..|ws| - 1]);
    }
  }

  lemma HyphenatedGrows(ws: seq<string>, c: char)
    requires ws != []
    ensures Hyphenated(ws[|ws| - 1 := ws[|ws| - 1] + [c]]) == Hyphenated(ws) + [c]
  {
    var n := |ws| - 1;
    assert ws[n := ws[n] + [c]][..n] == ws[..n];
  }

  lemma HyphenatedNext(ws: seq<string>, w: string)
    ensures Hyphenated(ws + [w]) == if ws == [] then w else Hyphenated(ws) + "-" + w
  {
    assert (ws + [w])[..|ws|] == ws;
  }

  /** Before trimming there may be one dash more at each end. */
  lemma {:induction false} DashedIsHyphenated(s: string)
    requires s != ""
    ensures Dashed(s) == Lead(s) + Hyphenated(Words(s)) + Trail(s)
  {
    hide Hyphenated, Words, Dashed, IsSlugChar, Lower, IsWord;
    if |s| == 1 {
      OneChar(s);
    } else {
      var t := s[..|s| - 1];
      DashedIsHyphenated(t);
      DashedNext(s);
      WordsNext(s);
      if Words(t) != [] { HyphenatedEnds(Words(t)); } else { NoWords(); }
      assert Lead(t) == Lead(s);
      if IsSlugChar(Lower(s[|s| - 1])) {
        if IsSlugChar(Lower(t[|t| - 1])) {
          HyphenatedGrows(Words(t), Lower(s[|s| - 1]));
        } else {
          HyphenatedNext(Words(t), [Lower(s[|s| - 1])]);
        }
      }
    }
  }

  lemma OneChar(s: string)
    requires |s| == 1
    ensures Dashed(s) == Lead(s) + Hyphenated(Words(s)) + Trail(s)
  {
    assert s[..0] == "" && Words("") == [] && Dashed("") == "";
    HyphenatedNext([], [Lower(s[0])]);
    assert [] + [[Lower(s[0])]] == [[Lower(s[0])]];
  }

  lemma DashedNext(s: string)
    requires |s| > 1
    ensures var front, c := Dashed(s[..|s| - 1]), Lower(s[|s| - 1]);
            Dashed(s) == if IsSlugChar(c) then front + [c]
                         else if front != "" && front[|front| - 1] == '-' then front else front + "-"
  {}

  lemma WordsNext(s: string)
    requires |s| > 1
    ensures var t, c := s[..|s| - 1], Lower(s[|s| - 1]);
            var front := Words(t);
            && (IsSlugChar(Lower(t[0])) || IsSlugChar(Lower(t[|t| - 1])) ==> front != [])
            && Words(s) == if !IsSlugChar(c) then front
                           else if IsSlugChar(Lower(t[|t| - 1])) then front[|front| - 1 := front[|front| - 1] + [c]]
                           else front + [[c]]
  {}

  lemma NoWords()
    ensures Hyphenated([]) == ""
  {}

  function Lead(s: string): string
    requires s != ""
  {
    if IsSlugChar(Lower(s[0])) then "" else "-"
  }

  function Trail(s: string): string
    requires s != ""
  {
    if IsSlugChar(Lower(s[|s| - 1])) || Words(s) == [] then "" else "-"
  }

  lemma TrimsOne(lead: string, h: string, trail: string)
    requires (lead == "" || lead == "-") && (trail == "" || trail == "-")
    requires if h == "" then trail == "" else h[0] != '-' && h[|h| - 1] != '-'
    ensures TrimRight(TrimLeft(lead + h + trail)) == h
  {
    if h == "" {
      assert lead + h + trail == lead;
    } else {
      var full := lead + h + trail;
      assert lead == "-" ==> full[1..] == h + trail;
      assert lead == "" ==> full == h + trail;
      assert TrimLeft(h + trail) == h + trail;
      assert trail == "-" ==> (h + trail)[..|h|] == h;
      assert TrimRight(h) == h;
      assert trail == "" ==> h + trail == h;
    }
  }

  /** The short name is the first 16 characters of a name's words, joined by dashes, or says "device" if it has none. */
  lemma DeviceShortIsItsWords(name: string)
    ensures var full := if Words(name) == [] then "device" else Hyphenated(Words(name));
            DeviceShort(name) == if |full| > 16 then full[..16] else full
  {
    hide Hyphenated, Dashed, TrimLeft, TrimRight;
    if name == "" {
      NothingToTrim();
    } else {
      DashedIsHyphenated(name);
      if Words(name) != [] { HyphenatedEnds(Words(name)); } else { NoWords(); }
      TrimsOne(Lead(name), Hyphenated(Words(name)), Trail(name));
    }
  }

  lemma NothingToTrim()
    ensures TrimRight(TrimLeft(Dashed(""))) == ""
  {}

  /** A time to the second, in digits and the letters T and Z. */
  predicate IsStamp(stamp: string) {
    forall c | c in stamp :: '0' <= c <= '9' || c == 'T' || c == 'Z'
  }

  function Mark(device: string, stamp: string): string {
    ".syna-conflict-" + DeviceShort(device) + "-" + stamp
  }

  function ConflictName(name: string, mark: string): string {
    Stem(name) + mark + Ext(name)
  }

  function ConflictRelPath(rel: string, rootBase: string, device: string, stamp: string): string {
    var basePath := if rel == "" then rootBase else rel;
    var name := ConflictName(Base(basePath), Mark(device, stamp));
    if LastIndexOf(basePath, '/') < 0 then name else Dir(basePath) + "/" + name
  }

  /** The mark starts with its only dot and holds no separator. */
  predicate IsMark(mark: string) {
    mark != "" && mark[0] == '.' && forall k | 0 < k < |mark| :: mark[k] != '.' && mark[k] != '/'
  }

  lemma PrefixIsPlain()
    ensures var prefix := ".syna-conflict-"; forall k | 0 < k < |prefix| :: prefix[k] != '.' && prefix[k] != '/'
  {
    var prefix := ".syna-conflict-";
    forall k | 0 < k < |prefix| ensures prefix[k] != '.' && prefix[k] != '/' {
      assert k == 1 || k == 2 || k == 3 || k == 4 || k == 5 || k == 6 || k == 7 || k == 8 || k == 9 || k == 10
        || k == 11 || k == 12 || k == 13 || k == 14;
    }
  }

  lemma MarkIsMark(device: string, stamp: string)
    requires IsStamp(stamp)
    ensures IsMark(Mark(device, stamp))
  {
    var prefix, slug := ".syna-conflict-", DeviceShort(device);
    var mark := Mark(device, stamp);
    assert mark[0] == '.';
    PrefixIsPlain();
    forall k | 0 < k < |mark| ensures mark[k] != '.' && mark[k] != '/' {
      if k < |prefix| {
        assert mark[k] == prefix[k];
      } else if k < |prefix| + |slug| {
        assert mark[k] == slug[k - |prefix|] && slug[k - |prefix|] in slug;
      } else if k == |prefix| + |slug| {
        assert mark[k] == '-';
      } else {
        var j := k - |prefix| - |slug| - 1;
        assert mark[k] == stamp[j] && stamp[j] in stamp;
      }
    }
  }

  /** The extension of a conflict name gives away whether the name had one. */
  lemma ConflictExt(name: string, mark: string)
    requires IsMark(mark)
    ensures Ext(ConflictName(name, mark)) == if Ext(name) == "" then mark else Ext(name)
    ensures Stem(ConflictName(name, mark)) == if Ext(name) == "" then name else Stem(name) + mark
  {
    var full := ConflictName(name, mark);
    var at := if Ext(name) == "" then |name| else |Stem(name) + mark|;
    if Ext(name) == "" {
      assert full == name + mark;
      assert forall k | at < k < |full| :: full[k] == mark[k - at];
    } else {
      var ext := Ext(name);
      assert full == (Stem(name) + mark) + ext;
      assert forall k | at <= k < |full| :: full[k] == ext[k - at];
      assert forall k | 0 < k < |ext| :: ext[k] == name[LastIndexOf(name, '.') + k];
    }
    LastIndexIsUnique(full, '.', at);
  }

  lemma NoDot(name: string)
    requires Ext(name) == ""
    ensures '.' !in name
  {}

  lemma HasDot(a: string, mark: string)
    requires IsMark(mark)
    ensures '.' in a + mark
  {
    assert (a + mark)[|a|] == '.';
  }

  /** A conflict name gives back the name it was made from and its mark. */
  lemma ConflictNameIsInjective(a: string, mark: string, b: string, mark': string)
    requires IsMark(mark) && IsMark(mark') && |mark| == |mark'|
    requires ConflictName(a, mark) == ConflictName(b, mark')
    ensures a == b && mark == mark'
  {
    ConflictExt(a, mark);
    ConflictExt(b, mark');
    StemAndExt(a);
    StemAndExt(b);
    if Ext(a) == "" && Ext(b) != "" {
      NoDot(a);
      HasDot(Stem(b), mark');
    } else if Ext(a) != "" && Ext(b) == "" {
      NoDot(b);
      HasDot(Stem(a), mark);
    } else if Ext(a) != "" {
      SameTail(Stem(a), mark, Stem(b), mark');
    }
  }

  lemma SameTail(s: string, m: string, t: string, n: string)
    requires s + m == t + n && |m| == |n|
    ensures s == t && m == n
  {
    var full := s + m;
    assert s == full[..|s|] && t == full[..|t|] && m == full[|s|..] && n == full[|t|..];
  }

  lemma NoSeparator(name: string, mark: string)
    requires IsMark(mark) && '/' !in name
    ensures '/' !in ConflictName(name, mark)
  {
    StemAndExt(name);
    var full := ConflictName(name, mark);
    assert mark[0] != '/';
    forall k | 0 <= k < |full| ensures full[k] != '/' {
      if k < |Stem(name)| {
        assert full[k] == name[k];
      } else if k < |Stem(name)| + |mark| {
        assert full[k] == mark[k - |Stem(name)|];
      } else {
        assert full[k] == Ext(name)[k - |Stem(name)| - |mark|];
        assert full[k] == name[k - |mark|];
      }
    }
  }

  lemma SplitsBack(dir: string, name: string)
    requires '/' !in name
    ensures LastIndexOf(dir + "/" + name, '/') == |dir|
    ensures LastIndexOf(name, '/') == -1
  {
    var full := dir + "/" + name;
    assert forall k | |dir| < k < |full| :: full[k] == name[k - |dir| - 1];
    LastIndexIsUnique(full, '/', |dir|);
    LastIndexIsUnique(name, '/', -1);
  }

  lemma BaseHasNoSeparator(rel: string)
    ensures '/' !in Base(rel)
  {}

  lemma DirAndBase(rel: string)
    ensures LastIndexOf(rel, '/') < 0 ==> Base(rel) == rel
    ensures LastIndexOf(rel, '/') >= 0 ==> Dir(rel) + "/" + Base(rel) == rel
  {}

  /** Distinct paths never share a conflict copy, in the same second or in different ones. */
  lemma ConflictPathsNeverCollide(p: string, stamp: string, q: string, stamp': string, rootBase: string, device: string)
    requires p != "" && q != "" && (p != q || stamp != stamp')
    requires IsStamp(stamp) && IsStamp(stamp') && |stamp| == |stamp'|
    ensures ConflictRelPath(p, rootBase, device, stamp) != ConflictRelPath(q, rootBase, device, stamp')
  {
    var mark, mark' := Mark(device, stamp), Mark(device, stamp');
    MarkIsMark(device, stamp);
    MarkIsMark(device, stamp');
    if mark == mark' {
      StampOfMark(device, stamp, stamp');
    }
    assert |mark| == |mark'|;
    hide ConflictName, Mark, LastIndexOf, IsMark;
    BaseHasNoSeparator(p);
    BaseHasNoSeparator(q);
    NoSeparator(Base(p), mark);
    NoSeparator(Base(q), mark');
    SplitsBack(Dir(p), ConflictName(Base(p), mark));
    SplitsBack(Dir(q), ConflictName(Base(q), mark'));
    DirAndBase(p);
    DirAndBase(q);
    if ConflictRelPath(p, rootBase, device, stamp) == ConflictRelPath(q, rootBase, device, stamp') {
      SameParts(Dir(p), ConflictName(Base(p), mark), Dir(q), ConflictName(Base(q), mark'));
      ConflictNameIsInjective(Base(p), mark, Base(q), mark');
    }
  }

  lemma StampOfMark(device: string, stamp: string, stamp': string)
    requires Mark(device, stamp) == Mark(device, stamp')
    ensures stamp == stamp'
  {
    var prefix := ".syna-conflict-" + DeviceShort(device) + "-";
    assert (prefix + stamp)[|prefix|..] == stamp && (prefix + stamp')[|prefix|..] == stamp';
  }

  lemma SameParts(d: string, n: string, e: string, m: string)
    requires '/' !in n && '/' !in m
    ensures d + "/" + n == e + "/" + m ==> d == e && n == m
  {
    SplitsBack(d, n);
    SplitsBack(e, m);
    if d + "/" + n == e + "/" + m {
      var full := d + "/" + n;
      assert d == full[..|d|] && e == full[..|e|];
      assert n == full[|d| + 1..] && m == full[|e| + 1..];
    }
  }

  /** A conflict copy has a longer path than the file it is a copy of. */
  lemma CopyIsLonger(rel: string, rootBase: string, device: string, stamp: string)
    ensures |ConflictRelPath(rel, rootBase, device, stamp)| > |if rel == "" then rootBase else rel|
  {
    var basePath := if rel == "" then rootBase else rel;
    StemAndExt(Base(basePath));
    DirAndBase(basePath);
  }
}
