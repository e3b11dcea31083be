/** Additional data of sealed blobs: fields joined by NUL. Two different field lists never look alike. */
module Aad {

  const NUL: char := 0 as char

  function Digit(d: nat): char
    requires d < 10
  {
    (d + 48) as char
  }

  /** The decimal digits of a number, most significant first. */
  function Decimal(n: nat): (s: string)
    ensures s != "" && NUL !in s
  {
    if n < 10 then [Digit(n)] else Decimal(n / 10) + [Digit(n % 10)]
  }

  lemma {:induction false} DecimalIsInjective(m: nat, n: nat)
    requires Decimal(m) == Decimal(n)
    ensures m == n
    decreases m
  {
    var s := Decimal(m);
    assert s[|s| - 1] == Digit(m % 10) && s[|s| - 1] == Digit(n % 10);
    if m >= 10 && n >= 10 {
      assert Decimal(m / 10) == s[..|s| - 1] && Decimal(n / 10) == s[..|s| - 1];
      DecimalIsInjective(m / 10, n / 10);
    }
  }

  function JoinAad(parts: seq<string>): string {
    if parts == [] then "" else if |parts| == 1 then parts[0] else parts[0] + [NUL] + JoinAad(parts[1..])
  }

  predicate PlainParts(parts: seq<string>) {
    parts != [] && forall p | p in parts :: NUL !in p
  }

  lemma FirstPart(p: string, rest: string, q: string, other: string)
    requires NUL !in p && NUL !in q && p + [NUL] + rest == q + [NUL] + other
    ensures p == q && rest == other
  {
    var s := p + [NUL] + rest;
    assert s[|p|] == NUL && s[|q|] == NUL;
    assert forall i | 0 <= i < |p| :: s[i] == p[i];
    assert forall i | 0 <= i < |q| :: s[i] == q[i];
    assert p == s[..|p|] && q == s[..|q|];
    assert rest == s[|p| + 1..] && other == s[|q| + 1..];
  }

  lemma NoNulInside(p: string, q: string, rest: string)
    requires NUL !in p
    ensures p != q + [NUL] + rest
  {
    assert (q + [NUL] + rest)[|q|] == NUL;
  }

  /** Joining NUL-free parts loses nothing, not even how many there were. */
  lemma {:induction false} JoinIsInjective(a: seq<string>, b: seq<string>)
    requires PlainParts(a) && PlainParts(b) && JoinAad(a) == JoinAad(b)
    ensures a == b
    decreases |a|
  {
    assert a[0] in a && b[0] in b;
    if |a| == 1 && |b| == 1 {
    } else if |a| == 1 {
      NoNulInside(a[0], b[0], JoinAad(b[1..]));
    } else if |b| == 1 {
      NoNulInside(b[0], a[0], JoinAad(a[1..]));
    } else {
      FirstPart(a[0], JoinAad(a[1..]), b[0], JoinAad(b[1..]));
      JoinIsInjective(a[1..], b[1..]);
      assert a == [a[0]] + a[1..] && b == [b[0]] + b[1..];
    }
  }

  function BlobAad(ws: string, root: string, path: string, index: nat, size: nat): string {
    JoinAad(["syna-blob-v1", ws, root, path, Decimal(index), Decimal(size)])
  }

  function EventAad(ws: string, root: string, path: string, kind: string): string {
    JoinAad(["syna-event-v1", ws, root, path, kind])
  }

  function SnapshotAad(ws: string, root: string, base: nat): string {
    JoinAad(["syna-snapshot-v1", ws, root, Decimal(base)])
  }

  predicate NulFree(s: string) {
    NUL !in s
  }

  lemma PrefixesAreNulFree()
    ensures NulFree("syna-blob-v1") && NulFree("syna-event-v1") && NulFree("syna-snapshot-v1")
  {}

  /** A blob's additional data pins down workspace, root, path, position and size. */
  lemma BlobAadIsInjective(ws: string, root: string, path: string, index: nat, size: nat, ws': string, root': string,
                           path': string, index': nat, size': nat)
    requires NulFree(ws) && NulFree(root) && NulFree(path) && NulFree(ws') && NulFree(root') && NulFree(path')
    requires BlobAad(ws, root, path, index, size) == BlobAad(ws', root', path', index', size')
    ensures ws == ws' && root == root' && path == path' && index == index' && size == size'
  {
    hide Decimal, JoinAad;
    PrefixesAreNulFree();
    var a := ["syna-blob-v1", ws, root, path, Decimal(index), Decimal(size)];
    var b := ["syna-blob-v1", ws', root', path', Decimal(index'), Decimal(size')];
    JoinIsInjective(a, b);
    assert a[1] == b[1] && a[2] == b[2] && a[3] == b[3] && a[4] == b[4] && a[5] == b[5];
    DecimalIsInjective(index, index');
    DecimalIsInjective(size, size');
  }

  /** A blob cannot be passed off as an event payload or a snapshot, nor these as each other. */
  lemma DomainsAreSeparate(ws: string, root: string, path: string, index: nat, size: nat, ws': string, root': string,
                           path': string, kind: string, ws'': string, root'': string, base: nat)
    requires NulFree(ws) && NulFree(root) && NulFree(path) && NulFree(ws') && NulFree(root') && NulFree(path')
             && NulFree(kind)
    requires NulFree(ws'') && NulFree(root'')
    ensures BlobAad(ws, root, path, index, size) != EventAad(ws', root', path', kind)
    ensures BlobAad(ws, root, path, index, size) != SnapshotAad(ws'', root'', base)
    ensures EventAad(ws', root', path', kind) != SnapshotAad(ws'', root'', base)
  {
    hide Decimal, JoinAad;
    PrefixesAreNulFree();
    var a := ["syna-blob-v1", ws, root, path, Decimal(index), Decimal(size)];
    var b := ["syna-event-v1", ws', root', path', kind];
    var c := ["syna-snapshot-v1", ws'', root'', Decimal(base)];
    if JoinAad(a) == JoinAad(b) { JoinIsInjective(a, b); }
    if JoinAad(a) == JoinAad(c) { JoinIsInjective(a, c); }
    if JoinAad(b) == JoinAad(c) { JoinIsInjective(b, c); }
  }
}
