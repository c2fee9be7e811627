/**
 Byte strings, as Go strings and shell text are: a byte is a character below 256.
 */
module Bytes {

  type Byte = c: char | c as int < 256 witness 'a'
  type Bytes = seq<Byte>

  function ByteOf(n: int): (b: Byte)
    requires 0 <= n < 256
    ensures b as int == n
  {
    n as char
  }

  // ----- order --------------------------------------------------------------------

  /** Byte-wise lexicographic order, as Go compares strings. */
  predicate Le(a: Bytes, b: Bytes) {
    a == [] || (b != [] && (a[0] < b[0] || (a[0] == b[0] && Le(a[1..], b[1..]))))
  }

  lemma {:induction false} LeTotal(a: Bytes, b: Bytes)
    ensures Le(a, b) || Le(b, a)
    ensures Le(a, b) && Le(b, a) ==> a == b
  {
    if a != [] && b != [] && a[0] == b[0] {
      LeTotal(a[1..], b[1..]);
      assert a == [a[0]] + a[1..] && b == [b[0]] + b[1..];
    }
  }

  lemma {:induction false} LeTransitive(a: Bytes, b: Bytes, c: Bytes)
    requires Le(a, b) && Le(b, c)
    ensures Le(a, c)
  {
    if a != [] && a[0] == b[0] == c[0] {
      LeTransitive(a[1..], b[1..], c[1..]);
    }
  }

  /** The first byte in which the two differ. */
  predicate DifferAt(a: Bytes, b: Bytes, i: int) {
    0 <= i < |a| && i < |b| && a[..i] == b[..i] && a[i] != b[i]
  }

  lemma AgreeBefore(a: Bytes, b: Bytes, i: int)
    requires DifferAt(a, b, i) && i > 0
    ensures a[0] == b[0]
  {
    assert a[0] == a[..i][0] == b[..i][0] == b[0];
  }

  /** A prefix comes first, and otherwise the first byte that differs decides. */
  lemma {:induction false} LeExactly(a: Bytes, b: Bytes)
    ensures Le(a, b) <==> a <= b || exists i :: DifferAt(a, b, i) && a[i] < b[i]
  {
    if a == [] || b == [] {
    } else if a[0] != b[0] {
      assert DifferAt(a, b, 0);
      forall i | DifferAt(a, b, i) ensures i == 0 {
        if i > 0 { AgreeBefore(a, b, i); }
      }
    } else {
      LeExactly(a[1..], b[1..]);
      assert a <= b <==> a[1..] <= b[1..];
      forall i | DifferAt(a, b, i) ensures DifferAt(a[1..], b[1..], i - 1) {
        assert a[1..][..i - 1] == a[..i][1..] && b[1..][..i - 1] == b[..i][1..];
      }
      forall i | DifferAt(a[1..], b[1..], i) ensures DifferAt(a, b, i + 1) {
        assert a[..i + 1] == [a[0]] + a[1..][..i] && b[..i + 1] == [b[0]] + b[1..][..i];
      }
    }
  }

  predicate Least(m: Bytes, ks: set<Bytes>) {
    m in ks && forall k <- ks :: Le(m, k)
  }

  lemma {:induction false} LeastExists(ks: set<Bytes>)
    requires ks != {}
    ensures exists m :: Least(m, ks)
  {
    var k :| k in ks;
    var others := ks - {k};
    LeTotal(k, k);
    if others == {} {
      assert ks == {k};
      assert Least(k, ks);
    } else {
      LeastExists(others);
      var m :| Least(m, others);
      LeTotal(m, k);
      if Le(m, k) {
        assert Least(m, ks);
      } else {
        forall j <- ks ensures Le(k, j) {
          if j != k {
            LeTransitive(k, m, j);
          }
        }
        assert Least(k, ks);
      }
    }
  }

  /** The keys in order, each once: what `slices.Sorted(maps.Keys(m))` yields. */
  function SortedKeys(ks: set<Bytes>): (r: seq<Bytes>)
    ensures forall k :: k in r <==> k in ks
    ensures |r| == |ks|
    ensures forall i, j :: 0 <= i < j < |r| ==> r[i] != r[j] && Le(r[i], r[j])
  {
    if ks == {} then []
    else
      LeastExists(ks);
      LeastUnique(ks);
      var m :| Least(m, ks);
      [m] + SortedKeys(ks - {m})
  }

  lemma LeastUnique(ks: set<Bytes>)
    ensures forall m, n :: Least(m, ks) && Least(n, ks) ==> m == n
  {
    forall m, n | Least(m, ks) && Least(n, ks) ensures m == n {
      LeTotal(m, n);
    }
  }

  /** In strictly rising byte order. */
  predicate Rising(r: seq<Bytes>) {
    forall i, j :: 0 <= i < j < |r| ==> r[i] != r[j] && Le(r[i], r[j])
  }

  /** There is one rising listing of a set. */
  lemma {:induction false} RisingUnique(r: seq<Bytes>, q: seq<Bytes>)
    requires Rising(r) && Rising(q) && forall k :: k in r <==> k in q
    ensures r == q
  {
    if r == [] {
      if q != [] { HasElement(q); }
    } else {
      assert r[0] in q;
      assert q[0] in q;
      FirstIsLeast(r, q[0]);
      FirstIsLeast(q, r[0]);
      LeTotal(r[0], q[0]);
      RisingTail(r);
      RisingTail(q);
      RisingUnique(r[1..], q[1..]);
      assert r == [r[0]] + r[1..] && q == [q[0]] + q[1..];
    }
  }

  lemma HasElement(q: seq<Bytes>)
    requires q != []
    ensures exists k :: k in q
  {
    assert q[0] in q;
  }

  lemma FirstIsLeast(r: seq<Bytes>, k: Bytes)
    requires Rising(r) && k in r
    ensures Le(r[0], k)
  {
    var j :| 0 <= j < |r| && r[j] == k;
    LeTotal(k, k);
  }

  lemma RisingTail(r: seq<Bytes>)
    requires r != [] && Rising(r)
    ensures Rising(r[1..]) && forall k :: k in r[1..] <==> k in r && k != r[0]
  {
    assert r == [r[0]] + r[1..];
  }

  lemma RisingIsSorted(r: seq<Bytes>, ks: set<Bytes>)
    requires Rising(r) && forall k :: k in r <==> k in ks
    ensures r == SortedKeys(ks)
  {
    RisingUnique(r, SortedKeys(ks));
  }

  /** A byte of a shell identifier. */
  predicate Word(c: Byte) {
    'A' <= c <= 'Z' || 'a' <= c <= 'z' || '0' <= c <= '9' || c == '_'
  }

  // ----- searching -------------------------------------------------------------------

  /** `p` occurs in `s` at position `i`. */
  predicate At(s: Bytes, p: Bytes, i: int) {
    0 <= i <= |s| - |p| && s[i..i + |p|] == p
  }

  /** The position of the first `b`, or the length. */
  function IndexOf(s: Bytes, b: Byte): (i: nat)
    ensures i <= |s|
    ensures i < |s| ==> s[i] == b
    ensures b !in s[..i]
  {
    if s == [] || s[0] == b then 0
    else
      var i := 1 + IndexOf(s[1..], b);
      assert s[..i] == [s[0]] + s[1..][..i - 1];
      i
  }

  lemma IndexOfNone(s: Bytes, b: Byte)
    requires b !in s
    ensures IndexOf(s, b) == |s|
  {}

  lemma IndexOfConcat(a: Bytes, b: Byte, c: Bytes)
    requires b !in a
    ensures IndexOf(a + [b] + c, b) == |a|
  {
    assert (a + [b] + c)[|a|] == b;
  }
}
