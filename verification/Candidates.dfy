/**
 The hosts a launch may try, in the order it tries them: oldest first.
 */
module Candidates {
  import opened Options
  import opened Bytes
  import opened Records

  /** A host as a listing returns it. */
  datatype Listed = Listed(name: Bytes, created: int, version: Version)

  /** Nobody's, open, not taken out for maintenance, and of the class asked for. */
  predicate Free(h: Listed, hostClass: string) {
    && h.version.status.state == Available && h.version.status.claim == None
    && !h.version.maintenance && (hostClass != "" ==> h.version.hostClass == hostClass)
  }

  /** Older, or as old and not behind by name. */
  predicate NotAfter(a: Listed, b: Listed) {
    a.created < b.created || (a.created == b.created && Le(a.name, b.name))
  }

  predicate Ordered(hs: seq<Listed>) {
    forall i, j :: 0 <= i < j < |hs| ==> NotAfter(hs[i], hs[j])
  }

  lemma NotAfterOrder(a: Listed, b: Listed, c: Listed)
    ensures NotAfter(a, b) || NotAfter(b, a)
    ensures NotAfter(a, b) && NotAfter(b, c) ==> NotAfter(a, c)
  {
    LeTotal(a.name, b.name);
    if Le(a.name, b.name) && Le(b.name, c.name) {
      LeTransitive(a.name, b.name, c.name);
    }
  }

  /** Puts a host in its place. */
  method Insert(hs: seq<Listed>, h: Listed) returns (r: seq<Listed>)
    requires Ordered(hs)
    ensures Ordered(r) && multiset(r) == multiset(hs) + multiset{h}
  {
    var i := 0;
    while i < |hs| && NotAfter(hs[i], h)
      invariant 0 <= i <= |hs|
      invariant forall j :: 0 <= j < i ==> NotAfter(hs[j], h)
    {
      i := i + 1;
    }
    assert hs == hs[..i] + hs[i..];
    r := hs[..i] + [h] + hs[i..];
    InsertedInOrder(hs, h, i);
  }

  lemma InsertedInOrder(hs: seq<Listed>, h: Listed, i: nat)
    requires i <= |hs| && Ordered(hs) && (forall j :: 0 <= j < i ==> NotAfter(hs[j], h))
    requires i < |hs| ==> !NotAfter(hs[i], h)
    ensures Ordered(hs[..i] + [h] + hs[i..])
  {
    forall j | i <= j < |hs| ensures NotAfter(h, hs[j]) {
      NotAfterOrder(hs[i], h, h);
      NotAfterOrder(h, hs[i], hs[j]);
    }
  }

  /** The free hosts of a class, oldest first, and no other. */
  method ListAvailable(hosts: seq<Listed>, hostClass: string) returns (out: seq<Listed>)
    ensures Ordered(out)
    ensures forall h :: multiset(out)[h] == if Free(h, hostClass) then multiset(hosts)[h] else 0
  {
    out := [];
    for n := 0 to |hosts|
      invariant Ordered(out)
      invariant forall h :: multiset(out)[h] == if Free(h, hostClass) then multiset(hosts[..n])[h] else 0
    {
      var h := hosts[n];
      assert hosts[..n + 1] == hosts[..n] + [h];
      if Claimable(h.version, hostClass) {
        out := Insert(out, h);
      }
    }
    assert hosts[..|hosts|] == hosts;
  }

  /** Names are unique in a namespace. */
  predicate NamesDiffer(hosts: seq<Listed>) {
    forall i, j :: 0 <= i < j < |hosts| ==> hosts[i].name != hosts[j].name
  }

  /** The order of the listing does not matter: there is one order to try hosts in. */
  lemma {:induction false} OneOrder(a: seq<Listed>, b: seq<Listed>)
    requires Ordered(a) && Ordered(b) && multiset(a) == multiset(b) && NamesDiffer(a)
    ensures a == b
  {
    if a == [] {
      assert |multiset(b)| == 0;
    } else {
      assert a[0] in multiset(a) && multiset(b)[a[0]] > 0;
      assert |multiset(a)| == |a| && |multiset(b)| == |b|;
      assert b[0] in multiset(b) && multiset(a)[b[0]] > 0;
      FirstIsSame(a, b);
      assert a == [a[0]] + a[1..] && b == [b[0]] + b[1..];
      assert multiset(a[1..]) == multiset(a) - multiset{a[0]};
      assert multiset(b[1..]) == multiset(b) - multiset{b[0]};
      OneOrder(a[1..], b[1..]);
    }
  }

  lemma FirstIsSame(a: seq<Listed>, b: seq<Listed>)
    requires a != [] && b != [] && Ordered(a) && Ordered(b) && NamesDiffer(a) && b[0] in a && a[0] in b
    ensures a[0] == b[0]
  {
    var i :| 0 <= i < |a| && a[i] == b[0];
    var j :| 0 <= j < |b| && b[j] == a[0];
    if i > 0 && j > 0 {
      assert NotAfter(a[0], a[i]) && NotAfter(b[0], b[j]);
      LeTotal(a[0].name, a[i].name);
    }
  }
}
