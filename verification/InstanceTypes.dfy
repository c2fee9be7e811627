/**
 Instance types: each class of hosts is advertised as one shape, which every host
 of the class can deliver.
 */
module InstanceTypes {
  import opened Options

  /** Resource name to quantity. */
  type Resources = map<string, real>

  /** The part of an SSHHost that matters here; `free` is Available and unclaimed. */
  datatype PoolHost = PoolHost(classLabel: string, capacity: Resources, arch: string, free: bool)

  datatype ClassInfo = ClassInfo(capacity: Resources, arch: string, mixedArch: bool, available: nat, total: nat)

  /** The well-known labels scheduling goes by. */
  datatype Label = TypeName | Arch | Os | Zone | CapacityType

  type Labels = map<Label, string>

  /** `requirements` bind the type, `offering` its one offering: each a single value. */
  datatype InstanceType = InstanceType(
    name: string, arch: string, capacity: Resources, available: bool, price: real, reserved: Resources,
    requirements: Labels, offering: Labels)

  datatype PriceSetting = DefaultPrice | Price(rate: real) | Unparsable

  /** What a node class says about the types it sees. */
  datatype NodeClass = NodeClass(maxPods: Option<real>, price: PriceSetting, kubeReserved: Resources)

  const CPU := "cpu"
  const MEMORY := "memory"
  const PODS := "pods"
  const DEFAULT_MAX_PODS := 110.0
  const DEFAULT_CLASS := "default"
  const POOL_ZONE := "pool"
  const LINUX := "linux"
  const ON_DEMAND := "on-demand"
  const DEFAULT_PRICE := 0.02
  const DEFAULT_RESERVED: Resources := map["cpu" := 0.08, "memory" := 314572800.0]

  function Rate(n: NodeClass): real
    requires !n.price.Unparsable?
  {
    if n.price.DefaultPrice? then DEFAULT_PRICE else n.price.rate
  }

  function Reserved(n: NodeClass): Resources {
    if n.kubeReserved != map[] then n.kubeReserved else DEFAULT_RESERVED
  }

  function HostClass(h: PoolHost): string {
    if h.classLabel != "" then h.classLabel else DEFAULT_CLASS
  }

  /** The labels a node on this host carries, once it is probed. */
  function NodeLabels(h: PoolHost): Labels {
    map[TypeName := HostClass(h), Arch := h.arch, Os := LINUX, Zone := POOL_ZONE, CapacityType := ON_DEMAND]
  }

  predicate UsableCapacity(c: Resources) {
    CPU in c && c[CPU] > 0.0 && MEMORY in c && c[MEMORY] > 0.0
  }

  function WithPods(c: Resources, maxPods: Option<real>): Resources {
    if maxPods.Some? then c[PODS := maxPods.value]
    else if PODS in c then c
    else c[PODS := DEFAULT_MAX_PODS]
  }

  // ----- shapes ----------------------------------------------------------------------------

  /** A demand fits a capacity that has at least as much of everything it names. */
  predicate Fits(demand: Resources, capacity: Resources) {
    forall r <- demand :: r in capacity && demand[r] <= capacity[r]
  }

  /** What is left to two hosts: the lesser quantity of each resource both have. */
  function Meet(a: Resources, b: Resources): Resources {
    map r | r in a && r in b :: if b[r] < a[r] then b[r] else a[r]
  }

  method MinCapacity(a: Resources, b: Resources) returns (out: Resources)
    ensures out == Meet(a, b)
  {
    out := map[];
    var names := a.Keys;
    while names != {}
      invariant names <= a.Keys
      invariant out == map r | r in Meet(a, b) && r !in names :: Meet(a, b)[r]
    {
      var name :| name in names;
      names := names - {name};
      if name !in b {
        continue;
      }
      if b[name] < a[name] {
        out := out[name := b[name]];
      } else {
        out := out[name := a[name]];
      }
    }
  }

  /** `Meet` is the greatest lower bound: a demand fits it exactly when it fits both. */
  lemma MeetIsGreatest(a: Resources, b: Resources, d: Resources)
    ensures Fits(d, Meet(a, b)) <==> Fits(d, a) && Fits(d, b)
  {
    assert Fits(d, Meet(a, b)) ==> forall r <- d :: r in Meet(a, b) && d[r] <= Meet(a, b)[r];
  }

  /** A shape is determined by what fits it. */
  lemma ShapeIsUnique(a: Resources, b: Resources)
    requires forall d :: Fits(d, a) <==> Fits(d, b)
    ensures a == b
  {
    assert Fits(a, a) && Fits(b, b);
    assert a.Keys == b.Keys;
  }

  // ----- classes ------------------------------------------------------------------------------

  /** A host of the class with something to give; without a label it is of the class
      "default". */
  predicate Member(h: PoolHost, cls: string) {
    && cls == (if h.classLabel == "" then "default" else h.classLabel)
    && "cpu" in h.capacity && h.capacity["cpu"] > 0.0 && "memory" in h.capacity && h.capacity["memory"] > 0.0
  }

  /** The host can meet the demand: the pods it takes are the node class's to say, then
      its own, then 110. */
  predicate Serves(h: PoolHost, d: Resources, maxPods: Option<real>) {
    forall r <- d ::
      if r != "pods" then r in h.capacity && d[r] <= h.capacity[r]
      else if maxPods.Some? then d[r] <= maxPods.value
      else if "pods" in h.capacity then d[r] <= h.capacity["pods"]
      else d[r] <= 110.0
  }

  lemma ServesIs(h: PoolHost, d: Resources, maxPods: Option<real>)
    ensures Serves(h, d, maxPods) <==> Fits(d, WithPods(h.capacity, maxPods))
  {
    var c := WithPods(h.capacity, maxPods);
    if Fits(d, c) {
      assert forall r <- d :: r in c && d[r] <= c[r];
    }
  }

  /** Every host of the class can meet the demand. */
  ghost predicate FitsAll(d: Resources, hosts: seq<PoolHost>, cls: string, maxPods: Option<real>) {
    forall h <- hosts :: Member(h, cls) ==> Serves(h, d, maxPods)
  }

  /** Some member was probed and showed this architecture. */
  predicate Shows(hosts: seq<PoolHost>, cls: string, arch: string) {
    arch != "" && exists h <- hosts :: Member(h, cls) && h.arch == arch
  }

  /** What the fold knows about a class after some hosts. */
  ghost predicate Describes(ci: ClassInfo, hosts: seq<PoolHost>, cls: string, maxPods: Option<real>) {
    && (forall d :: Fits(d, ci.capacity) <==> FitsAll(d, hosts, cls, maxPods))
    && CPU in ci.capacity && ci.capacity[CPU] > 0.0
    && (ci.arch != "" ==> Shows(hosts, cls, ci.arch))
    && (ci.mixedArch ==> exists a :: a != ci.arch && Shows(hosts, cls, a))
    && (!ci.mixedArch ==> forall a :: Shows(hosts, cls, a) ==> a == ci.arch)
    && (ci.mixedArch ==> ci.arch != "")
    && (ci.available > 0 <==> exists h <- hosts :: Member(h, cls) && h.free)
  }

  /** One turn of the aggregation loop for a usable host of the class. */
  method Absorb(known: Option<ClassInfo>, h: PoolHost, maxPods: Option<real>,
                ghost seen: seq<PoolHost>) returns (ci: ClassInfo)
    requires UsableCapacity(h.capacity)
    requires known.Some? ==> Describes(known.value, seen, HostClass(h), maxPods)
    requires known.None? ==> forall g <- seen :: !Member(g, HostClass(h))
    ensures Describes(ci, seen + [h], HostClass(h), maxPods)
  {
    var capacity := WithPods(h.capacity, maxPods);
    var before := if known.Some? then known.value else ClassInfo(capacity, "", false, 0, 0);
    ci := before;
    if known.Some? {
      var least := MinCapacity(ci.capacity, capacity);
      ci := ci.(capacity := least);
    }
    if h.arch == "" {
    } else if ci.arch == "" {
      ci := ci.(arch := h.arch);
    } else if ci.arch != h.arch {
      ci := ci.(mixedArch := true);
    }
    ci := ci.(total := ci.total + 1);
    if h.free {
      ci := ci.(available := ci.available + 1);
    }
    ghost var cls := HostClass(h);
    forall d ensures Fits(d, ci.capacity) <==> FitsAll(d, seen + [h], cls, maxPods) {
      MeetIsGreatest(before.capacity, capacity, d);
      FitsAllAppend(d, seen, h, maxPods);
      if known.None? {
        assert FitsAll(d, seen, cls, maxPods);
      }
    }
    ShowsAppend(seen, h);
    FreeAppend(seen, h);
    if before.mixedArch {
      ghost var a :| a != before.arch && Shows(seen, cls, a);
      assert Shows(seen + [h], cls, a);
    } else if ci.mixedArch {
      assert Shows(seen + [h], cls, h.arch);
    }
  }

  lemma FitsAllAppend(d: Resources, seen: seq<PoolHost>, h: PoolHost, maxPods: Option<real>)
    requires UsableCapacity(h.capacity)
    ensures FitsAll(d, seen + [h], HostClass(h), maxPods)
       <==> FitsAll(d, seen, HostClass(h), maxPods) && Fits(d, WithPods(h.capacity, maxPods))
  {
    ServesIs(h, d, maxPods);
    assert h in seen + [h];
    assert forall g <- seen :: g in seen + [h];
  }

  lemma ShowsAppend(seen: seq<PoolHost>, h: PoolHost)
    requires UsableCapacity(h.capacity)
    ensures forall a :: Shows(seen + [h], HostClass(h), a)
                   <==> Shows(seen, HostClass(h), a) || (a != "" && h.arch == a)
  {
    assert h in seen + [h];
    assert forall g <- seen :: g in seen + [h];
  }

  lemma FreeAppend(seen: seq<PoolHost>, h: PoolHost)
    requires UsableCapacity(h.capacity)
    ensures (exists g <- seen + [h] :: Member(g, HostClass(h)) && g.free)
       <==> (exists g <- seen :: Member(g, HostClass(h)) && g.free) || h.free
  {
    assert h in seen + [h];
    assert forall g <- seen :: g in seen + [h];
  }

  /** A host of another class, or an unusable one, says nothing about this class. */
  lemma OthersDoNotCount(ci: ClassInfo, seen: seq<PoolHost>, h: PoolHost, cls: string, maxPods: Option<real>)
    requires !Member(h, cls) && Describes(ci, seen, cls, maxPods)
    ensures Describes(ci, seen + [h], cls, maxPods)
  {
    assert forall g :: g in seen + [h] <==> g in seen || g == h;
    assert forall d :: FitsAll(d, seen + [h], cls, maxPods) <==> FitsAll(d, seen, cls, maxPods);
    assert forall a :: Shows(seen + [h], cls, a) <==> Shows(seen, cls, a);
  }

  // ----- the listing --------------------------------------------------------------------------------

  predicate Populated(hosts: seq<PoolHost>, cls: string) {
    exists h <- hosts :: Member(h, cls)
  }

  /** Every class seen so far, and nothing else, is described. */
  ghost predicate Aggregates(classes: map<string, ClassInfo>, hosts: seq<PoolHost>, maxPods: Option<real>) {
    && (forall c <- classes :: Describes(classes[c], hosts, c, maxPods))
    && (forall c :: c in classes <==> Populated(hosts, c))
  }

  lemma PopulatedAppend(seen: seq<PoolHost>, h: PoolHost, cls: string)
    ensures Populated(seen + [h], cls) <==> Populated(seen, cls) || Member(h, cls)
  {
    assert forall g :: g in seen + [h] <==> g in seen || g == h;
  }

  /** Counting a host in its class keeps every class described. */
  lemma AggregatesStep(before: map<string, ClassInfo>, seen: seq<PoolHost>, h: PoolHost, ci: ClassInfo, maxPods: Option<real>)
    requires Aggregates(before, seen, maxPods)
    requires UsableCapacity(h.capacity) && Describes(ci, seen + [h], HostClass(h), maxPods)
    ensures Aggregates(before[HostClass(h) := ci], seen + [h], maxPods)
  {
    var after := before[HostClass(h) := ci];
    forall c | c in after ensures Describes(after[c], seen + [h], c, maxPods) {
      if c != HostClass(h) {
        OthersDoNotCount(before[c], seen, h, c, maxPods);
      }
    }
    forall c ensures c in after <==> Populated(seen + [h], c) {
      PopulatedAppend(seen, h, c);
    }
  }

  lemma AggregatesSkip(classes: map<string, ClassInfo>, seen: seq<PoolHost>, h: PoolHost, maxPods: Option<real>)
    requires Aggregates(classes, seen, maxPods) && !UsableCapacity(h.capacity)
    ensures Aggregates(classes, seen + [h], maxPods)
  {
    forall c | c in classes ensures Describes(classes[c], seen + [h], c, maxPods) {
      OthersDoNotCount(classes[c], seen, h, c, maxPods);
    }
    forall c ensures c in classes <==> Populated(seen + [h], c) {
      PopulatedAppend(seen, h, c);
    }
  }

  method Aggregate(hosts: seq<PoolHost>, maxPods: Option<real>) returns (classes: map<string, ClassInfo>)
    ensures Aggregates(classes, hosts, maxPods)
  {
    classes := map[];
    for i := 0 to |hosts|
      invariant Aggregates(classes, hosts[..i], maxPods)
    {
      var h := hosts[i];
      ghost var seen := hosts[..i];
      assert hosts[..i + 1] == seen + [h];
      if !UsableCapacity(h.capacity) {
        AggregatesSkip(classes, seen, h, maxPods);
        continue;
      }
      var cls := HostClass(h);
      assert cls !in classes ==> !Populated(seen, cls);
      var ci := Absorb(if cls in classes then Some(classes[cls]) else None, h, maxPods, seen);
      AggregatesStep(classes, seen, h, ci, maxPods);
      classes := classes[cls := ci];
    }
    assert hosts[..|hosts|] == hosts;
  }

  /** The one architecture of a class whose probed members agree. */
  ghost predicate OneArch(hosts: seq<PoolHost>, cls: string, arch: string) {
    Shows(hosts, cls, arch) && forall a :: Shows(hosts, cls, a) ==> a == arch
  }

  /** What the scheduler may rely on about an advertised type. */
  ghost predicate Advertises(t: InstanceType, hosts: seq<PoolHost>, n: NodeClass) {
    && OneArch(hosts, t.name, t.arch)
    && (forall d :: Fits(d, t.capacity) <==> FitsAll(d, hosts, t.name, n.maxPods))
    && "cpu" in t.capacity && !n.price.Unparsable?
    && t.price == (if n.price.DefaultPrice? then 0.02 else n.price.rate) * t.capacity["cpu"]
    && t.reserved == (if n.kubeReserved != map[] then n.kubeReserved else map["cpu" := 0.08, "memory" := 314572800.0])
    && (t.available <==> exists h <- hosts :: Member(h, t.name) && h.free)
    && (forall h <- hosts :: Member(h, t.name) && h.arch != "" ==> t.requirements == NodeLabels(h))
    && t.requirements == map[TypeName := t.name, Arch := t.arch, Os := "linux", Zone := "pool", CapacityType := "on-demand"]
    && t.offering == map[TypeName := t.name, Zone := "pool", CapacityType := "on-demand"]
  }

  /** Each class whose probed members agree on an architecture is listed once, and no other. */
  ghost predicate Listing(out: seq<InstanceType>, hosts: seq<PoolHost>, n: NodeClass) {
    && (forall t <- out :: Advertises(t, hosts, n))
    && (forall cls, arch :: OneArch(hosts, cls, arch) ==> exists t <- out :: t.name == cls)
    && (forall i, j :: 0 <= i < j < |out| ==> out[i].name != out[j].name)
  }

  predicate Advertisable(ci: ClassInfo) {
    ci.arch != "" && !ci.mixedArch
  }

  function TypeOf(cls: string, ci: ClassInfo, n: NodeClass): InstanceType
    requires !n.price.Unparsable?
  {
    InstanceType(cls, ci.arch, ci.capacity, ci.available > 0,
                 Rate(n) * (if CPU in ci.capacity then ci.capacity[CPU] else 0.0), Reserved(n),
                 map[TypeName := cls, Arch := ci.arch, Os := LINUX, Zone := POOL_ZONE, CapacityType := ON_DEMAND],
                 map[TypeName := cls, Zone := POOL_ZONE, CapacityType := ON_DEMAND])
  }

  /** What the listing is made of: one type per advertisable class, none twice. */
  ghost predicate ListsClasses(out: seq<InstanceType>, classes: map<string, ClassInfo>, visited: set<string>,
                               n: NodeClass)
    requires visited <= classes.Keys && !n.price.Unparsable?
  {
    && (forall t <- out :: t.name in visited && Advertisable(classes[t.name]) && t == TypeOf(t.name, classes[t.name], n))
    && (forall c <- visited :: Advertisable(classes[c]) ==> TypeOf(c, classes[c], n) in out)
    && (forall i, j :: 0 <= i < j < |out| ==> out[i].name != out[j].name)
  }

  lemma ListsOneMore(out: seq<InstanceType>, classes: map<string, ClassInfo>, visited: set<string>, cls: string,
                     n: NodeClass)
    requires visited <= classes.Keys && cls in classes && cls !in visited && !n.price.Unparsable?
    requires ListsClasses(out, classes, visited, n)
    ensures ListsClasses(if Advertisable(classes[cls]) then out + [TypeOf(cls, classes[cls], n)] else out,
                         classes, visited + {cls}, n)
  {
    assert forall t :: t in out + [TypeOf(cls, classes[cls], n)] <==> t in out || t == TypeOf(cls, classes[cls], n);
    assert forall i :: 0 <= i < |out| ==> out[i] in out;
  }

  /** The types of a node class, or an error when its price does not parse. */
  method List(hosts: seq<PoolHost>, n: NodeClass) returns (r: Option<seq<InstanceType>>)
    ensures r.None? <==> n.price.Unparsable?
    ensures r.Some? ==> Listing(r.value, hosts, n)
  {
    var classes := Aggregate(hosts, n.maxPods);
    if n.price.Unparsable? {
      return None;
    }
    var out := ListClasses(classes, n);
    ListingOfClasses(out, classes, hosts, n);
    r := Some(out);
  }

  method ListClasses(classes: map<string, ClassInfo>, n: NodeClass) returns (out: seq<InstanceType>)
    requires !n.price.Unparsable?
    ensures ListsClasses(out, classes, classes.Keys, n)
  {
    out := [];
    var names := classes.Keys;
    while names != {}
      invariant names <= classes.Keys
      invariant ListsClasses(out, classes, classes.Keys - names, n)
    {
      var cls :| cls in names;
      ListsOneMore(out, classes, classes.Keys - names, cls, n);
      assert classes.Keys - (names - {cls}) == classes.Keys - names + {cls};
      names := names - {cls};
      if Advertisable(classes[cls]) {
        out := out + [TypeOf(cls, classes[cls], n)];
      }
    }
    assert classes.Keys - names == classes.Keys;
  }

  lemma TypeAdvertises(cls: string, ci: ClassInfo, hosts: seq<PoolHost>, n: NodeClass)
    requires !n.price.Unparsable? && Describes(ci, hosts, cls, n.maxPods) && Advertisable(ci)
    ensures Advertises(TypeOf(cls, ci, n), hosts, n)
  {
    var t := TypeOf(cls, ci, n);
    forall h | h in hosts && Member(h, cls) && h.arch != "" ensures t.requirements == NodeLabels(h) {
      assert Shows(hosts, cls, h.arch);
    }
  }

  lemma ListingOfClasses(out: seq<InstanceType>, classes: map<string, ClassInfo>, hosts: seq<PoolHost>,
                         n: NodeClass)
    requires !n.price.Unparsable? && Aggregates(classes, hosts, n.maxPods) && ListsClasses(out, classes, classes.Keys, n)
    ensures Listing(out, hosts, n)
  {
    forall t | t in out ensures Advertises(t, hosts, n) {
      TypeAdvertises(t.name, classes[t.name], hosts, n);
    }
    forall cls, arch | OneArch(hosts, cls, arch) ensures exists t <- out :: t.name == cls {
      assert Shows(hosts, cls, arch) && Populated(hosts, cls);
      assert Describes(classes[cls], hosts, cls, n.maxPods);
      assert TypeOf(cls, classes[cls], n) in out;
    }
  }

  /** The advertisement does not depend on the order in which hosts are listed, nor
      on the order in which classes are visited. */
  lemma ListingIgnoresOrder(out: seq<InstanceType>, hosts: seq<PoolHost>, out': seq<InstanceType>, hosts': seq<PoolHost>,
                            n: NodeClass)
    requires Listing(out, hosts, n) && Listing(out', hosts', n)
    requires multiset(hosts) == multiset(hosts')
    ensures multiset(out) == multiset(out')
  {
    SameHosts(hosts, hosts');
    ListedIn(out, hosts, out', hosts', n);
    ListedIn(out', hosts', out, hosts, n);
    DistinctNames(out);
    DistinctNames(out');
  }

  lemma SameHosts(hosts: seq<PoolHost>, hosts': seq<PoolHost>)
    requires multiset(hosts) == multiset(hosts')
    ensures forall h :: h in hosts <==> h in hosts'
  {
    assert forall h :: h in hosts <==> h in multiset(hosts);
    assert forall h :: h in hosts' <==> h in multiset(hosts');
  }

  lemma ListedIn(out: seq<InstanceType>, hosts: seq<PoolHost>, out': seq<InstanceType>, hosts': seq<PoolHost>,
                 n: NodeClass)
    requires Listing(out, hosts, n) && Listing(out', hosts', n)
    requires forall h :: h in hosts <==> h in hosts'
    ensures forall t <- out :: t in out'
  {
    forall t | t in out ensures t in out' {
      assert Advertises(t, hosts, n);
      SameMeaning(t, hosts, hosts', n);
      var u :| u in out' && u.name == t.name;
      SameType(t, u, hosts', n);
    }
  }

  lemma SameMeaning(t: InstanceType, hosts: seq<PoolHost>, hosts': seq<PoolHost>, n: NodeClass)
    requires Advertises(t, hosts, n) && forall h :: h in hosts <==> h in hosts'
    ensures Advertises(t, hosts', n)
  {
    assert forall a :: Shows(hosts, t.name, a) <==> Shows(hosts', t.name, a);
    assert forall d :: FitsAll(d, hosts, t.name, n.maxPods) <==> FitsAll(d, hosts', t.name, n.maxPods);
  }

  /** An advertisement is determined by the hosts and the class. */
  lemma SameType(t: InstanceType, u: InstanceType, hosts: seq<PoolHost>, n: NodeClass)
    requires Advertises(t, hosts, n) && Advertises(u, hosts, n) && t.name == u.name
    ensures t == u
  {
    ShapeIsUnique(t.capacity, u.capacity);
    assert Shows(hosts, t.name, t.arch);
    var h :| h in hosts && Member(h, t.name) && h.arch == t.arch;
  }

  lemma {:induction false} DistinctNames(out: seq<InstanceType>)
    requires forall i, j :: 0 <= i < j < |out| ==> out[i].name != out[j].name
    ensures forall t :: multiset(out)[t] == if t in out then 1 else 0
  {
    if out != [] {
      assert out == [out[0]] + out[1..];
      DistinctNames(out[1..]);
    }
  }
}
