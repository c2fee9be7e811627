/**
 Runs in which karpenter core keeps its side of the contract: calls are
 serialised per NodeClaim, the NodeClaim outlives its calls, calls start from
 current reads of the claim they are about, and a NodeClaim is only reported gone
 when it is gone.  Status reads by the probe, candidate listings and re-reads
 after a conflict may still be stale, and responses may still be lost.

 In such runs the stored claim of a call's host is the call's own for as long as
 the call lives.  Hence mutating phases never overlap on a host, and a NodeClaim
 never holds two hosts.
 */
module Orderly {
  import opened Options
  import opened Records
  import opened Ledger
  import opened Protocol
  import opened Invariant

  // ----- the environment's discipline --------------------------------------------------------

  predicate NoCallFor(s: Sys, nc: ClaimRef) {
    forall id <- s.calls :: s.calls[id].nc != nc
  }

  predicate MayStart(s: Sys, nc: ClaimRef) {
    nc in s.claims && NoCallFor(s, nc)
  }

  predicate OrderlyEvent(s: Sys, e: Event) {
    match e
    case ClaimGone(nc) => NoCallFor(s, nc)
    case SeekHost(_, nc) =>
      MayStart(s, nc) && forall h <- s.hosts :: !HeldBy(Current(s.hosts[h].history).status, nc)
    case Open(_, nc, _, h, i) =>
      MayStart(s, nc) && (h in s.hosts ==> i == |s.hosts[h].history| - 1)
    case Observe(h, Looked(Gone)) =>
      h in s.hosts && s.hosts[h].probe.Checking? && s.hosts[h].probe.base.version.status.claim.Some?
      ==> s.hosts[h].probe.base.version.status.claim.value !in s.claims
    case _ => true
  }

  ghost predicate OrderlyRun(s: Sys, events: seq<Event>) {
    forall k :: 0 <= k < |events| ==> OrderlyEvent(Run(s, events[..k]), events[k])
  }

  // ----- the invariant --------------------------------------------------------------------------

  function ClaimOf(s: Sys, h: HostId): Option<ClaimRef>
    requires h in s.hosts
  {
    Current(s.hosts[h].history).status.claim
  }

  /** A call's claim, in memory and in the store. */
  ghost predicate CallOwns(s: Sys, c: Call) {
    && c.nc in s.claims
    && (c.Holding? ==>
          && c.host in s.hosts
          && c.copy.version.status.claim == Some(c.nc)
          && ClaimOf(s, c.host) == Some(c.nc))
    && (c.Seeking? ==> forall h <- s.hosts :: ClaimOf(s, h) != Some(c.nc))
  }

  /** The probe only ever prepares to drop the claim of a NodeClaim that is gone. */
  predicate ReapsTheDead(p: Probe, claims: set<ClaimRef>) {
    && (p.Reaping? && p.base.version.status.claim.Some?
        ==> p.base.version.status.claim.value !in claims)
    && (p.Patching? && p.base.version.status.claim.Some? && p.next.claim == None
        ==> p.base.version.status.claim.value !in claims)
  }

  ghost predicate AllBorn(hist: History, born: set<ClaimRef>) {
    forall i :: 0 <= i < |hist| && StatusAt(hist, i).claim.Some? ==> StatusAt(hist, i).claim.value in born
  }

  ghost predicate HostOrder(host: Host, s: Sys) {
    AllBorn(host.history, s.born) && ReapsTheDead(host.probe, s.claims)
  }

  ghost predicate OrderInv(s: Sys) {
    && s.claims <= s.born && (forall nc <- s.born :: nc.uid != "")
    && (forall h <- s.hosts :: HostOrder(s.hosts[h], s))
    && (forall id <- s.calls :: CallOwns(s, s.calls[id]))
    && (forall i <- s.calls, j <- s.calls | i != j :: s.calls[i].nc != s.calls[j].nc)
    && (forall g <- s.hosts, h <- s.hosts | g != h && ClaimOf(s, g).Some? :: ClaimOf(s, g) != ClaimOf(s, h))
  }

  // ----- the store moves on one host ---------------------------------------------------------------

  /** How the claim stored for a host may change in one event. */
  ghost predicate ClaimMoved(s: Sys, t: Sys, h: HostId) {
    && OnlyHost(s, t, h) && t.claims == s.claims && t.born == s.born
    && (|| ClaimOf(t, h) == ClaimOf(s, h)
        || ClaimOf(t, h) == None
        || (ClaimOf(s, h) == None && ClaimOf(t, h).value in s.claims
            && forall g <- s.hosts :: ClaimOf(s, g) != ClaimOf(t, h)))
  }

  lemma OwnsStays(s: Sys, t: Sys, h: HostId, c: Call)
    requires ClaimMoved(s, t, h) && CallOwns(s, c)
    requires c.Holding? && c.host == h ==> ClaimOf(t, h) == ClaimOf(s, h)
    requires c.Seeking? ==> ClaimOf(t, h) != Some(c.nc)
    ensures CallOwns(t, c)
  {
    if c.Seeking? {
      forall g <- t.hosts ensures ClaimOf(t, g) != Some(c.nc) {
        if g != h {
          assert ClaimOf(t, g) == ClaimOf(s, g);
        }
      }
    }
  }

  lemma BornStays(s: Sys, t: Sys, h: HostId)
    requires OrderInv(s) && ClaimMoved(s, t, h)
    ensures AllBorn(t.hosts[h].history, t.born)
  {
    var hist, after := s.hosts[h].history, t.hosts[h].history;
    assert HostOrder(s.hosts[h], s);
    forall i | 0 <= i < |after| && StatusAt(after, i).claim.Some?
      ensures StatusAt(after, i).claim.value in t.born
    {
      if i < |hist| {
        ExtendsKeepsVersions(hist, after, i);
        assert StatusAt(hist, i).claim.value in s.born;
      } else {
        assert StatusAt(after, i).claim == ClaimOf(t, h);
        assert ClaimOf(s, h) == StatusAt(hist, |hist| - 1).claim;
      }
    }
  }

  lemma HostMoveOrder(s: Sys, t: Sys, h: HostId)
    requires OrderInv(s) && ClaimMoved(s, t, h)
    requires ReapsTheDead(t.hosts[h].probe, t.claims)
    requires forall id <- t.calls :: CallOwns(t, t.calls[id])
    requires forall i <- t.calls, j <- t.calls | i != j :: t.calls[i].nc != t.calls[j].nc
    ensures OrderInv(t)
  {
    BornStays(s, t, h);
    forall g <- t.hosts ensures HostOrder(t.hosts[g], t) {
      assert HostOrder(s.hosts[g], s);
    }
    forall g <- t.hosts, k <- t.hosts | g != k && ClaimOf(t, g).Some?
      ensures ClaimOf(t, g) != ClaimOf(t, k)
    {
      assert g != h ==> ClaimOf(t, g) == ClaimOf(s, g);
      assert k != h ==> ClaimOf(t, k) == ClaimOf(s, k);
    }
  }

  // ----- calls -----------------------------------------------------------------------------------------

  /** What a call's step can do to the stored claim. */
  predicate CallClaims(hist: History, c: Call, o: Outcome) {
    var was, now := Current(hist).status.claim, Current(o.history).status.claim;
    || now == was
    || (c.Holding? && now == None && o.next.None?)
    || (c.Seeking? && was == None && now == Some(c.nc) && (o.next.Some? ==> o.next.value.Holding?))
  }

  lemma GuaranteeClaims(hist: History, c: Call, o: Outcome)
    requires CallGuarantee(hist, c, o)
    ensures CallClaims(hist, c, o)
  {
    if Grew(hist, o.history) {
      assert Lawful(Current(hist), o.history[|hist|]);
    }
  }

  lemma CallMovesClaim(s: Sys, id: CallId, h: HostId, o: Outcome)
    requires OrderInv(s) && Settles(s, id, h, o)
    ensures ClaimMoved(s, Settled(s, id, h, o), h)
    ensures CallClaims(s.hosts[h].history, s.calls[id], o)
  {
    SettledShape(s, id, h, o);
    assert CallOwns(s, s.calls[id]);
    GuaranteeClaims(s.hosts[h].history, s.calls[id], o);
  }

  lemma OtherCallOwns(s: Sys, id: CallId, h: HostId, o: Outcome, i: CallId)
    requires OrderInv(s) && Settles(s, id, h, o) && i in s.calls && i != id
    ensures CallOwns(Settled(s, id, h, o), s.calls[i])
  {
    CallMovesClaim(s, id, h, o);
    var c, d := s.calls[id], s.calls[i];
    assert CallOwns(s, c) && CallOwns(s, d) && c.nc != d.nc;
    SettledShape(s, id, h, o);
    OwnsStays(s, Settled(s, id, h, o), h, d);
  }

  lemma SameCallOwns(s: Sys, id: CallId, h: HostId, o: Outcome)
    requires OrderInv(s) && Settles(s, id, h, o) && o.next.Some?
    ensures CallOwns(Settled(s, id, h, o), o.next.value)
  {
    CallMovesClaim(s, id, h, o);
    assert CallOwns(s, s.calls[id]);
    SettledShape(s, id, h, o);
    if o.next.value.Seeking? {
      OwnsStays(s, Settled(s, id, h, o), h, o.next.value);
    }
  }

  lemma SettledOrder(s: Sys, id: CallId, h: HostId, o: Outcome)
    requires OrderInv(s) && Settles(s, id, h, o)
    ensures OrderInv(Settled(s, id, h, o))
  {
    var t := Settled(s, id, h, o);
    SettledShape(s, id, h, o);
    CallMovesClaim(s, id, h, o);
    forall i <- t.calls ensures CallOwns(t, t.calls[i]) {
      if i != id { OtherCallOwns(s, id, h, o, i); } else { SameCallOwns(s, id, h, o); }
    }
    assert HostOrder(s.hosts[h], s);
    HostMoveOrder(s, t, h);
  }

  lemma CallStepOrder(s: Sys, id: CallId, ch: CallChoice)
    requires Inv(s) && OrderInv(s)
    ensures OrderInv(CallStep(s, id, ch))
  {
    if id in s.calls && FreshMint(s, ch) {
      var target := CallTarget(s.calls[id], ch);
      if s.calls[id].Seeking? && ch.GiveUp? {
        OpenedOrder(s, id, None);
      } else if target.Some? && target.value in s.hosts {
        CallTargetOrder(s, id, ch, target.value);
      }
    }
  }

  lemma CallTargetOrder(s: Sys, id: CallId, ch: CallChoice, h: HostId)
    requires Inv(s) && OrderInv(s) && Works(s, id, ch, h)
    ensures OrderInv(CallStep(s, id, ch))
  {
    CallOutcomeSettles(s, id, ch, h);
    SettledOrder(s, id, h, CallOutcome(s.hosts[h].history, s.calls[id], ch));
    CallStepSettles(s, id, ch, h);
  }

  lemma OpenedOrder(s: Sys, id: CallId, next: Option<Call>)
    requires OrderInv(s)
    requires next.Some? ==> CallOwns(s, next.value) && NoCallFor(s, next.value.nc)
    ensures OrderInv(WithCall(s, id, next))
  {
    var t := WithCall(s, id, next);
    forall h <- t.hosts ensures HostOrder(t.hosts[h], t) {
      assert HostOrder(s.hosts[h], s);
    }
    forall i <- t.calls ensures CallOwns(t, t.calls[i]) {
      if i in s.calls {
        assert CallOwns(s, s.calls[i]);
      }
    }
    forall g <- t.hosts, h <- t.hosts | g != h && ClaimOf(t, g).Some?
      ensures ClaimOf(t, g) != ClaimOf(t, h)
    {
      assert ClaimOf(s, g) != ClaimOf(s, h);
    }
  }

  /** With UIDs on both sides, the fence is equality. */
  lemma HeldByBorn(s: Sys, h: HostId, nc: ClaimRef)
    requires OrderInv(s) && h in s.hosts && nc in s.claims
    ensures HeldBy(Current(s.hosts[h].history).status, nc) <==> ClaimOf(s, h) == Some(nc)
  {
    var hist := s.hosts[h].history;
    assert HostOrder(s.hosts[h], s);
    assert StatusAt(hist, |hist| - 1) == Current(hist).status;
  }

  lemma OpenOrder(s: Sys, e: Event)
    requires OrderInv(s) && OrderlyEvent(s, e) && (e.Open? || e.SeekHost?)
    ensures OrderInv(Step(s, e))
  {
    if e.SeekHost? {
      forall h <- s.hosts ensures ClaimOf(s, h) != Some(e.nc) {
        HeldByBorn(s, h, e.nc);
      }
      OpenedOrder(s, e.id, Some(Seeking(e.nc)));
    } else if e.host in s.hosts {
      HeldByBorn(s, e.host, e.nc);
      OpenedOrder(s, e.id, Opened(e.nc, e.kind, e.host, Newest(s.hosts[e.host].history)));
    }
  }

  // ----- the probe ----------------------------------------------------------------------------------------

  /** A probe only clears a claim by the patch that reaps it. */
  ghost predicate ProbeClears(hist: History, p: Probe, o: ProbeOutcome) {
    Current(o.history).status.claim != Current(hist).status.claim ==>
      && Current(o.history).status.claim == None
      && p.Patching? && p.base.version == Current(hist) && p.next.claim == None
  }

  lemma ProbeStepClears(hist: History, p: Probe, ch: ProbeChoice, now: int)
    requires LawfulHistory(hist) && ProbeOk(hist, p, now)
    ensures ProbeClears(hist, p, ProbeStep(hist, p, ch, now))
  {
    if ch.Write? && (p.SavingFacts? || p.Fencing? || p.Patching?) {
      AllSound(hist, p.base.rv);
    }
  }

  lemma ProbeStepReaps(hist: History, p: Probe, ch: ProbeChoice, now: int, claims: set<ClaimRef>)
    requires ProbeOk(hist, p, now) && ReapsTheDead(p, claims)
    requires ch == Looked(Gone) && p.Checking? ==> p.base.version.status.claim.value !in claims
    ensures ReapsTheDead(ProbeStep(hist, p, ch, now).next, claims)
  {}

  lemma ObservedOrder(s: Sys, h: HostId, o: ProbeOutcome)
    requires Inv(s) && OrderInv(s) && h in s.hosts
    requires ProbeGuarantee(s.hosts[h].history, o, s.clock)
    requires ProbeClears(s.hosts[h].history, s.hosts[h].probe, o)
    requires ReapsTheDead(o.next, s.claims)
    ensures OrderInv(Observed(s, h, o))
  {
    var t := Observed(s, h, o);
    ObservedShape(s, h, o);
    assert ClaimMoved(s, t, h);
    forall id <- t.calls ensures CallOwns(t, t.calls[id]) {
      ReapSparesCalls(s, h, o, id);
      OwnsStays(s, t, h, s.calls[id]);
    }
    HostMoveOrder(s, t, h);
  }

  /** What the probe clears is never the claim of a call in flight. */
  lemma ReapSparesCalls(s: Sys, h: HostId, o: ProbeOutcome, id: CallId)
    requires OrderInv(s) && h in s.hosts && id in s.calls
    requires ProbeClears(s.hosts[h].history, s.hosts[h].probe, o)
    ensures CallOwns(s, s.calls[id])
    ensures s.calls[id].Holding? && s.calls[id].host == h
            ==> Current(o.history).status.claim == ClaimOf(s, h)
  {
    assert CallOwns(s, s.calls[id]);
    assert HostOrder(s.hosts[h], s);
  }

  lemma ObserveOrder(s: Sys, h: HostId, ch: ProbeChoice)
    requires Inv(s) && OrderInv(s) && h in s.hosts && OrderlyEvent(s, Observe(h, ch))
    ensures OrderInv(Step(s, Observe(h, ch)))
  {
    var host := s.hosts[h];
    assert HostOrder(host, s);
    ProbeStepOk(host.history, host.probe, ch, s.clock);
    ProbeStepClears(host.history, host.probe, ch, s.clock);
    ProbeStepReaps(host.history, host.probe, ch, s.clock, s.claims);
    ObservedOrder(s, h, ProbeStep(host.history, host.probe, ch, s.clock));
  }

  // ----- the other events -----------------------------------------------------------------------------------

  /** Nothing about claims changed. */
  lemma SameClaimsOrder(s: Sys, t: Sys, h: HostId)
    requires OrderInv(s) && OnlyHost(s, t, h) && t.calls == s.calls
    requires t.claims == s.claims && t.born == s.born
    requires ClaimOf(t, h) == ClaimOf(s, h) && ReapsTheDead(t.hosts[h].probe, t.claims)
    ensures OrderInv(t)
  {
    assert ClaimMoved(s, t, h);
    forall id <- t.calls ensures CallOwns(t, t.calls[id]) {
      assert CallOwns(s, s.calls[id]);
      OwnsStays(s, t, h, s.calls[id]);
    }
    HostMoveOrder(s, t, h);
  }

  lemma EditOrder(s: Sys, e: Event)
    requires OrderInv(s) && e.Edit? && e.host in s.hosts
    ensures OrderInv(Step(s, e))
  {
    var hist := s.hosts[e.host].history;
    LandExtends(hist, Edited(Current(hist), e.maintenance, e.hostClass, e.generation), Operator);
    assert HostOrder(s.hosts[e.host], s);
    SameClaimsOrder(s, Step(s, e), e.host);
  }

  lemma ReconcileOrder(s: Sys, e: Event)
    requires OrderInv(s) && e.Reconcile? && e.host in s.hosts
    ensures OrderInv(Step(s, e))
  {
    assert HostOrder(s.hosts[e.host], s);
    ReconcileShape(s, e);
    SameClaimsOrder(s, Step(s, e), e.host);
  }

  /** A read moves the probe of its host and nothing else, and reaps nobody. */
  lemma ReconcileShape(s: Sys, e: Event)
    requires e.Reconcile? && e.host in s.hosts && ReapsTheDead(s.hosts[e.host].probe, s.claims)
    ensures var t := Step(s, e);
            && OnlyHost(s, t, e.host) && t.calls == s.calls && t.claims == s.claims && t.born == s.born
            && ClaimOf(t, e.host) == ClaimOf(s, e.host) && ReapsTheDead(t.hosts[e.host].probe, t.claims)
  {}

  /** NodeClaims come and go, and time passes, with the store untouched. */
  lemma SameStoreOrder(s: Sys, t: Sys)
    requires OrderInv(s) && t.hosts == s.hosts && t.calls == s.calls
    requires t.claims <= t.born && s.born <= t.born && (forall nc <- t.born :: nc.uid != "")
    requires forall id <- s.calls :: s.calls[id].nc in t.claims
    requires forall h <- s.hosts :: ReapsTheDead(s.hosts[h].probe, t.claims)
    ensures OrderInv(t)
  {
    forall h <- t.hosts ensures HostOrder(t.hosts[h], t) && ClaimOf(t, h) == ClaimOf(s, h) {
      assert HostOrder(s.hosts[h], s);
    }
    forall id <- t.calls ensures CallOwns(t, t.calls[id]) {
      assert CallOwns(s, s.calls[id]);
    }
  }

  lemma ClaimsOrder(s: Sys, e: Event)
    requires Inv(s) && OrderInv(s) && OrderlyEvent(s, e) && (e.ClaimBorn? || e.ClaimGone?)
    ensures OrderInv(Step(s, e))
  {
    forall h <- s.hosts ensures ReapsTheDead(s.hosts[h].probe, Step(s, e).claims) {
      ReapedStayDead(s, e, h);
    }
    forall id <- s.calls ensures s.calls[id].nc in Step(s, e).claims {
      assert CallOwns(s, s.calls[id]);
    }
    SameStoreOrder(s, Step(s, e));
  }

  /** A NodeClaim that is gone never comes back: UIDs are not reused. */
  lemma ReapedStayDead(s: Sys, e: Event, h: HostId)
    requires Inv(s) && OrderInv(s) && (e.ClaimBorn? || e.ClaimGone?) && h in s.hosts
    ensures ReapsTheDead(s.hosts[h].probe, Step(s, e).claims)
  {
    var p := s.hosts[h].probe;
    assert HostOrder(s.hosts[h], s);
    if !p.Idle? {
      assert ProbeOk(s.hosts[h].history, p, s.clock);
      assert p.base.version.status == StatusAt(s.hosts[h].history, p.base.rv);
    }
  }

  lemma StepOrder(s: Sys, e: Event)
    requires Inv(s) && OrderInv(s) && OrderlyEvent(s, e)
    ensures OrderInv(Step(s, e))
  {
    match e
    case Tick(_) => TickOrder(s, e);
    case ClaimBorn(_) => ClaimsOrder(s, e);
    case ClaimGone(_) => ClaimsOrder(s, e);
    case Edit(h, _, _, _) => if h in s.hosts { EditOrder(s, e); }
    case SeekHost(_, _) => OpenOrder(s, e);
    case Open(_, _, _, _, _) => OpenOrder(s, e);
    case Proceed(id, ch) => CallStepOrder(s, id, ch);
    case Reconcile(h, _) => if h in s.hosts { ReconcileOrder(s, e); }
    case Observe(h, ch) => if h in s.hosts { ObserveOrder(s, h, ch); }
  }

  lemma TickOrder(s: Sys, e: Event)
    requires OrderInv(s) && e.Tick?
    ensures OrderInv(Step(s, e))
  {
    forall h <- s.hosts ensures ReapsTheDead(s.hosts[h].probe, s.claims) {
      assert HostOrder(s.hosts[h], s);
    }
    forall id <- s.calls ensures s.calls[id].nc in s.claims {
      assert CallOwns(s, s.calls[id]);
    }
    SameStoreOrder(s, Step(s, e));
  }

  lemma {:induction false} RunOrder(s: Sys, events: seq<Event>)
    requires Initial(s) && OrderlyRun(s, events)
    ensures OrderInv(Run(s, events))
  {
    if events == [] {
      forall h <- s.hosts ensures HostOrder(s.hosts[h], s) && ClaimOf(s, h) == None {
        assert NewHost(s.hosts[h]);
      }
    } else {
      var before, last := events[..|events| - 1], events[|events| - 1];
      assert forall k :: 0 <= k < |before| ==> before[..k] == events[..k];
      RunOrder(s, before);
      RunInv(s, before);
      StepOrder(Run(s, before), last);
    }
  }

  // ----- the theorems ----------------------------------------------------------------------------------------

  /** A phase script of call `c` is running on host `h`. */
  predicate CallPhaseOn(c: Call, h: HostId) {
    c.Holding? && c.host == h && c.pc.Running?
  }

  /** At most one of install, join, leave and reboot runs on the host, counting
      the zombie guard's leave. */
  ghost predicate AtMostOnePhase(s: Sys, h: HostId)
    requires h in s.hosts
  {
    && (forall i <- s.calls, j <- s.calls |
          CallPhaseOn(s.calls[i], h) && CallPhaseOn(s.calls[j], h) :: i == j)
    && (s.hosts[h].probe.Expelling? ==> forall i <- s.calls :: !CallPhaseOn(s.calls[i], h))
  }

  lemma OwnersDoNotOverlap(t: Sys, h: HostId)
    requires Inv(t) && OrderInv(t) && h in t.hosts
    ensures AtMostOnePhase(t, h)
  {
    forall i <- t.calls | CallPhaseOn(t.calls[i], h) ensures ClaimOf(t, h) == Some(t.calls[i].nc) {
      assert CallOwns(t, t.calls[i]);
    }
    ExpellingIsUnclaimed(t, h);
  }

  lemma ExpellingIsUnclaimed(t: Sys, h: HostId)
    requires Inv(t) && h in t.hosts
    ensures t.hosts[h].probe.Expelling? ==> ClaimOf(t, h) == None
  {
    assert ProbeOk(t.hosts[h].history, t.hosts[h].probe, t.clock);
  }

  /** In every orderly interleaving, mutating phases never overlap on a host. */
  lemma PhasesNeverOverlap(s: Sys, events: seq<Event>, h: HostId)
    requires Initial(s) && OrderlyRun(s, events) && h in Run(s, events).hosts
    ensures AtMostOnePhase(Run(s, events), h)
  {
    RunOrder(s, events);
    RunInv(s, events);
    OwnersDoNotOverlap(Run(s, events), h);
  }

  /** A NodeClaim never holds two hosts, and a call's host is its NodeClaim's. */
  lemma OneHostPerNodeClaim(s: Sys, events: seq<Event>, g: HostId, h: HostId)
    requires Initial(s) && OrderlyRun(s, events)
    requires var t := Run(s, events);
             g in t.hosts && h in t.hosts && ClaimOf(t, g).Some? && ClaimOf(t, g) == ClaimOf(t, h)
    ensures g == h
    ensures forall id <- Run(s, events).calls ::
              var c := Run(s, events).calls[id];
              c.Holding? && Some(c.nc) == ClaimOf(Run(s, events), g) ==> c.host == g
  {
    var t := Run(s, events);
    RunOrder(s, events);
    forall id <- t.calls | t.calls[id].Holding? ensures ClaimOf(t, t.calls[id].host) == Some(t.calls[id].nc) {
      assert CallOwns(t, t.calls[id]);
    }
  }
}
