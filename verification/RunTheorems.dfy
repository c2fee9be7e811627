/**
 What holds in every run of the claim protocol, whatever the interleaving, the
 staleness of reads and the responses lost: the consequences of the inductive
 invariant, stated about the store.
 */
module RunTheorems {
  import opened Options
  import opened Records
  import opened Ledger
  import opened Protocol
  import opened Invariant
  import opened Orderly

  function Stored(s: Sys, events: seq<Event>, h: HostId): History
    requires h in Run(s, events).hosts
  {
    Run(s, events).hosts[h].history
  }

  lemma StoredIsLawful(s: Sys, events: seq<Event>, h: HostId)
    requires Initial(s) && h in Run(s, events).hosts
    ensures LawfulHistory(Stored(s, events, h))
  {
    RunInv(s, events);
  }

  /** A claim is stored exactly in the states Claimed and InUse, and a providerID
      only under a claim. */
  lemma StoreIsAlwaysSound(s: Sys, events: seq<Event>, h: HostId, i: nat)
    requires Initial(s) && h in Run(s, events).hosts && i < |Stored(s, events, h)|
    ensures var st := StatusAt(Stored(s, events, h), i);
            && (st.claim.Some? <==> st.state == Claimed || st.state == InUse)
            && (st.providerID != "" ==> st.claim.Some?)
  {
    StoredIsLawful(s, events, h);
    AllSound(Stored(s, events, h), i);
  }

  /** A claim only replaces a version that is Available, unclaimed, not annotated
      for maintenance and of the class the launch asked for. */
  lemma ClaimsAreFair(s: Sys, events: seq<Event>, h: HostId, i: nat)
    requires Initial(s) && h in Run(s, events).hosts && 0 < i < |Stored(s, events, h)|
    requires var hist := Stored(s, events, h);
             StatusAt(hist, i).claim.Some? && StatusAt(hist, i).claim != StatusAt(hist, i - 1).claim
    ensures var hist := Stored(s, events, h);
            && hist[i].who.Claimer?
            && var v, wanted := hist[i - 1].version, hist[i].who.hostClass;
               && v.status.state == Available && v.status.claim == None && !v.maintenance
               && (wanted != "" ==> v.hostClass == wanted)
  {
    StoredIsLawful(s, events, h);
    ClaimsReplaceClaimable(Stored(s, events, h), i);
  }

  /** Between two owners there is always an unclaimed, Available version. */
  lemma OwnersAreSeparated(s: Sys, events: seq<Event>, h: HostId, i: nat, j: nat) returns (k: nat)
    requires Initial(s) && h in Run(s, events).hosts && i < j < |Stored(s, events, h)|
    requires var hist := Stored(s, events, h);
             && StatusAt(hist, i).claim.Some? && StatusAt(hist, j).claim.Some?
             && StatusAt(hist, i).claim != StatusAt(hist, j).claim
    ensures i < k < j
    ensures StatusAt(Stored(s, events, h), k).claim == None
    ensures StatusAt(Stored(s, events, h), k).state == Available
  {
    StoredIsLawful(s, events, h);
    k := OwnershipPassesThroughAvailable(Stored(s, events, h), i, j);
  }

  /** A call for `nc` never writes over a version that another NodeClaim holds: a
      late Delete leaves a successor's record untouched. */
  lemma SuccessorsAreSafe(s: Sys, events: seq<Event>, h: HostId, i: nat, nc: ClaimRef)
    requires Initial(s) && h in Run(s, events).hosts && 0 < i < |Stored(s, events, h)|
    requires var prior := StatusAt(Stored(s, events, h), i - 1).claim;
             prior.Some? && (prior.value.name != nc.name
                             || (prior.value.uid != "" && nc.uid != "" && prior.value.uid != nc.uid))
    ensures var who := Stored(s, events, h)[i].who;
            (who.Claimer? || who.Setter? || who.Releaser?) ==> who.nc != nc
  {
    StoredIsLawful(s, events, h);
    var who := Stored(s, events, h)[i].who;
    if (who.Claimer? || who.Setter? || who.Releaser?) && who.nc == nc {
      OnlyOwnRecordsAreWritten(Stored(s, events, h), i, nc);
    }
  }

  /** The zombie guard has fenced the host and not yet written its closing state. */
  predicate GuardInside(p: Probe) {
    p.Fenced? || p.Expelling? || p.DroppingNode? || (p.Patching? && p.closing)
  }

  /** The guard runs leave and deletes the Node only on a host that is stored as
      Leaving and unclaimed, and no event of anybody claims the host meanwhile. */
  lemma FenceHolds(s: Sys, events: seq<Event>, e: Event, h: HostId)
    requires Initial(s) && h in Run(s, events).hosts
    requires GuardInside(Run(s, events).hosts[h].probe)
    ensures var cur := Current(Stored(s, events, h)).status;
            cur.state == Leaving && cur.claim == None
    ensures h in Step(Run(s, events), e).hosts
    ensures Current(Step(Run(s, events), e).hosts[h].history).status.claim == None
  {
    RunInv(s, events);
    var t := Run(s, events);
    assert ProbeOk(t.hosts[h].history, t.hosts[h].probe, t.clock);
    LeavingStaysUnclaimed(t, e, h);
  }

  lemma LeavingStaysUnclaimed(t: Sys, e: Event, h: HostId)
    requires Inv(t) && h in t.hosts && Current(t.hosts[h].history).status.state == Leaving
    ensures h in Step(t, e).hosts
    ensures Current(Step(t, e).hosts[h].history).status.claim == None
  {
    var hist := t.hosts[h].history;
    AllSound(hist, |hist| - 1);
    StepInv(t, e);
    StepExtends(t, e, h);
    var after := Step(t, e).hosts[h].history;
    if Grew(hist, after) {
      ExtendsKeepsVersions(hist, after, |hist| - 1);
      LeavingIsAFence(after, |hist|);
    }
  }

  /** Every event adds at most one lawful entry to a host's history. */
  lemma StepExtends(t: Sys, e: Event, h: HostId)
    requires Inv(t) && h in t.hosts
    ensures h in Step(t, e).hosts && Extends(t.hosts[h].history, Step(t, e).hosts[h].history)
  {
    match e
    case Edit(_, _, _, _) => EditExtends(t, e, h);
    case Proceed(id, ch) => CallExtends(t, id, ch, h);
    case Observe(g, ch) => ObserveExtends(t, g, ch, h);
    case _ => QuietExtends(t, e, h);
  }

  /** Events that write nothing. */
  lemma QuietExtends(t: Sys, e: Event, h: HostId)
    requires h in t.hosts && !e.Edit? && !e.Proceed? && !e.Observe?
    ensures h in Step(t, e).hosts && Step(t, e).hosts[h].history == t.hosts[h].history
  {}

  lemma EditExtends(t: Sys, e: Event, h: HostId)
    requires e.Edit? && h in t.hosts
    ensures h in Step(t, e).hosts && Extends(t.hosts[h].history, Step(t, e).hosts[h].history)
  {
    if e.host == h {
      LandExtends(t.hosts[h].history, Edited(Current(t.hosts[h].history), e.maintenance, e.hostClass, e.generation), Operator);
    }
  }

  lemma SettledExtends(t: Sys, id: CallId, g: HostId, o: Outcome, h: HostId)
    requires Settles(t, id, g, o) && h in t.hosts
    ensures h in Settled(t, id, g, o).hosts && Extends(t.hosts[h].history, Settled(t, id, g, o).hosts[h].history)
  {
    SettledShape(t, id, g, o);
  }

  lemma ObservedExtends(t: Sys, g: HostId, o: ProbeOutcome, h: HostId)
    requires g in t.hosts && h in t.hosts && ProbeGuarantee(t.hosts[g].history, o, t.clock)
    ensures h in Observed(t, g, o).hosts && Extends(t.hosts[h].history, Observed(t, g, o).hosts[h].history)
  {
    ObservedShape(t, g, o);
  }

  lemma CallExtends(t: Sys, id: CallId, ch: CallChoice, h: HostId)
    requires Inv(t) && h in t.hosts
    ensures h in CallStep(t, id, ch).hosts && Extends(t.hosts[h].history, CallStep(t, id, ch).hosts[h].history)
  {
    if id in t.calls {
      var c, target := t.calls[id], CallTarget(t.calls[id], ch);
      if target.Some? && target.value in t.hosts && !(c.Seeking? && ch.GiveUp?) {
        CallOutcomeSettles(t, id, ch, target.value);
        SettledExtends(t, id, target.value, CallOutcome(t.hosts[target.value].history, c, ch), h);
      }
    }
  }

  lemma ObserveExtends(t: Sys, g: HostId, ch: ProbeChoice, h: HostId)
    requires Inv(t) && h in t.hosts
    ensures h in Step(t, Observe(g, ch)).hosts
    ensures Extends(t.hosts[h].history, Step(t, Observe(g, ch)).hosts[h].history)
  {
    if g in t.hosts {
      ProbeStepOk(t.hosts[g].history, t.hosts[g].probe, ch, t.clock);
      ObservedExtends(t, g, ProbeStep(t.hosts[g].history, t.hosts[g].probe, ch, t.clock), h);
    }
  }

  /** Recorded probes of one generation are at least an interval apart. */
  lemma ProbesAreAlwaysSpaced(s: Sys, events: seq<Event>, h: HostId, i: nat, j: nat)
    requires Initial(s) && h in Run(s, events).hosts && i <= j < |Stored(s, events, h)|
    requires StatusAt(Stored(s, events, h), i).probedAt.Some?
    requires StatusAt(Stored(s, events, h), j).observedGeneration
          == StatusAt(Stored(s, events, h), i).observedGeneration
    ensures var a, b := StatusAt(Stored(s, events, h), i).probedAt, StatusAt(Stored(s, events, h), j).probedAt;
            b.Some? && (a == b || b.value - a.value >= PROBE_INTERVAL)
  {
    StoredIsLawful(s, events, h);
    ProbesAreSpaced(Stored(s, events, h), i, j);
  }

  ghost predicate Overlaps(t: Sys, h: HostId) {
    h in t.hosts && !AtMostOnePhase(t, h)
  }

  /** Current reads are needed for phases not to overlap.  Whenever another call's
      phase is running on the host, a teardown that reads any older version held
      by its own NodeClaim sends its leave into it. */
  lemma StaleTeardownOverlaps(t: Sys, h: HostId, other: CallId, id: CallId, nc: ClaimRef, i: nat)
    requires h in t.hosts && other in t.calls && CallPhaseOn(t.calls[other], h)
    requires id !in t.calls && i < |t.hosts[h].history|
    requires HeldBy(StatusAt(t.hosts[h].history, i), nc) && StatusAt(t.hosts[h].history, i).installed != ""
    ensures Overlaps(Step(Step(t, Open(id, nc, Teardown, h, i)), Proceed(id, Send)), h)
  {
    var u := Step(t, Open(id, nc, Teardown, h, i));
    var c := u.calls[id];
    assert c.pc == ToRun(Leave) && c.host == h && u.hosts == t.hosts;
    var v := Step(u, Proceed(id, Send));
    assert CallPhaseOn(v.calls[id], h) && v.calls[other] == t.calls[other];
  }
}
