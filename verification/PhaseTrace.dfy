/**
 The trace of a host in orderly runs: phases do not overlap there either.  Every
 phase that began is ended before the next begins, and the one that has not ended is
 the one that a call, or the zombie guard, is running.
 */
module PhaseTrace {
  import opened Options
  import opened Records
  import opened Ledger
  import opened Protocol
  import opened Invariant
  import opened Orderly

  /** Where a trace stands: between phases, inside one, or no proper bracketing. */
  datatype Scan = Between | Inside(phase: Phase) | Broken

  function Scanned(phases: seq<PhaseEvent>): Scan {
    if phases == [] then Between
    else
      var scan := Scanned(phases[..|phases| - 1]);
      match phases[|phases| - 1]
      case Began(p) => if scan == Between then Inside(p) else Broken
      case Ended(p, _) => if scan == Inside(p) then Between else Broken
  }

  /** Phase `p` is running on the host, for a call or for the guard. */
  ghost predicate Runs(s: Sys, h: HostId, p: Phase)
    requires h in s.hosts
  {
    || (exists id <- s.calls :: CallPhaseOn(s.calls[id], h) && s.calls[id].pc.phase == p)
    || (s.hosts[h].probe.Expelling? && p == Leave)
  }

  /** The trace says what is running. */
  ghost predicate Traces(s: Sys, h: HostId)
    requires h in s.hosts
  {
    && Scanned(s.hosts[h].phases) != Broken
    && forall p :: Runs(s, h, p) <==> Scanned(s.hosts[h].phases) == Inside(p)
  }

  function PhaseOf(c: Option<Call>, h: HostId): Option<Phase> {
    if c.Some? && CallPhaseOn(c.value, h) then Some(c.value.pc.phase) else None
  }

  /** An effect begins what was not running, ends what was, or changes nothing. */
  predicate Moves(e: Effect, before: Option<Phase>, after: Option<Phase>) {
    if e.Phased? then
      match e.event
      case Began(p) => before == None && after == Some(p)
      case Ended(p, _) => before == Some(p) && after == None
    else before == after
  }

  lemma ScannedAppend(phases: seq<PhaseEvent>, e: PhaseEvent)
    ensures Scanned(phases + [e])
         == match e
            case Began(p) => if Scanned(phases) == Between then Inside(p) else Broken
            case Ended(p, _) => if Scanned(phases) == Inside(p) then Between else Broken
  {
    assert (phases + [e])[..|phases|] == phases;
  }

  // ----- one actor moves ------------------------------------------------------------------------------

  /** Of the actors on `h` only call `id` changed. */
  ghost predicate OnlyCallMoved(t: Sys, u: Sys, h: HostId, id: CallId) {
    && h in t.hosts && h in u.hosts && u.hosts[h].probe == t.hosts[h].probe
    && forall i :: i != id ==> (i in u.calls <==> i in t.calls) && (i in t.calls ==> u.calls[i] == t.calls[i])
  }

  function CallAt(s: Sys, id: CallId): Option<Call> {
    if id in s.calls then Some(s.calls[id]) else None
  }

  lemma CallMoves(t: Sys, u: Sys, h: HostId, id: CallId, e: Effect)
    requires OnlyCallMoved(t, u, h, id) && Traces(t, h) && AtMostOnePhase(t, h) && AtMostOnePhase(u, h)
    requires Moves(e, PhaseOf(CallAt(t, id), h), PhaseOf(CallAt(u, id), h))
    requires u.hosts[h].phases == Traced(t.hosts[h].phases, e)
    ensures Traces(u, h)
  {
    var phases := t.hosts[h].phases;
    if e.Phased? {
      ScannedAppend(phases, e.event);
      if e.event.Began? {
        BeganAlone(t, u, h, id, e.event.phase);
      } else {
        assert CallPhaseOn(t.calls[id], h) && Runs(t, h, e.event.phase);
        EndedAlone(t, u, h, id);
      }
    } else {
      forall p ensures Runs(u, h, p) <==> Runs(t, h, p) {
        SameCallRuns(t, u, h, id, p);
      }
    }
  }

  lemma SameCallRuns(t: Sys, u: Sys, h: HostId, id: CallId, p: Phase)
    requires OnlyCallMoved(t, u, h, id) && PhaseOf(CallAt(t, id), h) == PhaseOf(CallAt(u, id), h)
    ensures Runs(u, h, p) <==> Runs(t, h, p)
  {
    forall i <- t.calls | CallPhaseOn(t.calls[i], h) ensures i in u.calls && CallPhaseOn(u.calls[i], h) && u.calls[i].pc.phase == t.calls[i].pc.phase {
      assert i != id ==> u.calls[i] == t.calls[i];
    }
    forall i <- u.calls | CallPhaseOn(u.calls[i], h) ensures i in t.calls && CallPhaseOn(t.calls[i], h) && u.calls[i].pc.phase == t.calls[i].pc.phase {
      assert i != id ==> u.calls[i] == t.calls[i];
    }
  }

  lemma BeganAlone(t: Sys, u: Sys, h: HostId, id: CallId, p: Phase)
    requires OnlyCallMoved(t, u, h, id) && Traces(t, h) && AtMostOnePhase(u, h)
    requires PhaseOf(CallAt(t, id), h) == None && PhaseOf(CallAt(u, id), h) == Some(p)
    ensures Scanned(t.hosts[h].phases) == Between && forall q :: Runs(u, h, q) <==> q == p
  {
    assert CallPhaseOn(u.calls[id], h);
    forall i <- t.calls ensures !CallPhaseOn(t.calls[i], h) {
      assert i != id ==> u.calls[i] == t.calls[i];
    }
    assert forall q :: !Runs(t, h, q);
  }

  lemma EndedAlone(t: Sys, u: Sys, h: HostId, id: CallId)
    requires OnlyCallMoved(t, u, h, id) && AtMostOnePhase(t, h)
    requires PhaseOf(CallAt(t, id), h).Some? && PhaseOf(CallAt(u, id), h) == None
    ensures forall q :: !Runs(u, h, q)
  {
    assert CallPhaseOn(t.calls[id], h);
    forall i <- u.calls ensures !CallPhaseOn(u.calls[i], h) {
      assert i != id ==> u.calls[i] == t.calls[i];
    }
  }

  // ----- calls -------------------------------------------------------------------------------------------

  lemma LocalMovesPhase(c: Call, ch: CallChoice)
    requires c.Holding?
    ensures var m := LocalMove(c, ch); Moves(m.effect, PhaseOf(Some(c), c.host), PhaseOf(m.next, c.host))
  {}

  lemma SettingMovesPhase(hist: History, c: Call, fate: Fate, reread: Option<nat>)
    requires c.Holding? && c.pc.Setting?
    ensures PhaseOf(SettingStep(hist, c, fate, reread).next, c.host) == None
  {}

  lemma OutcomeMovesPhase(hist: History, c: Call, ch: CallChoice, h: HostId)
    requires CallTarget(c, ch) == Some(h)
    ensures var o := CallOutcome(hist, c, ch); Moves(o.effect, PhaseOf(Some(c), h), PhaseOf(o.next, h))
  {
    if c.Holding? {
      if c.pc.Setting? && ch.Attempt? {
        SettingMovesPhase(hist, c, ch.fate, ch.reread);
      } else {
        LocalMovesPhase(c, ch);
      }
    }
  }

  /** A call that works on `g` has no phase on another host. */
  lemma ElsewhereNothingMoves(t: Sys, id: CallId, g: HostId, o: Outcome, h: HostId)
    requires Settles(t, id, g, o) && h in t.hosts && h != g
    ensures var u := Settled(t, id, g, o);
            && OnlyCallMoved(t, u, h, id) && u.hosts[h].phases == t.hosts[h].phases
            && PhaseOf(CallAt(t, id), h) == None && PhaseOf(CallAt(u, id), h) == None
  {
    SettledShape(t, id, g, o);
    SettledCalls(t, id, g, o);
  }

  lemma SettledCalls(t: Sys, id: CallId, g: HostId, o: Outcome)
    requires g in t.hosts
    ensures var u := Settled(t, id, g, o);
            && CallAt(u, id) == o.next
            && forall i :: i != id ==> (i in u.calls <==> i in t.calls) && (i in t.calls ==> u.calls[i] == t.calls[i])
  {}

  lemma CallStepTraces(t: Sys, id: CallId, ch: CallChoice, h: HostId)
    requires Inv(t) && h in t.hosts && Traces(t, h) && h in CallStep(t, id, ch).hosts
    requires AtMostOnePhase(t, h) && AtMostOnePhase(CallStep(t, id, ch), h)
    ensures Traces(CallStep(t, id, ch), h)
  {
    if id in t.calls {
      var target := CallTarget(t.calls[id], ch);
      if target.Some? && Works(t, id, ch, target.value) {
        WorkTraces(t, id, ch, target.value, h);
      } else {
        IdleTraces(t, id, ch, h);
      }
    }
  }

  lemma WorkTraces(t: Sys, id: CallId, ch: CallChoice, g: HostId, h: HostId)
    requires Inv(t) && Works(t, id, ch, g) && h in t.hosts && Traces(t, h) && h in CallStep(t, id, ch).hosts
    requires AtMostOnePhase(t, h) && AtMostOnePhase(CallStep(t, id, ch), h)
    ensures Traces(CallStep(t, id, ch), h)
  {
    var o := CallOutcome(t.hosts[g].history, t.calls[id], ch);
    var u := Settled(t, id, g, o);
    CallStepSettles(t, id, ch, g);
    CallOutcomeSettles(t, id, ch, g);
    if h == g {
      OutcomeMovesPhase(t.hosts[g].history, t.calls[id], ch, g);
      SettledShape(t, id, g, o);
      SettledCalls(t, id, g, o);
      CallMoves(t, u, h, id, o.effect);
    } else {
      ElsewhereNothingMoves(t, id, g, o, h);
      CallMoves(t, u, h, id, Quiet);
    }
  }

  lemma IdleTraces(t: Sys, id: CallId, ch: CallChoice, h: HostId)
    requires Inv(t) && id in t.calls && h in t.hosts && Traces(t, h) && AtMostOnePhase(t, h)
    requires var target := CallTarget(t.calls[id], ch); target.Some? ==> !Works(t, id, ch, target.value)
    ensures h in CallStep(t, id, ch).hosts && (AtMostOnePhase(CallStep(t, id, ch), h) ==> Traces(CallStep(t, id, ch), h))
  {
    var u := CallStep(t, id, ch);
    assert u == t || (t.calls[id].Seeking? && u == WithCall(t, id, None));
    if u != t && AtMostOnePhase(u, h) {
      CallMoves(t, u, h, id, Quiet);
    }
  }

  // ----- the probe -----------------------------------------------------------------------------------------

  function GuardPhase(p: Probe): Option<Phase> {
    if p.Expelling? then Some(Leave) else None
  }

  lemma ProbeMovesPhase(hist: History, p: Probe, ch: ProbeChoice, now: int)
    ensures var o := ProbeStep(hist, p, ch, now); Moves(o.effect, GuardPhase(p), GuardPhase(o.next))
  {}

  /** Of the actors on `h` only the probe changed. */
  lemma GuardMoves(t: Sys, u: Sys, h: HostId, e: Effect)
    requires h in t.hosts && h in u.hosts && u.calls == t.calls && Traces(t, h) && AtMostOnePhase(t, h) && AtMostOnePhase(u, h)
    requires Moves(e, GuardPhase(t.hosts[h].probe), GuardPhase(u.hosts[h].probe))
    requires u.hosts[h].phases == Traced(t.hosts[h].phases, e)
    ensures Traces(u, h)
  {
    if e.Phased? {
      ScannedAppend(t.hosts[h].phases, e.event);
      assert forall i <- t.calls :: !CallPhaseOn(t.calls[i], h);
      assert e.event.Began? ==> forall q :: !Runs(t, h, q);
      assert e.event.Ended? ==> Runs(t, h, e.event.phase);
    } else {
      assert forall p :: Runs(u, h, p) <==> Runs(t, h, p);
    }
  }

  lemma ObserveTraces(t: Sys, g: HostId, ch: ProbeChoice, h: HostId)
    requires h in t.hosts && Traces(t, h) && h in Step(t, Observe(g, ch)).hosts
    requires AtMostOnePhase(t, h) && AtMostOnePhase(Step(t, Observe(g, ch)), h)
    ensures Traces(Step(t, Observe(g, ch)), h)
  {
    if g in t.hosts {
      var o := ProbeStep(t.hosts[g].history, t.hosts[g].probe, ch, t.clock);
      ProbeMovesPhase(t.hosts[g].history, t.hosts[g].probe, ch, t.clock);
      ObservedShape(t, g, o);
      GuardMoves(t, Observed(t, g, o), h, if g == h then o.effect else Quiet);
    }
  }

  lemma ReconcileTraces(t: Sys, g: HostId, i: nat, h: HostId)
    requires h in t.hosts && Traces(t, h) && h in Step(t, Reconcile(g, i)).hosts
    requires AtMostOnePhase(t, h) && AtMostOnePhase(Step(t, Reconcile(g, i)), h)
    ensures Traces(Step(t, Reconcile(g, i)), h)
  {
    GuardMoves(t, Step(t, Reconcile(g, i)), h, Quiet);
  }

  // ----- every orderly run ----------------------------------------------------------------------------------

  lemma OpenTraces(t: Sys, e: Event, h: HostId)
    requires (e.Open? || e.SeekHost?) && h in t.hosts && Traces(t, h) && h in Step(t, e).hosts
    requires AtMostOnePhase(t, h) && AtMostOnePhase(Step(t, e), h)
    ensures Traces(Step(t, e), h)
  {
    var u := Step(t, e);
    if e.id !in t.calls {
      CallMoves(t, u, h, e.id, Quiet);
    }
  }

  /** Events that start, end and run nothing. */
  lemma OutsideTraces(t: Sys, e: Event, h: HostId)
    requires (e.Tick? || e.ClaimBorn? || e.ClaimGone? || e.Edit?) && h in t.hosts && Traces(t, h) && h in Step(t, e).hosts
    ensures Traces(Step(t, e), h)
  {
    var u := Step(t, e);
    assert u.calls == t.calls && u.hosts[h].probe == t.hosts[h].probe && u.hosts[h].phases == t.hosts[h].phases;
    assert forall p :: Runs(u, h, p) <==> Runs(t, h, p);
  }

  lemma StepTraces(t: Sys, e: Event, h: HostId)
    requires Inv(t) && h in t.hosts && Traces(t, h) && h in Step(t, e).hosts
    requires AtMostOnePhase(t, h) && AtMostOnePhase(Step(t, e), h)
    ensures Traces(Step(t, e), h)
  {
    match e
    case Proceed(id, ch) => CallStepTraces(t, id, ch, h);
    case Observe(g, ch) => ObserveTraces(t, g, ch, h);
    case Reconcile(g, i) => ReconcileTraces(t, g, i, h);
    case SeekHost(_, _) => OpenTraces(t, e, h);
    case Open(_, _, _, _, _) => OpenTraces(t, e, h);
    case _ => OutsideTraces(t, e, h);
  }

  /** In every orderly run the trace of a host is properly bracketed, and the phase it is
      inside of, if any, is exactly the one that is running there. */
  lemma {:induction false} PhasesAreBracketed(s: Sys, events: seq<Event>, h: HostId)
    requires Initial(s) && OrderlyRun(s, events) && h in Run(s, events).hosts
    ensures Scanned(Run(s, events).hosts[h].phases) != Broken
    ensures forall p :: Runs(Run(s, events), h, p) <==> Scanned(Run(s, events).hosts[h].phases) == Inside(p)
  {
    if events == [] {
      assert NewHost(s.hosts[h]);
    } else {
      var before, e := events[..|events| - 1], events[|events| - 1];
      assert forall k :: 0 <= k < |before| ==> before[..k] == events[..k];
      HostsStay(Run(s, before), e, h);
      PhasesAreBracketed(s, before, h);
      PhasesNeverOverlap(s, before, h);
      PhasesNeverOverlap(s, events, h);
      RunInv(s, before);
      StepTraces(Run(s, before), e, h);
    }
  }

  lemma HostsStay(t: Sys, e: Event, h: HostId)
    requires h in Step(t, e).hosts
    ensures h in t.hosts
  {}
}
