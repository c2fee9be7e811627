/**
 What the probe stores is what it found: in every run, a host is opened by its
 reconciler only after a probe that met no kubelet or a leave that ended well, and
 every failure on the way is stored as Unhealthy, with its message.
 */
module ProbeOutcomes {
  import opened Options
  import opened Records
  import opened Ledger
  import opened Protocol
  import opened Invariant

  // ----- what a reconcile found -------------------------------------------------------------------

  /** An observation about the machine itself that the probe acts on. */
  predicate Finds(p: Probe, ch: ProbeChoice) {
    || (p.Probing? && (ch.ProbeFails? || ch.ProbeAnswers?))
    || (p.Guarding? && ch.NodeLookup?)
    || (p.Fenced? && ch.Unsent?)
    || (p.Expelling? && ch.Expelled?)
  }

  /** The latest of them on host `h` in a run, since the reconcile at work was started. */
  function LastFinding(s: Sys, events: seq<Event>, h: HostId): Option<ProbeChoice> {
    if events == [] then None
    else
      var before, e := events[..|events| - 1], events[|events| - 1];
      var t := Run(s, before);
      if h !in t.hosts || (e.Reconcile? && e.host == h && t.hosts[h].probe.Idle?) then None
      else if e.Observe? && e.host == h && Finds(t.hosts[h].probe, e.observation) then Some(e.observation)
      else LastFinding(s, before, h)
  }

  /** The host may be claimed: no kubelet runs on it, or the foreign one was driven out. */
  predicate Clears(f: Option<ProbeChoice>) {
    f.Some? && ((f.value.ProbeAnswers? && !f.value.kubelet) || (f.value.Expelled? && f.value.ok))
  }

  /** The host may not be claimed: it cannot be reached, it runs a kubelet nobody can
      account for, or leave was not sent or failed. */
  predicate Condemns(f: Option<ProbeChoice>) {
    && f.Some?
    && (f.value.ProbeFails? || (f.value.NodeLookup? && f.value.node == Some(false)) || f.value.Unsent?
        || (f.value.Expelled? && !f.value.ok))
  }

  function MessageOf(f: Option<ProbeChoice>): string
    requires Condemns(f)
  {
    match f.value
    case ProbeFails(m) => m
    case NodeLookup(_, m) => m
    case Unsent(m) => m
    case Expelled(_, m) => m
  }

  /** What is to be stored tells what was found. */
  predicate Reports(next: Status, f: Option<ProbeChoice>) {
    && (next.state == Available <==> Clears(f)) && (next.state == Unhealthy <==> Condemns(f))
    && (Clears(f) ==> next.probeError == "") && (Condemns(f) ==> next.probeError == MessageOf(f))
  }

  /** What each state of the probe says about the finding. */
  predicate ProbeTells(p: Probe, f: Option<ProbeChoice>) {
    match p
    case Idle => true
    case Checking(base) => f == None && InClaimedState(base.version.status)
    case Reaping(base) => f == None && InClaimedState(base.version.status)
    case Collecting(base) => f == None && InClaimedState(base.version.status)
    case Probing(base, _) => f == None && Switched(base.version).state != Maintenance
    case SavingFacts(base, next) =>
      && f.Some? && f.value.ProbeAnswers? && f.value.kubelet
      && (next.state == base.version.status.state || next.state == Pending)
    case Guarding(_) => f.Some? && f.value.ProbeAnswers? && f.value.kubelet
    case Fencing(_, _) => f.Some? && f.value.NodeLookup?
    case Fenced(_, _) => f.Some? && f.value.NodeLookup?
    case Expelling(_, _) => f.Some? && f.value.NodeLookup?
    case DroppingNode(_) => f.Some? && f.value.Expelled? && f.value.ok
    case Patching(_, next, _) => Reports(next, f)
  }

  // ----- one step ---------------------------------------------------------------------------------------

  lemma AfterReadTells(base: Copy, now: int)
    ensures ProbeTells(AfterRead(base, now), None)
  {}

  lemma StepTells(hist: History, p: Probe, ch: ProbeChoice, now: int, f: Option<ProbeChoice>)
    requires ProbeTells(p, f)
    ensures ProbeTells(ProbeStep(hist, p, ch, now).next, if Finds(p, ch) then Some(ch) else f)
  {
    if p.SavingFacts? || p.Fencing? || p.Patching? {
      WritingTells(hist, p, ch, now, f);
    }
  }

  lemma WritingTells(hist: History, p: Probe, ch: ProbeChoice, now: int, f: Option<ProbeChoice>)
    requires ProbeTells(p, f) && (p.SavingFacts? || p.Fencing? || p.Patching?)
    ensures ProbeTells(ProbeStep(hist, p, ch, now).next, f)
  {}

  // ----- every run ------------------------------------------------------------------------------------------

  /** Events that are neither a read nor an observation of the probe of `h` leave it alone. */
  lemma OthersLeaveProbe(t: Sys, e: Event, h: HostId)
    requires h in Step(t, e).hosts && !(e.Reconcile? && e.host == h) && !(e.Observe? && e.host == h)
    ensures h in t.hosts && Step(t, e).hosts[h].probe == t.hosts[h].probe
  {
    if e.Proceed? && e.id in t.calls && FreshMint(t, e.choice) && !(t.calls[e.id].Seeking? && e.choice.GiveUp?) {
      var target := CallTarget(t.calls[e.id], e.choice);
      if target.Some? && target.value in t.hosts {
        CallStepSettles(t, e.id, e.choice, target.value);
        SettledShape(t, e.id, target.value, CallOutcome(t.hosts[target.value].history, t.calls[e.id], e.choice));
      }
    } else if e.Observe? && e.host in t.hosts {
      ObservedShape(t, e.host, ProbeStep(t.hosts[e.host].history, t.hosts[e.host].probe, e.observation, t.clock));
    }
  }

  lemma ObserveIsAStep(t: Sys, h: HostId, ch: ProbeChoice)
    requires h in t.hosts
    ensures h in Step(t, Observe(h, ch)).hosts
    ensures var o := ProbeStep(t.hosts[h].history, t.hosts[h].probe, ch, t.clock);
            && Step(t, Observe(h, ch)).hosts[h].probe == o.next
            && Step(t, Observe(h, ch)).hosts[h].history == o.history
  {
    ObservedShape(t, h, ProbeStep(t.hosts[h].history, t.hosts[h].probe, ch, t.clock));
  }

  lemma {:induction false} RunTells(s: Sys, events: seq<Event>, h: HostId)
    requires Initial(s) && h in Run(s, events).hosts
    ensures ProbeTells(Run(s, events).hosts[h].probe, LastFinding(s, events, h))
    decreases |events|, 0
  {
    if events == [] {
      assert NewHost(s.hosts[h]);
    } else {
      var before, e := events[..|events| - 1], events[|events| - 1];
      EventTells(s, before, e, h);
      assert before + [e] == events;
    }
  }

  lemma {:induction false} EventTells(s: Sys, before: seq<Event>, e: Event, h: HostId)
    requires Initial(s) && h in Step(Run(s, before), e).hosts
    ensures ProbeTells(Step(Run(s, before), e).hosts[h].probe, LastFinding(s, before + [e], h))
    decreases |before|, 1
  {
    var t := Run(s, before);
    assert (before + [e])[..|before|] == before;
    if e.Reconcile? && e.host == h {
      AfterReadTells(Newest(t.hosts[h].history), t.clock);
      ReconcileTells(t, h, e.i);
      if !t.hosts[h].probe.Idle? { RunTells(s, before, h); }
    } else if e.Observe? && e.host == h {
      RunTells(s, before, h);
      ObserveIsAStep(t, h, e.observation);
      StepTells(t.hosts[h].history, t.hosts[h].probe, e.observation, t.clock, LastFinding(s, before, h));
    } else {
      OthersLeaveProbe(t, e, h);
      RunTells(s, before, h);
    }
  }

  lemma ReconcileTells(t: Sys, h: HostId, i: nat)
    requires h in t.hosts
    ensures var u := Step(t, Reconcile(h, i));
            && h in u.hosts
            && if t.hosts[h].probe.Idle? then ProbeTells(u.hosts[h].probe, None) else u.hosts[h].probe == t.hosts[h].probe
  {
    if i < |t.hosts[h].history| {
      AfterReadTells(Copy(i, t.hosts[h].history[i].version), t.clock);
    }
  }

  // ----- what is stored ----------------------------------------------------------------------------------------

  /** The write that ends a reconcile, when it lands, stores what was found. */
  lemma FindingsAreStored(s: Sys, events: seq<Event>, h: HostId, fate: Fate, facts: int)
    requires Initial(s) && h in Run(s, events).hosts && Run(s, events).hosts[h].probe.Patching?
    requires fate != LostBefore && Run(s, events).hosts[h].probe.base.rv == |Run(s, events).hosts[h].history| - 1
    ensures var u := Step(Run(s, events), Observe(h, Write(fate, facts)));
            h in u.hosts && Reports(Current(u.hosts[h].history).status, LastFinding(s, events, h))
  {
    RunInv(s, events);
    RunTells(s, events, h);
    ObserveIsAStep(Run(s, events), h, Write(fate, facts));
  }

  /** In every run, whatever the interleaving: the reconciler makes a host Available
      only after a probe that answered and met no kubelet, or after its own leave ended
      well; and Unhealthy only after a probe that failed, a kubelet that no Node and no
      marker accounts for, or a leave that was not sent or failed, with that message. */
  lemma OpenedOnlyWhenFound(s: Sys, events: seq<Event>, e: Event, h: HostId)
    requires Initial(s) && h in Run(s, events).hosts && h in Step(Run(s, events), e).hosts
    requires var hist, after := Run(s, events).hosts[h].history, Step(Run(s, events), e).hosts[h].history;
             Grew(hist, after) && after[|hist|].who == Prober
    ensures var was, now := Current(Run(s, events).hosts[h].history).status, Current(Step(Run(s, events), e).hosts[h].history).status;
            var f := LastFinding(s, events, h);
            && (now.state == Available && was.state != Available ==>
                  && f.Some? && (f.value.ProbeAnswers? || f.value.Expelled?)
                  && (f.value.ProbeAnswers? ==> !f.value.kubelet) && (f.value.Expelled? ==> f.value.ok)
                  && now.probeError == "")
            && (now.state == Unhealthy && was.state != Unhealthy ==> Condemns(f) && now.probeError == MessageOf(f))
  {
    var t := Run(s, events);
    RunInv(s, events);
    RunTells(s, events, h);
    ProberWritesInObserve(t, e, h);
    ObserveIsAStep(t, h, e.observation);
    WriteReports(t.hosts[h].history, t.hosts[h].probe, e.observation, t.clock, LastFinding(s, events, h));
  }

  lemma WriteReports(hist: History, p: Probe, ch: ProbeChoice, now: int, f: Option<ProbeChoice>)
    requires ProbeTells(p, f) && ProbeOk(hist, p, now) && Grew(hist, ProbeStep(hist, p, ch, now).history)
    ensures var was, next := Current(hist).status, Current(ProbeStep(hist, p, ch, now).history).status;
            || Reports(next, f)
            || next.state == Leaving || next.state == Pending || next.state == was.state
  {}

  /** Only the probe of a host writes as its prober. */
  lemma ProberWritesInObserve(t: Sys, e: Event, h: HostId)
    requires Inv(t) && h in t.hosts && h in Step(t, e).hosts
    requires var hist, after := t.hosts[h].history, Step(t, e).hosts[h].history; Grew(hist, after) && after[|hist|].who == Prober
    ensures e.Observe? && e.host == h
  {
    if e.Proceed? {
      CallWritesNotAsProber(t, e.id, e.choice, h);
    } else if e.Observe? && e.host in t.hosts {
      ObservedShape(t, e.host, ProbeStep(t.hosts[e.host].history, t.hosts[e.host].probe, e.observation, t.clock));
    }
  }

  lemma CallWritesNotAsProber(t: Sys, id: CallId, ch: CallChoice, h: HostId)
    requires Inv(t) && h in t.hosts && h in CallStep(t, id, ch).hosts
    ensures var hist, after := t.hosts[h].history, CallStep(t, id, ch).hosts[h].history;
            Grew(hist, after) ==> after[|hist|].who != Prober
  {
    if id in t.calls && FreshMint(t, ch) && !(t.calls[id].Seeking? && ch.GiveUp?) {
      var target := CallTarget(t.calls[id], ch);
      if target.Some? && target.value in t.hosts {
        var o := CallOutcome(t.hosts[target.value].history, t.calls[id], ch);
        CallOutcomeSettles(t, id, ch, target.value);
        CallStepSettles(t, id, ch, target.value);
        SettledWritesNotAsProber(t, id, target.value, o, h);
      }
    }
  }

  lemma SettledWritesNotAsProber(t: Sys, id: CallId, g: HostId, o: Outcome, h: HostId)
    requires Settles(t, id, g, o) && h in t.hosts
    ensures h in Settled(t, id, g, o).hosts
    ensures var hist, after := t.hosts[h].history, Settled(t, id, g, o).hosts[h].history;
            Grew(hist, after) ==> after[|hist|].who != Prober
  {
    SettledShape(t, id, g, o);
  }
}
