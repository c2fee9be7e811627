/**
 No join, leave or reboot is ever executed on a host before some install
 succeeded on it: in every run from an empty install marker, for every stale
 read, lost response and interleaving.
 */
module InstallFirst {
  import opened Options
  import opened Records
  import opened Ledger
  import opened Protocol
  import opened Invariant

  ghost predicate InstallDone(phases: seq<PhaseEvent>) {
    Ended(Install, true) in phases
  }

  /** Every phase but install began after a successful install. */
  ghost predicate InstallLed(phases: seq<PhaseEvent>) {
    forall i :: 0 <= i < |phases| && phases[i].Began? && phases[i].phase != Install
      ==> InstallDone(phases[..i])
  }

  /** Program points only reached once an install is known to have succeeded. */
  predicate PastInstall(pc: Pc) {
    match pc
    case ToRun(p) => p != Install
    case Running(p) => p != Install
    case Setting(f, _, _) => f == Marker || f == TokenId
    case Minting => true
    case Minted => true
    case _ => false
  }

  /** The call knows of an install: from the marker it read, or its own. */
  predicate CallInstalled(c: Call) {
    c.Holding? && (c.copy.version.status.installed != "" || PastInstall(c.pc))
  }

  ghost predicate NoMarker(hist: History) {
    forall i :: 0 <= i < |hist| ==> StatusAt(hist, i).installed == ""
  }

  ghost predicate HostInstall(host: Host) {
    InstallLed(host.phases) && (!InstallDone(host.phases) ==> NoMarker(host.history))
  }

  ghost predicate CallInstall(s: Sys, c: Call) {
    CallInstalled(c) ==> c.host in s.hosts && InstallDone(s.hosts[c.host].phases)
  }

  ghost predicate InstallInv(s: Sys) {
    && (forall h <- s.hosts :: HostInstall(s.hosts[h]))
    && (forall id <- s.calls :: CallInstall(s, s.calls[id]))
  }

  // ----- one step ---------------------------------------------------------------------------

  /** What a step may do while no install has succeeded: run an install, and
      nothing else; write no marker; learn of none. */
  ghost predicate Uninstalled(hist: History, after: History, effect: Effect, next: Option<Call>) {
    && (NoMarker(hist) ==> NoMarker(after))
    && (effect.Phased? && effect.event.Began? ==> effect.event.phase == Install)
    && (next.Some? && CallInstalled(next.value) ==> effect.Phased? && effect.event == Ended(Install, true))
  }

  lemma LandNoMarker(hist: History, v: Version, who: Writer)
    requires NoMarker(hist) && v.status.installed == ""
    ensures NoMarker(Land(hist, v, who))
  {
    var after := Land(hist, v, who);
    forall i | 0 <= i < |after| ensures StatusAt(after, i).installed == "" {
      if i < |hist| {
        assert StatusAt(after, i) == StatusAt(hist, i);
      }
    }
  }

  lemma PatchNoMarker(hist: History, base: Copy, edited: Status, who: Writer, fate: Fate)
    requires NoMarker(hist) && edited.installed == base.version.status.installed
    ensures NoMarker(Patched(hist, base, edited, who, fate).0)
    ensures NoMarker(hist) ==> Current(Patched(hist, base, edited, who, fate).0).status.installed == ""
  {
    assert StatusAt(hist, |hist| - 1).installed == "";
    var v := Current(hist);
    LandNoMarker(hist, v.(status := Merged(base.version.status, edited, v.status)), who);
    var after := Patched(hist, base, edited, who, fate).0;
    assert StatusAt(after, |after| - 1).installed == "";
  }

  lemma LocalUninstalled(hist: History, c: Call, ch: CallChoice)
    requires c.Holding? && !CallInstalled(c)
    ensures var m := LocalMove(c, ch); Uninstalled(hist, hist, m.effect, m.next)
  {}

  lemma AttemptUninstalled(c: Call, after: History, reply: Reply, reread: Option<nat>)
    requires c.Holding? && c.pc.Setting? && !CallInstalled(c) && NoMarker(after)
    ensures var next := AfterAttempt(c, after, reply, reread);
            next.Some? ==> !CallInstalled(next.value)
  {
    assert StatusAt(after, |after| - 1).installed == "";
    assert reread.Some? && reread.value < |after| ==> StatusAt(after, reread.value).installed == "";
  }

  lemma HoldingUninstalled(hist: History, c: Call, ch: CallChoice)
    requires c.Holding? && !CallInstalled(c) && NoMarker(hist)
    ensures var o := HoldingStep(hist, c, ch); Uninstalled(hist, o.history, o.effect, o.next)
  {
    var s := c.copy.version.status;
    if c.pc.Setting? && ch.Attempt? {
      var edited := Mutated(c, c.pc.field, s);
      PatchNoMarker(hist, c.copy, edited, Setter(c.nc), ch.fate);
      var (after, reply) := Patched(hist, c.copy, edited, Setter(c.nc), ch.fate);
      AttemptUninstalled(c, after, reply, ch.reread);
    } else if c.pc.Releasing? && ch.Release? {
      PatchNoMarker(hist, c.copy, Released(s, c.pc.healthy, ch.reason), Releaser(c.nc), ch.fate);
    } else {
      LocalUninstalled(hist, c, ch);
    }
  }

  lemma SeekingUninstalled(hist: History, c: Call, ch: CallChoice)
    requires c.Seeking? && ch.Pick? && NoMarker(hist)
    ensures var o := SeekingStep(hist, c, ch); Uninstalled(hist, o.history, o.effect, o.next)
  {
    if ch.i < |hist| {
      assert StatusAt(hist, ch.i).installed == "";
      var v := Current(hist);
      LandNoMarker(hist, v.(status := ClaimedBy(StatusAt(hist, ch.i), c.nc)), Claimer(c.nc, ch.hostClass));
    }
  }

  lemma ProbeUninstalled(hist: History, p: Probe, ch: ProbeChoice, now: int)
    requires LawfulHistory(hist) && ProbeOk(hist, p, now) && NoMarker(hist)
    ensures var o := ProbeStep(hist, p, ch, now); Uninstalled(hist, o.history, o.effect, None)
  {
    if !p.Idle? {
      assert StatusAt(hist, p.base.rv).installed == "";
      if ch.Write? && (p.SavingFacts? || p.Fencing? || p.Patching?) {
        var edited :=
          if p.SavingFacts? then p.next
          else if p.Fencing? then p.base.version.status.(state := Leaving)
          else p.next.(facts := ch.facts);
        PatchNoMarker(hist, p.base, edited, Prober, ch.fate);
      }
    }
  }

  // ----- the whole system -------------------------------------------------------------------------

  /** Installs stay done, and what began after one did. */
  lemma TraceGrows(phases: seq<PhaseEvent>, e: Effect)
    requires InstallLed(phases)
    requires e.Phased? && e.event.Began? && e.event.phase != Install ==> InstallDone(phases)
    ensures InstallLed(Traced(phases, e))
    ensures InstallDone(phases) ==> InstallDone(Traced(phases, e))
    ensures e.Phased? && e.event == Ended(Install, true) ==> InstallDone(Traced(phases, e))
  {
    var after := Traced(phases, e);
    forall i | 0 <= i < |after| && after[i].Began? && after[i].phase != Install
      ensures InstallDone(after[..i])
    {
      assert after[..i] == phases[..i];
      if i == |phases| {
        assert phases[..i] == phases;
      }
    }
  }

  /** One actor moved on host `h`; `next` is the call that moved, if one did. */
  lemma HostInstallStep(s: Sys, t: Sys, h: HostId, e: Effect, next: Option<Call>)
    requires InstallInv(s) && h in s.hosts && t.hosts.Keys == s.hosts.Keys
    requires forall g <- s.hosts | g != h :: t.hosts[g] == s.hosts[g]
    requires t.hosts[h].phases == Traced(s.hosts[h].phases, e)
    requires !InstallDone(s.hosts[h].phases) ==>
               Uninstalled(s.hosts[h].history, t.hosts[h].history, e, next)
    requires next.Some? && CallInstalled(next.value) ==> next.value.host == h
    requires forall id <- t.calls :: (id in s.calls && t.calls[id] == s.calls[id]) || next == Some(t.calls[id])
    ensures InstallInv(t)
  {
    assert HostInstall(s.hosts[h]);
    TraceGrows(s.hosts[h].phases, e);
    forall g <- t.hosts ensures HostInstall(t.hosts[g]) {
      assert HostInstall(s.hosts[g]);
    }
    forall id <- t.calls ensures CallInstall(t, t.calls[id]) {
      if id in s.calls && t.calls[id] == s.calls[id] {
        assert CallInstall(s, s.calls[id]);
      }
    }
  }

  lemma SettledInstall(s: Sys, id: CallId, h: HostId, o: Outcome)
    requires InstallInv(s) && Settles(s, id, h, o)
    requires !InstallDone(s.hosts[h].phases) ==> Uninstalled(s.hosts[h].history, o.history, o.effect, o.next)
    ensures InstallInv(Settled(s, id, h, o))
  {
    SettledShape(s, id, h, o);
    HostInstallStep(s, Settled(s, id, h, o), h, o.effect, o.next);
  }

  lemma CallUninstalled(s: Sys, id: CallId, ch: CallChoice, h: HostId)
    requires InstallInv(s) && id in s.calls && h in s.hosts && CallTarget(s.calls[id], ch) == Some(h)
    requires !InstallDone(s.hosts[h].phases)
    ensures var hist := s.hosts[h].history;
            var o := CallOutcome(hist, s.calls[id], ch);
            Uninstalled(hist, o.history, o.effect, o.next)
  {
    var c, hist := s.calls[id], s.hosts[h].history;
    assert CallInstall(s, c) && HostInstall(s.hosts[h]);
    if c.Holding? { HoldingUninstalled(hist, c, ch); } else { SeekingUninstalled(hist, c, ch); }
  }

  lemma CallStepInstall(s: Sys, id: CallId, ch: CallChoice)
    requires Inv(s) && InstallInv(s)
    ensures InstallInv(CallStep(s, id, ch))
  {
    if id in s.calls {
      var target := CallTarget(s.calls[id], ch);
      if s.calls[id].Seeking? && ch.GiveUp? {
        OpenedInstall(s, id, None);
      } else if target.Some? && target.value in s.hosts {
        CallOutcomeSettles(s, id, ch, target.value);
        if !InstallDone(s.hosts[target.value].phases) {
          CallUninstalled(s, id, ch, target.value);
        }
        SettledInstall(s, id, target.value, CallOutcome(s.hosts[target.value].history, s.calls[id], ch));
      }
    }
  }

  lemma OpenedInstall(s: Sys, id: CallId, next: Option<Call>)
    requires InstallInv(s) && (next.Some? ==> CallInstall(s, next.value))
    ensures InstallInv(WithCall(s, id, next))
  {
    var t := WithCall(s, id, next);
    forall i <- t.calls ensures CallInstall(t, t.calls[i]) {
      if i in s.calls {
        assert CallInstall(s, s.calls[i]);
      }
    }
  }

  lemma ReadKnowsInstall(s: Sys, nc: ClaimRef, kind: Kind, h: HostId, i: nat)
    requires InstallInv(s) && h in s.hosts && i < |s.hosts[h].history|
    ensures var next := Opened(nc, kind, h, Copy(i, s.hosts[h].history[i].version));
            next.Some? ==> CallInstall(s, next.value)
  {
    assert HostInstall(s.hosts[h]);
    assert NoMarker(s.hosts[h].history) ==> StatusAt(s.hosts[h].history, i).installed == "";
  }

  lemma ObservedInstall(s: Sys, h: HostId, o: ProbeOutcome)
    requires InstallInv(s) && h in s.hosts
    requires !InstallDone(s.hosts[h].phases) ==> Uninstalled(s.hosts[h].history, o.history, o.effect, None)
    ensures InstallInv(Observed(s, h, o))
  {
    ObservedShape(s, h, o);
    HostInstallStep(s, Observed(s, h, o), h, o.effect, None);
  }

  lemma ObserveInstall(s: Sys, h: HostId, ch: ProbeChoice)
    requires Inv(s) && InstallInv(s) && h in s.hosts
    ensures InstallInv(Step(s, Observe(h, ch)))
  {
    var host := s.hosts[h];
    assert HostInstall(host);
    if !InstallDone(host.phases) {
      ProbeUninstalled(host.history, host.probe, ch, s.clock);
    }
    ObservedInstall(s, h, ProbeStep(host.history, host.probe, ch, s.clock));
  }

  /** Events that run no phase and write no marker. */
  lemma QuietInstall(s: Sys, t: Sys)
    requires InstallInv(s) && t.calls == s.calls && t.hosts.Keys == s.hosts.Keys
    requires forall h <- s.hosts ::
               && t.hosts[h].phases == s.hosts[h].phases
               && (NoMarker(s.hosts[h].history) ==> NoMarker(t.hosts[h].history))
    ensures InstallInv(t)
  {
    forall h <- t.hosts ensures HostInstall(t.hosts[h]) {
      assert HostInstall(s.hosts[h]);
    }
    forall id <- t.calls ensures CallInstall(t, t.calls[id]) {
      assert CallInstall(s, s.calls[id]);
    }
  }

  lemma EditInstall(s: Sys, e: Event)
    requires InstallInv(s) && e.Edit? && e.host in s.hosts
    ensures InstallInv(Step(s, e))
  {
    var hist := s.hosts[e.host].history;
    if NoMarker(hist) {
      assert StatusAt(hist, |hist| - 1).installed == "";
      LandNoMarker(hist, Edited(Current(hist), e.maintenance, e.hostClass, e.generation), Operator);
    }
    QuietInstall(s, Step(s, e));
  }

  lemma OpenInstall(s: Sys, e: Event)
    requires Inv(s) && InstallInv(s) && e.Open?
    ensures InstallInv(Step(s, e))
  {
    if e.host in s.hosts && e.i < |s.hosts[e.host].history| {
      ReadKnowsInstall(s, e.nc, e.kind, e.host, e.i);
      OpenedInstall(s, e.id, Opened(e.nc, e.kind, e.host, Copy(e.i, s.hosts[e.host].history[e.i].version)));
    }
  }

  /** Events that neither write nor move a call. */
  lemma RestInstall(s: Sys, e: Event)
    requires InstallInv(s) && (e.Tick? || e.ClaimBorn? || e.ClaimGone? || e.Reconcile?)
    ensures InstallInv(Step(s, e))
  {
    QuietInstall(s, Step(s, e));
  }

  lemma StepInstall(s: Sys, e: Event)
    requires Inv(s) && InstallInv(s)
    ensures InstallInv(Step(s, e))
  {
    match e
    case Edit(h, _, _, _) => if h in s.hosts { EditInstall(s, e); }
    case SeekHost(id, nc) => OpenedInstall(s, id, Some(Seeking(nc)));
    case Open(_, _, _, _, _) => OpenInstall(s, e);
    case Proceed(id, ch) => CallStepInstall(s, id, ch);
    case Observe(h, ch) => if h in s.hosts { ObserveInstall(s, h, ch); }
    case _ => RestInstall(s, e);
  }

  lemma {:induction false} RunInstall(s: Sys, events: seq<Event>)
    requires Initial(s)
    ensures InstallInv(Run(s, events))
  {
    if events == [] {
      forall h <- s.hosts ensures HostInstall(s.hosts[h]) {
        assert NewHost(s.hosts[h]);
      }
    } else {
      RunInstall(s, events[..|events| - 1]);
      RunInv(s, events[..|events| - 1]);
      StepInstall(Run(s, events[..|events| - 1]), events[|events| - 1]);
    }
  }

  /** The theorem, on the trace of phases executed on a host. */
  lemma InstallComesFirst(s: Sys, events: seq<Event>, h: HostId, i: nat)
    requires Initial(s) && h in Run(s, events).hosts
    requires var phases := Run(s, events).hosts[h].phases;
             i < |phases| && phases[i].Began? && phases[i].phase != Install
    ensures exists j :: 0 <= j < i && Run(s, events).hosts[h].phases[j] == Ended(Install, true)
  {
    RunInstall(s, events);
    var phases := Run(s, events).hosts[h].phases;
    assert HostInstall(Run(s, events).hosts[h]);
    assert Ended(Install, true) in phases[..i];
    var j :| 0 <= j < i && phases[..i][j] == Ended(Install, true);
    assert phases[j] == Ended(Install, true);
  }
}
