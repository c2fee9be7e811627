/**
 Runs in which every write is either accepted or refused as a conflict: no
 response is lost.  Then a copy that could still win a swap is exactly the stored
 record, a release forgets the token id together with the claim, and a token id
 is stored only under a claim, whatever the interleaving and however stale the
 reads.
 */
module AnsweredRuns {
  import opened Options
  import opened Records
  import opened Ledger
  import opened Protocol
  import opened Invariant

  predicate AnsweredChoice(ch: CallChoice) {
    match ch
    case Pick(_, _, _, fate) => fate == Delivered
    case Attempt(fate, _) => fate == Delivered
    case Release(fate, _) => fate == Delivered
    case _ => true
  }

  predicate Answered(e: Event) {
    match e
    case Proceed(_, ch) => AnsweredChoice(ch)
    case Observe(_, Write(fate, _)) => fate == Delivered
    case _ => true
  }

  ghost predicate TokensClaimed(hist: History) {
    forall i :: 0 <= i < |hist| && StatusAt(hist, i).token != "" ==> StatusAt(hist, i).claim.Some?
  }

  /** A copy of the newest version is that version. */
  predicate Clean(hist: History, c: Call) {
    c.Holding? && c.copy.rv == |hist| - 1 ==> c.copy.version.status == Current(hist).status
  }

  ghost predicate CallClean(s: Sys, c: Call) {
    c.Holding? ==> c.host in s.hosts && Clean(s.hosts[c.host].history, c)
  }

  ghost predicate AnsweredInv(s: Sys) {
    && (forall h <- s.hosts :: TokensClaimed(s.hosts[h].history))
    && (forall id <- s.calls :: CallClean(s, s.calls[id]))
  }

  // ----- one step ------------------------------------------------------------------------------

  lemma LandClaimed(hist: History, v: Version, who: Writer)
    requires TokensClaimed(hist) && (v.status.token != "" ==> v.status.claim.Some?)
    ensures TokensClaimed(Land(hist, v, who))
  {
    var after := Land(hist, v, who);
    forall i | 0 <= i < |after| && StatusAt(after, i).token != "" ensures StatusAt(after, i).claim.Some? {
      if i < |hist| {
        assert StatusAt(after, i) == StatusAt(hist, i);
      }
    }
  }

  lemma AttemptClean(hist: History, c: Call, reply: Reply, reread: Option<nat>)
    requires c.Holding? && c.pc.Setting? && c.copy.rv < |hist|
    requires reply == Accepted || (reply == Conflicted && c.copy.rv != |hist| - 1)
    ensures var next := AfterAttempt(c, hist, reply, reread); next.Some? ==> Clean(hist, next.value)
  {}

  lemma SettingAnswered(hist: History, c: Call, reread: Option<nat>)
    requires c.Holding? && c.pc.Setting? && CallOk(hist, c) && Clean(hist, c) && TokensClaimed(hist)
    ensures var o := SettingStep(hist, c, Delivered, reread);
            TokensClaimed(o.history) && (o.next.Some? ==> Clean(o.history, o.next.value))
  {
    var edited := Mutated(c, c.pc.field, c.copy.version.status);
    var (after, reply) := Patched(hist, c.copy, edited, Setter(c.nc), Delivered);
    if reply == Accepted {
      LandClaimed(hist, Current(hist).(status := edited), Setter(c.nc));
    }
    AttemptClean(after, c, reply, reread);
  }

  lemma ReleaseAnswered(hist: History, c: Call, reason: string)
    requires c.Holding? && c.pc.Releasing? && CallOk(hist, c) && Clean(hist, c) && TokensClaimed(hist)
    ensures TokensClaimed(ReleaseStep(hist, c, Delivered, reason).history)
  {
    var v := Current(hist);
    LandClaimed(hist, v.(status := Released(v.status, c.pc.healthy, reason)), Releaser(c.nc));
  }

  lemma CallAnswered(hist: History, c: Call, ch: CallChoice)
    requires LawfulHistory(hist) && CallOk(hist, c) && Clean(hist, c) && TokensClaimed(hist)
    requires AnsweredChoice(ch) && (c.Seeking? ==> ch.Pick?)
    ensures var o := CallOutcome(hist, c, ch);
            TokensClaimed(o.history) && (o.next.Some? ==> Clean(o.history, o.next.value))
  {
    if c.Seeking? {
      if ch.i < |hist| {
        var v := Current(hist);
        LandClaimed(hist, v.(status := ClaimedBy(StatusAt(hist, ch.i), c.nc)), Claimer(c.nc, ch.hostClass));
      }
    } else if c.pc.Setting? && ch.Attempt? {
      SettingAnswered(hist, c, ch.reread);
    } else if c.pc.Releasing? && ch.Release? {
      ReleaseAnswered(hist, c, ch.reason);
    } else {
      LocalMoveShape(c, ch);
    }
  }

  lemma ProbeAnswered(hist: History, o: ProbeOutcome, now: int)
    requires TokensClaimed(hist) && ProbeGuarantee(hist, o, now)
    ensures TokensClaimed(o.history)
  {
    if Grew(hist, o.history) {
      assert Lawful(Current(hist), o.history[|hist|]);
      assert StatusAt(hist, |hist| - 1) == Current(hist).status;
      forall i | 0 <= i < |o.history| && StatusAt(o.history, i).token != ""
        ensures StatusAt(o.history, i).claim.Some?
      {
        if i < |hist| {
          ExtendsKeepsVersions(hist, o.history, i);
          assert StatusAt(hist, i).claim.Some?;
        }
      }
    }
  }

  // ----- the whole system -------------------------------------------------------------------------

  /** One actor moved on host `h`: copies elsewhere are untouched, and copies of a
      version that was overtaken can win no swap. */
  lemma HostStepAnswered(s: Sys, t: Sys, h: HostId)
    requires Inv(s) && AnsweredInv(s) && OnlyHost(s, t, h) && TokensClaimed(t.hosts[h].history)
    requires forall id <- t.calls :: (id in s.calls && t.calls[id] == s.calls[id]) || CallClean(t, t.calls[id])
    ensures AnsweredInv(t)
  {
    forall id <- t.calls ensures CallClean(t, t.calls[id]) {
      if id in s.calls && t.calls[id] == s.calls[id] {
        assert CallClean(s, s.calls[id]) && CallSettled(s, s.calls[id]);
      }
    }
  }

  lemma SettledAnswered(s: Sys, id: CallId, h: HostId, o: Outcome)
    requires Inv(s) && AnsweredInv(s) && Settles(s, id, h, o)
    requires TokensClaimed(o.history) && (o.next.Some? ==> Clean(o.history, o.next.value))
    ensures AnsweredInv(Settled(s, id, h, o))
  {
    SettledShape(s, id, h, o);
    HostStepAnswered(s, Settled(s, id, h, o), h);
  }

  lemma CallStepAnswered(s: Sys, id: CallId, ch: CallChoice)
    requires Inv(s) && AnsweredInv(s) && AnsweredChoice(ch)
    ensures AnsweredInv(CallStep(s, id, ch))
  {
    if id in s.calls {
      var c := s.calls[id];
      var target := CallTarget(c, ch);
      if c.Seeking? && ch.GiveUp? {
        OpenedAnswered(s, id, None);
      } else if target.Some? && target.value in s.hosts {
        var hist := s.hosts[target.value].history;
        CallOutcomeSettles(s, id, ch, target.value);
        assert CallClean(s, c) && CallSettled(s, c);
        CallAnswered(hist, c, ch);
        SettledAnswered(s, id, target.value, CallOutcome(hist, c, ch));
      }
    }
  }

  lemma OpenedAnswered(s: Sys, id: CallId, next: Option<Call>)
    requires AnsweredInv(s) && (next.Some? ==> CallClean(s, next.value))
    ensures AnsweredInv(WithCall(s, id, next))
  {
    var t := WithCall(s, id, next);
    forall i <- t.calls ensures CallClean(t, t.calls[i]) {
      if i in s.calls {
        assert CallClean(s, s.calls[i]);
      }
    }
  }

  lemma ObservedAnswered(s: Sys, h: HostId, o: ProbeOutcome)
    requires Inv(s) && AnsweredInv(s) && h in s.hosts && ProbeGuarantee(s.hosts[h].history, o, s.clock)
    ensures AnsweredInv(Observed(s, h, o))
  {
    ObservedShape(s, h, o);
    ProbeAnswered(s.hosts[h].history, o, s.clock);
    HostStepAnswered(s, Observed(s, h, o), h);
  }

  lemma EditAnswered(s: Sys, e: Event)
    requires Inv(s) && AnsweredInv(s) && e.Edit? && e.host in s.hosts
    ensures AnsweredInv(Step(s, e))
  {
    var hist := s.hosts[e.host].history;
    var v := Edited(Current(hist), e.maintenance, e.hostClass, e.generation);
    assert StatusAt(hist, |hist| - 1) == v.status;
    LandExtends(hist, v, Operator);
    LandClaimed(hist, v, Operator);
    HostStepAnswered(s, Step(s, e), e.host);
  }

  lemma SameStoreAnswered(s: Sys, t: Sys)
    requires AnsweredInv(s) && t.calls == s.calls && t.hosts.Keys == s.hosts.Keys
    requires forall h <- s.hosts :: t.hosts[h].history == s.hosts[h].history
    ensures AnsweredInv(t)
  {
    forall i <- t.calls ensures CallClean(t, t.calls[i]) {
      assert CallClean(s, s.calls[i]);
    }
  }

  lemma StepAnswered(s: Sys, e: Event)
    requires Inv(s) && AnsweredInv(s) && Answered(e)
    ensures AnsweredInv(Step(s, e))
  {
    match e
    case Edit(h, _, _, _) => if h in s.hosts { EditAnswered(s, e); }
    case SeekHost(id, nc) => OpenedAnswered(s, id, Some(Seeking(nc)));
    case Open(id, nc, kind, h, i) =>
      if h in s.hosts && i < |s.hosts[h].history| {
        OpenedAnswered(s, id, Opened(nc, kind, h, Copy(i, s.hosts[h].history[i].version)));
      }
    case Proceed(id, ch) => CallStepAnswered(s, id, ch);
    case Observe(h, ch) =>
      if h in s.hosts {
        var host := s.hosts[h];
        ProbeStepOk(host.history, host.probe, ch, s.clock);
        ObservedAnswered(s, h, ProbeStep(host.history, host.probe, ch, s.clock));
      }
    case _ => SameStoreAnswered(s, Step(s, e));
  }

  lemma {:induction false} RunAnswered(s: Sys, events: seq<Event>)
    requires Initial(s) && forall k :: 0 <= k < |events| ==> Answered(events[k])
    ensures AnsweredInv(Run(s, events))
  {
    if events == [] {
      forall h <- s.hosts ensures TokensClaimed(s.hosts[h].history) {
        assert NewHost(s.hosts[h]);
      }
    } else {
      RunAnswered(s, events[..|events| - 1]);
      RunInv(s, events[..|events| - 1]);
      StepAnswered(Run(s, events[..|events| - 1]), events[|events| - 1]);
    }
  }

  /** Without lost responses, a token id is only ever stored under a claim. */
  lemma TokenOnlyUnderClaim(s: Sys, events: seq<Event>, h: HostId, i: nat)
    requires Initial(s) && forall k :: 0 <= k < |events| ==> Answered(events[k])
    requires h in Run(s, events).hosts && i < |Run(s, events).hosts[h].history|
    ensures var st := StatusAt(Run(s, events).hosts[h].history, i);
            st.token != "" ==> st.claim.Some?
  {
    RunAnswered(s, events);
  }
}
