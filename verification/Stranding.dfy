/**
 When a token id outlives its claim in the store, in every run, lost responses
 included: exactly when a release lands that was computed from a copy which no
 longer shows the stored id.
 */
module Stranding {
  import opened Options
  import opened Records
  import opened Ledger
  import opened Protocol
  import opened Invariant
  import opened AnsweredRuns
  import opened RunTheorems

  // ----- one release -----------------------------------------------------------------------------

  /** A release about to land over a token id that its copy does not show. */
  predicate Blind(hist: History, c: Call, fate: Fate) {
    && c.Holding? && c.pc.Releasing? && fate != LostBefore && c.copy.rv == |hist| - 1
    && c.copy.version.status.token == "" && Current(hist).status.token != ""
  }

  predicate Stranded(s: Status) {
    s.token != "" && s.claim == None
  }

  lemma ReleaseStrands(hist: History, c: Call, fate: Fate, reason: string)
    requires LawfulHistory(hist) && c.Holding? && c.pc.Releasing? && CallOk(hist, c)
    requires !Stranded(Current(hist).status)
    ensures Stranded(Current(ReleaseStep(hist, c, fate, reason).history).status) <==> Blind(hist, c, fate)
  {
    var s := c.copy.version.status;
    var t := Merged(s, Released(s, c.pc.healthy, reason), Current(hist).status);
    assert c.copy.rv == |hist| - 1 ==> t.claim == None && t.token == if s.token == "" then Current(hist).status.token else "";
  }

  /** The way it comes about: a launch failed after its token was recorded, and tries to
      clear the id; the release that follows drops the claim and keeps the id exactly
      when the request to clear it was lost before it took effect. */
  lemma StrandedExactlyWhenClearIsLost(hist: History, c: Call, healthy: bool, fate: Fate, revoked: bool, reason: string)
    requires LawfulHistory(hist) && c.Holding? && CallOk(hist, c)
    requires c.pc == Setting(NoToken, ATTEMPTS, healthy)
    requires c.copy == Newest(hist) && Current(hist).status.token != ""
    ensures var o := HoldingStep(hist, c, Attempt(fate, None));
            && o.next.Some? && o.next.value.Holding? && o.next.value.pc == Revoking(healthy)
            && var o1 := HoldingStep(o.history, o.next.value, Revoke(revoked));
               && o1.next.Some? && o1.next.value.Holding? && o1.next.value.pc == Releasing(healthy)
               && var o2 := HoldingStep(o1.history, o1.next.value, Release(Delivered, reason));
                  o2.next == None && (Stranded(Current(o2.history).status) <==> fate == LostBefore)
  {
    AllSound(hist, |hist| - 1);
    ClearOutcome(hist, c, healthy, fate);
    var cleared := SettingStep(hist, c, fate, None);
    var next := cleared.next.value.(pc := Releasing(healthy));
    assert HoldingStep(cleared.history, cleared.next.value, Revoke(revoked)) == Outcome(Some(next), cleared.history, Quiet);
    if fate == LostBefore {
      var s := next.copy.version.status;
      assert Merged(s, Released(s, healthy, reason), Current(hist).status).token == Current(hist).status.token;
    } else {
      ReleaseNeverRecords(cleared.history, next, reason);
    }
  }

  lemma ClearOutcome(hist: History, c: Call, healthy: bool, fate: Fate)
    requires c.Holding? && c.pc == Setting(NoToken, ATTEMPTS, healthy) && c.copy == Newest(hist)
    requires Current(hist).status.token != ""
    ensures var o := SettingStep(hist, c, fate, None);
            && o.next.Some? && o.next.value.Holding? && o.next.value.pc == Revoking(healthy)
            && o.next.value.copy.version.status == Current(hist).status.(token := "")
            && Current(o.history).status.token == (if fate == LostBefore then Current(hist).status.token else "")
            && (fate == LostBefore ==> o.history == hist && o.next.value.copy.rv == |hist| - 1)
  {}

  lemma ReleaseNeverRecords(hist: History, c: Call, reason: string)
    requires c.Holding? && c.pc.Releasing? && Current(hist).status.token == ""
    ensures Current(ReleaseStep(hist, c, Delivered, reason).history).status.token == ""
  {}

  // ----- one event -------------------------------------------------------------------------------------

  /** The event is such a release on host `h`. */
  predicate BlindRelease(t: Sys, e: Event, h: HostId) {
    && e.Proceed? && e.choice.Release? && e.id in t.calls && h in t.hosts
    && t.calls[e.id].Holding? && t.calls[e.id].host == h
    && Blind(t.hosts[h].history, t.calls[e.id], e.choice.fate)
  }

  /** Nobody but a releaser can strand an id. */
  lemma OthersDoNotStrand(hist: History, after: History)
    requires LawfulHistory(hist) && Extends(hist, after) && TokensClaimed(hist)
    requires Grew(hist, after) ==> !after[|hist|].who.Releaser?
    ensures TokensClaimed(after)
  {
    AllSound(hist, |hist| - 1);
    assert StatusAt(hist, |hist| - 1).token != "" ==> StatusAt(hist, |hist| - 1).claim.Some?;
    forall i | 0 <= i < |after| && StatusAt(after, i).token != "" ensures StatusAt(after, i).claim.Some? {
      if i < |hist| {
        assert StatusAt(after, i) == StatusAt(hist, i);
      } else {
        assert Lawful(Current(hist), after[|hist|]);
      }
    }
  }

  lemma SightedRelease(hist: History, c: Call, fate: Fate, reason: string)
    requires LawfulHistory(hist) && c.Holding? && c.pc.Releasing? && CallOk(hist, c) && TokensClaimed(hist)
    requires !Blind(hist, c, fate)
    ensures TokensClaimed(ReleaseStep(hist, c, fate, reason).history)
  {
    var after := ReleaseStep(hist, c, fate, reason).history;
    assert StatusAt(hist, |hist| - 1).token != "" ==> StatusAt(hist, |hist| - 1).claim.Some?;
    ReleaseStrands(hist, c, fate, reason);
    assert StatusAt(after, |after| - 1) == Current(after).status;
    forall i | 0 <= i < |after| && StatusAt(after, i).token != "" ensures StatusAt(after, i).claim.Some? {
      if i < |hist| {
        assert StatusAt(after, i) == StatusAt(hist, i);
      }
    }
  }

  /** Who wrote, when it was not a release. */
  lemma OutcomeWriter(hist: History, c: Call, ch: CallChoice)
    requires c.Seeking? ==> ch.Pick?
    requires !(c.Holding? && c.pc.Releasing? && ch.Release?)
    ensures var after := CallOutcome(hist, c, ch).history;
            after == hist || (Grew(hist, after) && !after[|hist|].who.Releaser?)
  {}

  lemma CallStrands(t: Sys, id: CallId, ch: CallChoice, g: HostId)
    requires Inv(t) && id in t.calls && g in t.hosts && CallTarget(t.calls[id], ch) == Some(g)
    requires TokensClaimed(t.hosts[g].history) && !BlindRelease(t, Proceed(id, ch), g)
    ensures TokensClaimed(CallOutcome(t.hosts[g].history, t.calls[id], ch).history)
  {
    var c, hist := t.calls[id], t.hosts[g].history;
    assert CallSettled(t, c);
    if c.Holding? && c.pc.Releasing? && ch.Release? {
      SightedRelease(hist, c, ch.fate, ch.reason);
    } else {
      OutcomeWriter(hist, c, ch);
      CallOutcomeOk(hist, c, ch);
      OthersDoNotStrand(hist, CallOutcome(hist, c, ch).history);
    }
  }

  lemma SettledHistory(t: Sys, id: CallId, g: HostId, o: Outcome, h: HostId)
    requires g in t.hosts && h in t.hosts
    ensures h in Settled(t, id, g, o).hosts
    ensures Settled(t, id, g, o).hosts[h].history == if g == h then o.history else t.hosts[h].history
  {}

  lemma ProceedStrands(t: Sys, id: CallId, ch: CallChoice, h: HostId)
    requires Inv(t) && h in t.hosts && TokensClaimed(t.hosts[h].history) && !BlindRelease(t, Proceed(id, ch), h)
    ensures h in CallStep(t, id, ch).hosts && TokensClaimed(CallStep(t, id, ch).hosts[h].history)
  {
    if id in t.calls && FreshMint(t, ch) && !(t.calls[id].Seeking? && ch.GiveUp?) {
      var target := CallTarget(t.calls[id], ch);
      if target.Some? && target.value in t.hosts {
        var o := CallOutcome(t.hosts[target.value].history, t.calls[id], ch);
        SettledHistory(t, id, target.value, o, h);
        if target.value == h {
          CallStrands(t, id, ch, h);
        }
        assert CallStep(t, id, ch) == Settled(t, id, target.value, o);
      }
    }
  }

  lemma StepStrands(t: Sys, e: Event, h: HostId)
    requires Inv(t) && h in t.hosts && TokensClaimed(t.hosts[h].history) && !BlindRelease(t, e, h)
    ensures h in Step(t, e).hosts && TokensClaimed(Step(t, e).hosts[h].history)
  {
    if e.Proceed? {
      ProceedStrands(t, e.id, e.choice, h);
    } else {
      StepExtends(t, e, h);
      StepWriter(t, e, h);
      OthersDoNotStrand(t.hosts[h].history, Step(t, e).hosts[h].history);
    }
  }

  lemma StepWriter(t: Sys, e: Event, h: HostId)
    requires Inv(t) && h in t.hosts && !e.Proceed?
    ensures h in Step(t, e).hosts
    ensures var hist, after := t.hosts[h].history, Step(t, e).hosts[h].history;
            Grew(hist, after) ==> !after[|hist|].who.Releaser?
  {
    match e
    case Observe(g, ch) => if g == h { ObserveWriter(t, h, ch); } else { ObserveElsewhere(t, g, ch, h); }
    case Edit(_, _, _, _) => EditWriter(t, e, h);
    case _ => QuietExtends(t, e, h);
  }

  lemma ObserveElsewhere(t: Sys, g: HostId, ch: ProbeChoice, h: HostId)
    requires h in t.hosts && g != h
    ensures h in Step(t, Observe(g, ch)).hosts && Step(t, Observe(g, ch)).hosts[h] == t.hosts[h]
  {}

  lemma ObserveWriter(t: Sys, h: HostId, ch: ProbeChoice)
    requires Inv(t) && h in t.hosts
    ensures h in Step(t, Observe(h, ch)).hosts
    ensures var hist, after := t.hosts[h].history, Step(t, Observe(h, ch)).hosts[h].history;
            Grew(hist, after) ==> after[|hist|].who == Prober
  {
    ProbeStepOk(t.hosts[h].history, t.hosts[h].probe, ch, t.clock);
    ObservedShape(t, h, ProbeStep(t.hosts[h].history, t.hosts[h].probe, ch, t.clock));
  }

  lemma EditWriter(t: Sys, e: Event, h: HostId)
    requires h in t.hosts && e.Edit?
    ensures h in Step(t, e).hosts
    ensures var hist, after := t.hosts[h].history, Step(t, e).hosts[h].history;
            Grew(hist, after) ==> after[|hist|].who == Operator
  {}

  lemma BlindStrands(t: Sys, e: Event, h: HostId)
    requires Inv(t) && BlindRelease(t, e, h)
    ensures h in Step(t, e).hosts && Stranded(Current(Step(t, e).hosts[h].history).status)
  {
    var c, hist := t.calls[e.id], t.hosts[h].history;
    assert CallSettled(t, c);
    var s := c.copy.version.status;
    assert Merged(s, Released(s, c.pc.healthy, e.choice.reason), Current(hist).status).token == Current(hist).status.token;
    assert Step(t, e) == Settled(t, e.id, h, ReleaseStep(hist, c, e.choice.fate, e.choice.reason));
  }

  // ----- every run -----------------------------------------------------------------------------------------

  /** No event of the run is such a release on host `h`. */
  predicate NeverBlind(s: Sys, events: seq<Event>, h: HostId) {
    events == [] ||
    (&& NeverBlind(s, events[..|events| - 1], h)
     && !BlindRelease(Run(s, events[..|events| - 1]), events[|events| - 1], h))
  }

  ghost predicate ClaimedOn(t: Sys, h: HostId) {
    h in t.hosts && TokensClaimed(t.hosts[h].history)
  }

  /** In every run, a host's token ids are stored only under claims if and only if no
      release landed on it from a copy that did not show the stored id. */
  lemma {:induction false} TokensClaimedExactly(s: Sys, events: seq<Event>, h: HostId)
    requires Initial(s) && h in s.hosts
    ensures ClaimedOn(Run(s, events), h) <==> NeverBlind(s, events, h)
  {
    if events == [] {
      ClaimedAtFirst(s, h);
    } else {
      var before := events[..|events| - 1];
      TokensClaimedExactly(s, before, h);
      ExactlyOnceMore(s, before, events[|events| - 1], h);
    }
  }

  lemma {:induction false} HostsStay(s: Sys, events: seq<Event>, h: HostId)
    requires Initial(s) && h in s.hosts
    ensures h in Run(s, events).hosts
  {
    if events != [] {
      HostsStay(s, events[..|events| - 1], h);
      RunInv(s, events[..|events| - 1]);
      StepExtends(Run(s, events[..|events| - 1]), events[|events| - 1], h);
    }
  }

  lemma ClaimedAtFirst(s: Sys, h: HostId)
    requires Initial(s) && h in s.hosts
    ensures ClaimedOn(s, h)
  {
    assert NewHost(s.hosts[h]);
  }

  lemma ExactlyOnceMore(s: Sys, before: seq<Event>, last: Event, h: HostId)
    requires Initial(s) && h in s.hosts
    ensures var t := Run(s, before);
            ClaimedOn(Step(t, last), h) <==> ClaimedOn(t, h) && !BlindRelease(t, last, h)
  {
    RunInv(s, before);
    HostsStay(s, before, h);
    StepExactly(Run(s, before), last, h);
  }

  /** One event, exactly. */
  lemma StepExactly(t: Sys, e: Event, h: HostId)
    requires Inv(t) && h in t.hosts
    ensures h in Step(t, e).hosts
    ensures TokensClaimed(Step(t, e).hosts[h].history) <==> TokensClaimed(t.hosts[h].history) && !BlindRelease(t, e, h)
  {
    if BlindRelease(t, e, h) {
      BlindStrands(t, e, h);
      var after := Step(t, e).hosts[h].history;
      assert Stranded(StatusAt(after, |after| - 1));
    } else if TokensClaimed(t.hosts[h].history) {
      StepStrands(t, e, h);
    } else {
      StrandedStays(t, e, h);
    }
  }

  /** A version stays in the history. */
  lemma StrandedStays(t: Sys, e: Event, h: HostId)
    requires Inv(t) && h in t.hosts && !TokensClaimed(t.hosts[h].history)
    ensures h in Step(t, e).hosts && !TokensClaimed(Step(t, e).hosts[h].history)
  {
    StepExtends(t, e, h);
    var hist, after := t.hosts[h].history, Step(t, e).hosts[h].history;
    var i :| 0 <= i < |hist| && StatusAt(hist, i).token != "" && !StatusAt(hist, i).claim.Some?;
    assert StatusAt(after, i) == StatusAt(hist, i);
  }
}
