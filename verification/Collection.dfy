/**
 When the probe may collect a bootstrap token, in tame runs: it does so only after
 the join that uses the token succeeded, if the launch minted it on a record
 without a providerID; and otherwise it can do so before the join is even sent.
 */
module Collection {
  import opened Options
  import opened Records
  import opened Ledger
  import opened Protocol
  import opened Invariant
  import opened Orderly
  import opened AnsweredRuns
  import opened Tokens
  import opened TokenTheorems

  function ProviderOn(s: Sys, h: HostId): string
    requires h in s.hosts
  {
    Current(s.hosts[h].history).status.providerID
  }

  /** The event mints `tok` for a launch on host `h`. */
  predicate Mints(s: Sys, e: Event, tok: string, h: HostId) {
    && e.Proceed? && e.choice == Mint(tok) && tok != "" && tok !in s.minted
    && e.id in s.calls && s.calls[e.id].Holding? && s.calls[e.id].pc == Minting
    && s.calls[e.id].host == h && h in s.hosts
  }

  /** The event mints `tok` beside a providerID of an earlier launch. */
  predicate MintsBeside(s: Sys, e: Event, tok: string) {
    e.Proceed? && e.id in s.calls && s.calls[e.id].Holding? && s.calls[e.id].host in s.hosts
    && Mints(s, e, tok, s.calls[e.id].host) && ProviderOn(s, s.calls[e.id].host) != ""
  }

  ghost predicate NeverMintedBeside(s: Sys, events: seq<Event>, tok: string) {
    forall k :: 0 <= k < |events| ==> !MintsBeside(Run(s, events[..k]), events[k], tok)
  }

  // ----- the invariant ---------------------------------------------------------------------------

  /** A version that the probe would collect `tok` from. */
  predicate PairOk(joined: set<string>, s: Status, tok: string) {
    s.token == tok && s.providerID != "" ==> tok in joined
  }

  ghost predicate PairsOk(joined: set<string>, hist: History, tok: string) {
    forall i :: 0 <= i < |hist| ==> PairOk(joined, StatusAt(hist, i), tok)
  }

  /** The part of a launch that holds its token and has not joined. */
  predicate Unjoined(pc: Pc) {
    match pc
    case Minted => true
    case ToRun(p) => p == Join
    case Running(p) => p == Join
    case Setting(f, _, _) => f == TokenId
    case _ => false
  }

  predicate Joined(pc: Pc) {
    pc.Adopting? || (pc.Setting? && (pc.field == Provider || pc.field == UseState))
  }

  predicate CallJoin(joined: set<string>, cur: Status, c: Call, tok: string) {
    c.Holding? && c.kind == Launch && c.token == tok ==>
      (Unjoined(c.pc) ==> cur.providerID == "") && (Joined(c.pc) ==> tok in joined)
  }

  ghost predicate CallJoins(s: Sys, c: Call, tok: string) {
    c.Holding? && c.host in s.hosts ==> CallJoin(s.joined, Current(s.hosts[c.host].history).status, c, tok)
  }

  ghost predicate JoinInv(s: Sys, tok: string) {
    && (forall h <- s.hosts :: PairsOk(s.joined, s.hosts[h].history, tok))
    && (forall id <- s.calls :: CallJoins(s, s.calls[id], tok))
  }

  // ----- one step ------------------------------------------------------------------------------------

  /** What one step adds to the store and to what the actor knows. */
  ghost predicate JoinStep(b: Books, after: History, o: Option<Call>, e: Effect, tok: string) {
    var b' := BooksAfter(b, e);
    && PairOk(b'.joined, Current(after).status, tok)
    && (o.Some? ==> CallJoin(b'.joined, Current(after).status, o.value, tok))
  }

  lemma AcceptedJoins(joined: set<string>, b: Books, hist: History, c: Call, tok: string)
    requires c.Holding? && c.pc.Setting? && PcOk(c) && CallTokens(b, hist, c) && tok != "" && joined == b.joined
    requires PairOk(joined, Current(hist).status, tok) && CallJoin(joined, Current(hist).status, c, tok)
    ensures PairOk(joined, Mutated(c, c.pc.field, Current(hist).status), tok)
    ensures forall copy :: var next := AfterSetting(c.(copy := copy), c.pc.field, c.pc.healthy, true);
              next.Some? ==> CallJoin(joined, Mutated(c, c.pc.field, Current(hist).status), next.value, tok)
  {}

  lemma RefusedJoins(joined: set<string>, hist: History, c: Call, reread: Option<nat>, tok: string)
    requires c.Holding? && c.pc.Setting? && CallJoin(joined, Current(hist).status, c, tok)
    ensures var next := AfterAttempt(c, hist, Conflicted, reread);
            next.Some? ==> CallJoin(joined, Current(hist).status, next.value, tok)
  {}

  lemma SettingJoins(b: Books, hist: History, c: Call, reread: Option<nat>, tok: string)
    requires c.Holding? && c.pc.Setting? && CallOk(hist, c) && CallTokens(b, hist, c) && tok != ""
    requires PairsOk(b.joined, hist, tok) && CallJoin(b.joined, Current(hist).status, c, tok)
    ensures var o := SettingStep(hist, c, Delivered, reread); JoinStep(b, o.history, o.next, o.effect, tok)
  {
    assert PairOk(b.joined, StatusAt(hist, |hist| - 1), tok);
    if c.copy.rv == |hist| - 1 {
      AcceptedJoins(b.joined, b, hist, c, tok);
      var o := SettingStep(hist, c, Delivered, reread);
      assert Current(o.history).status == Mutated(c, c.pc.field, Current(hist).status);
      assert o.next == AfterSetting(c.(copy := Newest(o.history)), c.pc.field, c.pc.healthy, true);
    } else {
      RefusedJoins(b.joined, hist, c, reread, tok);
    }
  }

  lemma ReleaseJoins(b: Books, hist: History, c: Call, reason: string, tok: string)
    requires c.Holding? && c.pc.Releasing? && CallOk(hist, c) && CallTokens(b, hist, c) && tok != ""
    requires PairsOk(b.joined, hist, tok)
    ensures var o := ReleaseStep(hist, c, Delivered, reason); JoinStep(b, o.history, o.next, o.effect, tok)
  {
    assert PairOk(b.joined, StatusAt(hist, |hist| - 1), tok);
  }

  lemma LocalNextJoins(b: Books, cur: Status, c: Call, ch: CallChoice, tok: string)
    requires c.Holding? && PcOk(c) && tok != "" && CallJoin(b.joined, cur, c, tok)
    requires c.kind == Launch && BeforeMint(c.pc) ==> c.token == ""
    requires c.pc.Minting? && ch == Mint(tok) ==> cur.providerID == ""
    ensures var m := LocalMove(c, ch); m.next.Some? ==> CallJoin(BooksAfter(b, m.effect).joined, cur, m.next.value, tok)
  {}

  lemma LocalJoins(b: Books, hist: History, c: Call, ch: CallChoice, tok: string)
    requires c.Holding? && CallOk(hist, c) && CallTokens(b, hist, c) && tok != ""
    requires PairsOk(b.joined, hist, tok) && CallJoin(b.joined, Current(hist).status, c, tok)
    requires c.pc.Minting? && ch == Mint(tok) ==> Current(hist).status.providerID == ""
    ensures var m := LocalMove(c, ch); JoinStep(b, hist, m.next, m.effect, tok)
  {
    assert PairOk(b.joined, StatusAt(hist, |hist| - 1), tok);
    LocalNextJoins(b, Current(hist).status, c, ch, tok);
  }

  lemma SeekJoins(b: Books, h: HostId, hist: History, c: Call, ch: CallChoice, tok: string)
    requires LawfulHistory(hist) && HistoryTokens(b, h, hist) && c.Seeking? && ch.Pick? && ch.fate == Delivered && tok != ""
    requires PairsOk(b.joined, hist, tok)
    ensures var o := SeekingStep(hist, c, ch); JoinStep(b, o.history, o.next, o.effect, tok)
  {
    assert PairOk(b.joined, StatusAt(hist, |hist| - 1), tok);
    assert VersionTokens(b, h, StatusAt(hist, |hist| - 1));
  }

  lemma CallJoinStep(b: Books, h: HostId, hist: History, c: Call, ch: CallChoice, tok: string)
    requires LawfulHistory(hist) && HistoryTokens(b, h, hist) && CallOk(hist, c) && tok != ""
    requires (c.Holding? ==> c.host == h && CallTokens(b, hist, c)) && (c.Seeking? ==> ch.Pick?)
    requires AnsweredChoice(ch)
    requires PairsOk(b.joined, hist, tok) && CallJoin(b.joined, Current(hist).status, c, tok)
    requires c.Holding? && c.pc.Minting? && ch == Mint(tok) ==> Current(hist).status.providerID == ""
    ensures var o := CallOutcome(hist, c, ch); JoinStep(b, o.history, o.next, o.effect, tok)
  {
    if c.Seeking? {
      SeekJoins(b, h, hist, c, ch, tok);
    } else if c.pc.Setting? && ch.Attempt? {
      SettingJoins(b, hist, c, ch.reread, tok);
    } else if c.pc.Releasing? && ch.Release? {
      ReleaseJoins(b, hist, c, ch.reason, tok);
    } else {
      LocalJoins(b, hist, c, ch, tok);
    }
  }

  /** The upkeep of the probe and of operators makes no version collectible. */
  lemma UpkeepPairs(joined: set<string>, hist: History, after: History, tok: string)
    requires PairsOk(joined, hist, tok) && Extends(hist, after) && tok != ""
    requires Grew(hist, after) ==> after[|hist|].who == Prober || after[|hist|].who == Operator
    ensures PairOk(joined, Current(after).status, tok)
  {
    assert PairOk(joined, StatusAt(hist, |hist| - 1), tok);
  }

  lemma MovedJoins(s: Sys, t: Sys, h: HostId, id: Option<CallId>, next: Option<Call>, e: Effect, tok: string)
    requires JoinInv(s, tok) && Moved(s, t, h, id, next, e) && JoinStep(BooksOf(s), t.hosts[h].history, next, e, tok)
    requires next.Some? && next.value.Holding? ==> next.value.host == h
    requires forall i <- s.calls | id != Some(i) && s.calls[i].Holding? && s.calls[i].host == h ::
               ProviderOn(t, h) == ProviderOn(s, h)
    ensures JoinInv(t, tok)
  {
    forall g <- t.hosts ensures PairsOk(t.joined, t.hosts[g].history, tok) {
      assert PairsOk(s.joined, s.hosts[g].history, tok);
      var hist, after := s.hosts[g].history, t.hosts[g].history;
      forall i | 0 <= i < |after| ensures PairOk(t.joined, StatusAt(after, i), tok) {
        if i < |hist| {
          assert StatusAt(after, i) == StatusAt(hist, i);
          assert PairOk(s.joined, StatusAt(hist, i), tok);
        }
      }
    }
    forall i <- t.calls ensures CallJoins(t, t.calls[i], tok) {
      if id != Some(i) {
        assert CallJoins(s, s.calls[i], tok);
      }
    }
  }

  lemma SettledJoins(s: Sys, id: CallId, h: HostId, o: Outcome, tok: string)
    requires OrderInv(s) && TokenInv(s) && JoinInv(s, tok) && Settles(s, id, h, o)
    requires UniqueMint(BooksOf(s), o.effect)
    requires TokenStep(BooksOf(s), h, s.hosts[h].history, o.history, Some(s.calls[id]), o.next, o.effect)
    requires JoinStep(BooksOf(s), o.history, o.next, o.effect, tok)
    ensures JoinInv(Settled(s, id, h, o), tok)
  {
    var t := Settled(s, id, h, o);
    SettledMoved(s, id, h, o);
    SettledProbe(s, id, h, o);
    forall i <- s.calls | i != id && s.calls[i].Holding? && s.calls[i].host == h
      ensures ProviderOn(t, h) == ProviderOn(s, h)
    {
      OtherCallsDoNotWrite(s, id, h, o, i);
    }
    MovedJoins(s, t, h, Some(id), o.next, o.effect, tok);
  }

  lemma CallStepJoins(s: Sys, id: CallId, ch: CallChoice, h: HostId, tok: string)
    requires Inv(s) && OrderInv(s) && TokenInv(s) && JoinInv(s, tok) && tok != ""
    requires AnsweredChoice(ch) && Works(s, id, ch, h) && !MintsBeside(s, Proceed(id, ch), tok)
    ensures JoinInv(CallStep(s, id, ch), tok)
  {
    var c, o := s.calls[id], CallOutcome(s.hosts[h].history, s.calls[id], ch);
    CallTokenStep(s, id, ch, h, o);
    assert CallSettled(s, c) && CallBooked(s, c) && HostTokens(BooksOf(s), h, s.hosts[h]) && CallJoins(s, c, tok);
    CallJoinStep(BooksOf(s), h, s.hosts[h].history, c, ch, tok);
    SettledJoins(s, id, h, o, tok);
    CallStepSettles(s, id, ch, h);
  }

  lemma SameJoins(s: Sys, t: Sys, tok: string)
    requires JoinInv(s, tok) && SameRecords(s, t)
    requires forall h <- s.hosts :: PairsOk(s.joined, t.hosts[h].history, tok)
    requires forall i <- t.calls :: (i in s.calls && t.calls[i] == s.calls[i]) || t.calls[i].Seeking? || t.calls[i].token == ""
    requires tok != ""
    ensures JoinInv(t, tok)
  {
    forall i <- t.calls ensures CallJoins(t, t.calls[i], tok) {
      if i in s.calls && t.calls[i] == s.calls[i] {
        assert CallJoins(s, s.calls[i], tok);
      }
    }
  }

  lemma ProceedJoins(s: Sys, id: CallId, ch: CallChoice, tok: string)
    requires Inv(s) && OrderInv(s) && TokenInv(s) && JoinInv(s, tok) && tok != ""
    requires AnsweredChoice(ch) && !MintsBeside(s, Proceed(id, ch), tok)
    ensures JoinInv(CallStep(s, id, ch), tok)
  {
    if id in s.calls && FreshMint(s, ch) {
      var target := CallTarget(s.calls[id], ch);
      if s.calls[id].Seeking? && ch.GiveUp? {
        SameJoins(s, WithCall(s, id, None), tok);
      } else if target.Some? && target.value in s.hosts {
        CallStepJoins(s, id, ch, target.value, tok);
      }
    }
  }

  lemma ProbeJoins(s: Sys, h: HostId, o: ProbeOutcome, tok: string)
    requires Inv(s) && OrderInv(s) && JoinInv(s, tok) && tok != "" && h in s.hosts
    requires ProbeGuarantee(s.hosts[h].history, o, s.clock) && ProbeClears(s.hosts[h].history, s.hosts[h].probe, o)
    requires UniqueMint(BooksOf(s), o.effect) && BooksAfter(BooksOf(s), o.effect).joined == s.joined
    requires TokenStep(BooksOf(s), h, s.hosts[h].history, o.history, None, None, o.effect)
    ensures JoinInv(Observed(s, h, o), tok)
  {
    var t, hist := Observed(s, h, o), s.hosts[h].history;
    ObservedMoved(s, h, o);
    UpkeepPairs(s.joined, hist, o.history, tok);
    forall i <- s.calls | s.calls[i].Holding? && s.calls[i].host == h ensures ProviderOn(t, h) == ProviderOn(s, h) {
      ReapSparesCalls(s, h, o, i);
      ClaimKeepsProvider(hist, o.history);
    }
    MovedJoins(s, t, h, None, None, o.effect, tok);
  }

  lemma ClaimKeepsProvider(hist: History, after: History)
    requires Extends(hist, after) && Current(hist).status.claim.Some?
    requires Current(after).status.claim == Current(hist).status.claim
    requires Grew(hist, after) ==> after[|hist|].who == Prober
    ensures Current(after).status.providerID == Current(hist).status.providerID
  {}

  lemma ProbeNeverJoins(hist: History, p: Probe, ch: ProbeChoice, now: int, b: Books)
    ensures BooksAfter(b, ProbeStep(hist, p, ch, now).effect).joined == b.joined
  {}

  lemma ObserveJoins(s: Sys, h: HostId, ch: ProbeChoice, tok: string)
    requires Inv(s) && OrderInv(s) && TokenInv(s) && JoinInv(s, tok) && tok != "" && h in s.hosts
    requires Tame(s, Observe(h, ch))
    ensures JoinInv(Step(s, Observe(h, ch)), tok)
  {
    var host := s.hosts[h];
    var o := ProbeStep(host.history, host.probe, ch, s.clock);
    ProbeTokenStep(s, h, ch, o);
    ProbeStepClears(host.history, host.probe, ch, s.clock);
    ProbeNeverJoins(host.history, host.probe, ch, s.clock, BooksOf(s));
    ProbeJoins(s, h, o, tok);
  }

  lemma EditJoins(s: Sys, e: Event, tok: string)
    requires JoinInv(s, tok) && tok != "" && !e.Open? && !e.Proceed? && !e.Observe?
    ensures JoinInv(Step(s, e), tok)
  {
    var t := Step(s, e);
    QuietRecords(s, e);
    QuietCalls(s, e);
    forall h <- s.hosts ensures PairsOk(s.joined, t.hosts[h].history, tok) {
      QuietPairs(s, e, h, tok);
    }
    SameJoins(s, t, tok);
  }

  lemma QuietPairs(s: Sys, e: Event, h: HostId, tok: string)
    requires JoinInv(s, tok) && !e.Open? && !e.Proceed? && !e.Observe? && h in s.hosts
    ensures PairsOk(s.joined, Step(s, e).hosts[h].history, tok)
  {
    var hist, after := s.hosts[h].history, Step(s, e).hosts[h].history;
    assert PairsOk(s.joined, hist, tok);
    forall i | 0 <= i < |after| ensures PairOk(s.joined, StatusAt(after, i), tok) {
      assert PairOk(s.joined, StatusAt(hist, if i < |hist| then i else |hist| - 1), tok);
    }
  }

  lemma OpenJoins(s: Sys, e: Event, tok: string)
    requires JoinInv(s, tok) && tok != "" && e.Open?
    ensures JoinInv(Step(s, e), tok)
  {
    SameJoins(s, Step(s, e), tok);
  }

  lemma StepJoins(s: Sys, e: Event, tok: string)
    requires Inv(s) && OrderInv(s) && TokenInv(s) && JoinInv(s, tok) && tok != ""
    requires Tame(s, e) && !MintsBeside(s, e, tok)
    ensures JoinInv(Step(s, e), tok)
  {
    match e
    case Open(_, _, _, _, _) => OpenJoins(s, e, tok);
    case Proceed(id, ch) => ProceedJoins(s, id, ch, tok);
    case Observe(h, ch) => if h in s.hosts { ObserveJoins(s, h, ch, tok); }
    case _ => EditJoins(s, e, tok);
  }

  lemma {:induction false} RunJoinsFrom(s: Sys, events: seq<Event>, tok: string)
    requires Inv(s) && OrderInv(s) && TokenInv(s) && JoinInv(s, tok) && tok != ""
    requires TameRun(s, events) && NeverMintedBeside(s, events, tok)
    ensures Inv(Run(s, events)) && OrderInv(Run(s, events)) && TokenInv(Run(s, events)) && JoinInv(Run(s, events), tok)
  {
    if events != [] {
      var before, last := events[..|events| - 1], events[|events| - 1];
      assert forall k :: 0 <= k < |before| ==> before[..k] == events[..k];
      RunJoinsFrom(s, before, tok);
      var t := Run(s, before);
      StepInv(t, last);
      StepOrder(t, last);
      StepTokens(t, last);
      StepJoins(t, last, tok);
    }
  }

  /** Nothing is known of a token that was never minted. */
  lemma UnmintedJoins(t: Sys, tok: string)
    requires TokenInv(t) && tok !in t.minted && tok != ""
    ensures JoinInv(t, tok)
  {
    forall h <- t.hosts ensures PairsOk(t.joined, t.hosts[h].history, tok) {
      assert HostTokens(BooksOf(t), h, t.hosts[h]);
      forall i | 0 <= i < |t.hosts[h].history| ensures PairOk(t.joined, StatusAt(t.hosts[h].history, i), tok) {
        assert VersionTokens(BooksOf(t), h, StatusAt(t.hosts[h].history, i));
      }
    }
    forall id <- t.calls ensures CallJoins(t, t.calls[id], tok) {
      assert CallBooked(t, t.calls[id]);
    }
  }

  // ----- the theorem ---------------------------------------------------------------------------------------

  /** The probe of `h` is about to look for the Node and delete `tok`. */
  predicate AboutToCollect(s: Sys, h: HostId, tok: string) {
    h in s.hosts && s.hosts[h].probe.Collecting? && s.hosts[h].probe.base.version.status.token == tok
  }

  lemma CollectingJoined(t: Sys, h: HostId, tok: string)
    requires Inv(t) && JoinInv(t, tok) && AboutToCollect(t, h, tok)
    ensures tok in t.joined
  {
    var p := t.hosts[h].probe;
    assert ProbeOk(t.hosts[h].history, p, t.clock);
    assert PairOk(t.joined, StatusAt(t.hosts[h].history, p.base.rv), tok);
  }

  /** In every tame run the probe collects a token only after the join that used it
      succeeded, unless the token was minted beside a recorded providerID. */
  lemma CollectedAfterJoin(s: Sys, events: seq<Event>, h: HostId, tok: string)
    requires Initial(s) && TameRun(s, events) && NeverMintedBeside(s, events, tok)
    requires AboutToCollect(Run(s, events), h, tok)
    ensures tok in Run(s, events).joined
  {
    RunInv(s, events);
    var t := Run(s, events);
    assert ProbeOk(t.hosts[h].history, t.hosts[h].probe, t.clock);
    InitialAll(s, tok);
    UnmintedJoins(s, tok);
    RunJoinsFrom(s, events, tok);
    CollectingJoined(t, h, tok);
  }
}
