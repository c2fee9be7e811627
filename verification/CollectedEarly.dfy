/**
 The converse of `Collection`: a token minted beside a providerID that an earlier
 launch recorded can be collected before its join is even sent.  So minting it on
 a record without a providerID is exactly what keeps a token safe.
 */
module CollectedEarly {
  import opened Options
  import opened Records
  import opened Ledger
  import opened Protocol
  import opened Invariant
  import opened Orderly
  import opened AnsweredRuns
  import opened Tokens
  import opened TokenTheorems
  import opened Collection

  // ----- the launch records its token -----------------------------------------------------------------

  /** Host `h` is claimed, carries a providerID, and `tok` has not joined. */
  predicate Exposed(u: Sys, h: HostId, tok: string) {
    && h in u.hosts && tok !in u.joined && ProviderOn(u, h) != ""
    && ClaimOf(u, h).Some? && InClaimedState(Current(u.hosts[h].history).status)
  }

  /** The launch holds `tok` and has read some version of its record. */
  predicate Holder(u: Sys, id: CallId, h: HostId, tok: string) {
    && id in u.calls && u.calls[id].Holding? && h in u.hosts
    && var c, hist := u.calls[id], u.hosts[h].history;
       && c.kind == Launch && c.host == h && c.token == tok && c.copy.rv < |hist|
       && c.copy.version.status.claim == ClaimOf(u, h)
       && (c.copy.rv == |hist| - 1 ==> c.copy.version.status == Current(hist).status)
  }

  /** What the probe goes by is no longer what is stored. */
  predicate Overtaken(u: Sys, h: HostId)
    requires h in u.hosts
  {
    !u.hosts[h].probe.Idle? ==> u.hosts[h].probe.base.rv < |u.hosts[h].history| - 1
  }

  lemma HolderAfterMint(t: Sys, e: Event, h: HostId, tok: string)
    requires Inv(t) && OrderInv(t) && TokenInv(t) && Mints(t, e, tok, h) && ProviderOn(t, h) != ""
    ensures var u := Step(t, e);
            && Exposed(u, h, tok) && Holder(u, e.id, h, tok) && u.calls[e.id].pc == Minted
            && u.hosts[h].history == t.hosts[h].history && u.hosts[h].probe == t.hosts[h].probe
            && TokenOn(u, h) != tok
  {
    var c, hist := t.calls[e.id], t.hosts[h].history;
    MinterKnows(t, e, h, tok);
    var o := HoldingStep(hist, c, e.choice);
    assert Step(t, e) == Settled(t, e.id, h, o);
  }

  /** What holds of the launch that is about to mint. */
  lemma MinterKnows(t: Sys, e: Event, h: HostId, tok: string)
    requires Inv(t) && OrderInv(t) && TokenInv(t) && Mints(t, e, tok, h) && ProviderOn(t, h) != ""
    ensures Exposed(t, h, tok) && Holder(t, e.id, h, t.calls[e.id].token) && TokenOn(t, h) != tok
  {
    var c, hist := t.calls[e.id], t.hosts[h].history;
    assert CallSettled(t, c) && CallOwns(t, c) && CallBooked(t, c) && HostTokens(BooksOf(t), h, t.hosts[h]);
    assert VersionTokens(BooksOf(t), h, StatusAt(hist, |hist| - 1));
    AllSound(hist, |hist| - 1);
  }

  lemma EnvIsReady(u: Sys, id: CallId, h: HostId, tok: string)
    requires Exposed(u, h, tok) && Holder(u, id, h, tok) && u.calls[id].pc == Minted
    ensures var v := Step(u, Proceed(id, EnvReady));
            && Exposed(v, h, tok) && Holder(v, id, h, tok) && v.calls[id].pc == Setting(TokenId, ATTEMPTS, false)
            && v.hosts[h].history == u.hosts[h].history && v.hosts[h].probe == u.hosts[h].probe
  {
    var o := HoldingStep(u.hosts[h].history, u.calls[id], EnvReady);
    assert Step(u, Proceed(id, EnvReady)) == Settled(u, id, h, o);
  }

  /** An attempt from what is stored lands. */
  lemma AttemptLands(u: Sys, id: CallId, h: HostId, tok: string, reread: Option<nat>)
    requires Exposed(u, h, tok) && Holder(u, id, h, tok) && u.calls[id].pc.Setting? && u.calls[id].pc.field == TokenId
    requires u.calls[id].copy.rv == |u.hosts[h].history| - 1 && TokenOn(u, h) != tok
    requires !u.hosts[h].probe.Idle? ==> u.hosts[h].probe.base.rv < |u.hosts[h].history|
    ensures var v := Step(u, Proceed(id, Attempt(Delivered, reread)));
            && Exposed(v, h, tok) && TokenOn(v, h) == tok && Overtaken(v, h)
            && id in v.calls && v.calls[id].Holding? && v.calls[id].pc == ToRun(Join) && v.calls[id].host == h
  {
    var c, hist := u.calls[id], u.hosts[h].history;
    var o := SettingStep(hist, c, Delivered, reread);
    assert Current(o.history).status == Current(hist).status.(token := tok);
    assert Step(u, Proceed(id, Attempt(Delivered, reread))) == Settled(u, id, h, o);
  }

  /** An attempt from an older version conflicts, and the launch reads what is stored. */
  lemma AttemptConflicts(u: Sys, id: CallId, h: HostId, tok: string)
    requires Exposed(u, h, tok) && Holder(u, id, h, tok) && u.calls[id].pc == Setting(TokenId, ATTEMPTS, false)
    requires u.calls[id].copy.rv != |u.hosts[h].history| - 1
    ensures var v := Step(u, Proceed(id, Attempt(Delivered, Some(|u.hosts[h].history| - 1))));
            && Exposed(v, h, tok) && Holder(v, id, h, tok)
            && v.hosts[h].history == u.hosts[h].history && v.hosts[h].probe == u.hosts[h].probe
            && v.calls[id].pc == Setting(TokenId, ATTEMPTS - 1, false)
            && v.calls[id].copy.rv == |u.hosts[h].history| - 1
  {
    var o := SettingStep(u.hosts[h].history, u.calls[id], Delivered, Some(|u.hosts[h].history| - 1));
    assert Step(u, Proceed(id, Attempt(Delivered, Some(|u.hosts[h].history| - 1)))) == Settled(u, id, h, o);
  }

  lemma AttemptIdles(u: Sys, id: CallId, h: HostId)
    requires id in u.calls && u.calls[id].Holding? && u.calls[id].pc == ToRun(Join) && u.calls[id].host == h && h in u.hosts
    ensures Step(u, Proceed(id, Attempt(Delivered, None))) == u
  {
    var o := HoldingStep(u.hosts[h].history, u.calls[id], Attempt(Delivered, None));
    assert o == Outcome(Some(u.calls[id]), u.hosts[h].history, Quiet);
    assert u.calls[id := u.calls[id]] == u.calls && u.hosts[h := u.hosts[h]] == u.hosts;
  }

  function ToRecordBeside(id: CallId, last: nat): seq<Event> {
    [Proceed(id, EnvReady), Proceed(id, Attempt(Delivered, Some(last))), Proceed(id, Attempt(Delivered, None))]
  }

  lemma TwoAttempts(u: Sys, v: Sys, id: CallId, h: HostId, tok: string, last: nat)
    requires Exposed(u, h, tok) && Holder(u, id, h, tok) && u.calls[id].pc == Setting(TokenId, ATTEMPTS, false)
    requires TokenOn(u, h) != tok && last == |u.hosts[h].history| - 1
    requires !u.hosts[h].probe.Idle? ==> u.hosts[h].probe.base.rv < |u.hosts[h].history|
    requires v == Step(u, Proceed(id, Attempt(Delivered, Some(last))))
    ensures var w := Step(v, Proceed(id, Attempt(Delivered, None)));
            Exposed(w, h, tok) && TokenOn(w, h) == tok && Overtaken(w, h)
  {
    if u.calls[id].copy.rv == last {
      AttemptLands(u, id, h, tok, Some(last));
      AttemptIdles(v, id, h);
    } else {
      AttemptConflicts(u, id, h, tok);
      AttemptLands(v, id, h, tok, None);
    }
  }

  lemma RecordsBeside(u: Sys, id: CallId, h: HostId, tok: string)
    requires Exposed(u, h, tok) && Holder(u, id, h, tok) && u.calls[id].pc == Minted && TokenOn(u, h) != tok
    requires !u.hosts[h].probe.Idle? ==> u.hosts[h].probe.base.rv < |u.hosts[h].history|
    ensures var v := Run(u, ToRecordBeside(id, |u.hosts[h].history| - 1));
            Exposed(v, h, tok) && TokenOn(v, h) == tok && Overtaken(v, h)
  {
    var last := |u.hosts[h].history| - 1;
    var v := Step(u, Proceed(id, EnvReady));
    EnvIsReady(u, id, h, tok);
    TwoAttempts(v, Step(v, Proceed(id, Attempt(Delivered, Some(last)))), id, h, tok, last);
    RunThree(u, Proceed(id, EnvReady), Proceed(id, Attempt(Delivered, Some(last))), Proceed(id, Attempt(Delivered, None)));
  }

  // ----- the probe ends what it is doing, and looks again -------------------------------------------------

  /** Only the probe of `h` moved, without writing; nothing joined. */
  predicate ProbeOnly(u: Sys, v: Sys, h: HostId) {
    && h in u.hosts && v.hosts.Keys == u.hosts.Keys && v.hosts[h].history == u.hosts[h].history
    && v.joined == u.joined && v.calls == u.calls
  }

  /** One way for the probe to go on towards its end without writing. */
  function Away(p: Probe): ProbeChoice {
    match p
    case Checking(_) => Looked(Unknown)
    case Reaping(_) => Reap(true)
    case Collecting(_) => Collect(None, false)
    case Probing(_, _) => ProbeFails("")
    case Guarding(_) => NodeLookup(None, "")
    case _ => Write(Delivered, 0)
  }

  lemma GoesAway(u: Sys, h: HostId)
    requires Inv(u) && h in u.hosts && !u.hosts[h].probe.Idle? && Overtaken(u, h) && ClaimOf(u, h).Some?
    ensures var v := Step(u, Observe(h, Away(u.hosts[h].probe)));
            && ProbeOnly(u, v, h) && Overtaken(v, h)
            && (v.hosts[h].probe.Idle? || (v.hosts[h].probe.Patching? && !u.hosts[h].probe.Patching?))
  {
    var host := u.hosts[h];
    assert ProbeOk(host.history, host.probe, u.clock);
    var o := ProbeStep(host.history, host.probe, Away(host.probe), u.clock);
    assert Step(u, Observe(h, Away(host.probe))) == Observed(u, h, o);
  }

  lemma TameAway(u: Sys, h: HostId)
    requires h in u.hosts
    ensures Tame(u, Observe(h, Away(u.hosts[h].probe)))
  {}

  lemma TameCons(u: Sys, e: Event, es: seq<Event>)
    requires Tame(u, e) && TameRun(Step(u, e), es)
    ensures TameRun(u, [e] + es)
  {
    var all := [e] + es;
    forall k | 0 <= k < |all| ensures Tame(Run(u, all[..k]), all[k]) {
      if k > 0 {
        assert all[..k] == [e] + es[..k - 1];
        RunCons(u, e, es[..k - 1]);
      } else {
        assert all[..0] == [];
      }
    }
  }

  lemma Quiesces(u: Sys, h: HostId, steps: nat) returns (es: seq<Event>)
    requires Inv(u) && h in u.hosts && Overtaken(u, h) && ClaimOf(u, h).Some?
    requires u.hosts[h].probe.Idle? || steps >= 2 || (steps >= 1 && u.hosts[h].probe.Patching?)
    ensures TameRun(u, es) && ProbeOnly(u, Run(u, es), h) && Run(u, es).hosts[h].probe.Idle?
    decreases steps
  {
    if u.hosts[h].probe.Idle? {
      es := [];
    } else {
      var e := Observe(h, Away(u.hosts[h].probe));
      GoesAway(u, h);
      TameAway(u, h);
      StepInv(u, e);
      var rest := Quiesces(Step(u, e), h, steps - 1);
      es := [e] + rest;
      TameCons(u, e, rest);
      RunCons(u, e, rest);
    }
  }

  lemma LooksAgain(u: Sys, h: HostId, tok: string)
    requires Exposed(u, h, tok) && TokenOn(u, h) == tok && tok != "" && u.hosts[h].probe.Idle?
    ensures var v := Step(Step(u, Reconcile(h, |u.hosts[h].history| - 1)), Observe(h, Looked(Alive)));
            AboutToCollect(v, h, tok) && v.joined == u.joined
  {
    var base := Newest(u.hosts[h].history);
    assert AfterRead(base, u.clock) == Checking(base);
    var v := Step(u, Reconcile(h, |u.hosts[h].history| - 1));
    assert v.hosts[h].probe == Checking(base) && v.joined == u.joined;
  }

  lemma {:induction false} TameConcat(u: Sys, a: seq<Event>, b: seq<Event>)
    requires TameRun(u, a) && TameRun(Run(u, a), b)
    ensures TameRun(u, a + b)
  {
    var all := a + b;
    forall k | 0 <= k < |all| ensures Tame(Run(u, all[..k]), all[k]) {
      if k < |a| {
        assert all[..k] == a[..k];
      } else {
        assert all[..k] == a + b[..k - |a|];
        RunConcat(u, a, b[..k - |a|]);
      }
    }
  }

  lemma {:induction false} RunInvFrom(s: Sys, events: seq<Event>)
    requires Inv(s)
    ensures Inv(Run(s, events))
  {
    if events != [] {
      RunInvFrom(s, events[..|events| - 1]);
      StepInv(Run(s, events[..|events| - 1]), events[|events| - 1]);
    }
  }

  lemma RunTwo(s: Sys, a: Event, b: Event)
    ensures Run(s, [a, b]) == Step(Step(s, a), b)
  {
    assert [a, b] == [a] + [b] && [b] == [b] + [];
    RunCons(s, a, [b]);
    RunCons(Step(s, a), b, []);
  }

  lemma Collects(u: Sys, h: HostId, tok: string) returns (more: seq<Event>)
    requires Inv(u) && Exposed(u, h, tok) && TokenOn(u, h) == tok && tok != "" && Overtaken(u, h)
    ensures TameRun(u, more)
    ensures var v := Run(u, more);
            AboutToCollect(v, h, tok) && tok !in v.joined
  {
    var es := Quiesces(u, h, 2);
    var v := Run(u, es);
    var look := [Reconcile(h, |v.hosts[h].history| - 1), Observe(h, Looked(Alive))];
    LooksAgain(v, h, tok);
    RunTwo(v, look[0], look[1]);
    TameLook(v, look);
    TameConcat(u, es, look);
    RunConcat(u, es, look);
    more := es + look;
  }

  lemma TameLook(v: Sys, look: seq<Event>)
    requires |look| == 2 && look[0].Reconcile? && look[1].Observe? && look[1].observation == Looked(Alive)
    ensures TameRun(v, look)
  {}

  /** Beside a recorded providerID, the token can be collected before its join is sent. */
  lemma CollectedBeforeJoin(t: Sys, e: Event, h: HostId, tok: string) returns (more: seq<Event>)
    requires Inv(t) && OrderInv(t) && TokenInv(t) && Mints(t, e, tok, h) && ProviderOn(t, h) != ""
    ensures TameRun(Step(t, e), more)
    ensures var v := Run(Step(t, e), more);
            AboutToCollect(v, h, tok) && tok !in v.joined
  {
    var u := Step(t, e);
    HolderAfterMint(t, e, h, tok);
    StepInv(t, e);
    more := CollectsBeside(u, e.id, h, tok);
  }

  lemma CollectsBeside(u: Sys, id: CallId, h: HostId, tok: string) returns (more: seq<Event>)
    requires Inv(u) && Exposed(u, h, tok) && Holder(u, id, h, tok) && u.calls[id].pc == Minted && TokenOn(u, h) != tok
    requires tok != ""
    ensures TameRun(u, more)
    ensures var v := Run(u, more);
            AboutToCollect(v, h, tok) && tok !in v.joined
  {
    assert ProbeOk(u.hosts[h].history, u.hosts[h].probe, u.clock);
    var record := ToRecordBeside(id, |u.hosts[h].history| - 1);
    RecordsBeside(u, id, h, tok);
    RunInvFrom(u, record);
    var rest := Collects(Run(u, record), h, tok);
    TameProceeds(u, record, tok);
    TameConcat(u, record, rest);
    RunConcat(u, record, rest);
    more := record + rest;
  }

  // ----- exactly ----------------------------------------------------------------------------------------------

  /** Whatever follows, the probe waits for the join before it collects `tok`. */
  ghost predicate SafeToCollect(u: Sys, tok: string) {
    forall more: seq<Event>, g: HostId ::
      TameRun(u, more) && AboutToCollect(Run(u, more), g, tok) ==> tok in Run(u, more).joined
  }

  lemma MintedStays(s: Sys, e: Event, tok: string)
    requires tok in s.minted
    ensures tok in Step(s, e).minted
  {}

  lemma {:induction false} MintedForGood(u: Sys, more: seq<Event>, tok: string)
    requires tok in u.minted
    ensures tok in Run(u, more).minted
  {
    if more != [] {
      MintedForGood(u, more[..|more| - 1], tok);
      MintedStays(Run(u, more[..|more| - 1]), more[|more| - 1], tok);
    }
  }

  lemma MintedOnce(u: Sys, more: seq<Event>, tok: string)
    requires tok in u.minted
    ensures NeverMintedBeside(u, more, tok)
  {
    forall k | 0 <= k < |more| ensures !MintsBeside(Run(u, more[..k]), more[k], tok) {
      MintedForGood(u, more[..k], tok);
    }
  }

  /** In tame runs, a freshly minted token is never collected before its join succeeded
      if and only if no providerID was recorded when it was minted. */
  lemma SafeExactlyWithoutProvider(s: Sys, events: seq<Event>, e: Event, h: HostId, tok: string)
    requires Initial(s) && TameRun(s, events) && Mints(Run(s, events), e, tok, h) && Tame(Run(s, events), e)
    ensures SafeToCollect(Step(Run(s, events), e), tok) <==> ProviderOn(Run(s, events), h) == ""
  {
    var t := Run(s, events);
    RunInv(s, events);
    RunOrder(s, events);
    RunTokens(s, events);
    if ProviderOn(t, h) != "" {
      var more := CollectedBeforeJoin(t, e, h, tok);
    } else {
      UnmintedJoins(t, tok);
      StaysSafe(t, e, h, tok);
    }
  }

  lemma MintIsBooked(t: Sys, e: Event, h: HostId, tok: string)
    requires Mints(t, e, tok, h)
    ensures tok in Step(t, e).minted
  {
    var o := HoldingStep(t.hosts[h].history, t.calls[e.id], e.choice);
    assert Step(t, e) == Settled(t, e.id, h, o);
  }

  lemma StaysSafe(t: Sys, e: Event, h: HostId, tok: string)
    requires Inv(t) && OrderInv(t) && TokenInv(t) && JoinInv(t, tok) && Tame(t, e)
    requires Mints(t, e, tok, h) && ProviderOn(t, h) == ""
    ensures SafeToCollect(Step(t, e), tok)
  {
    var u := Step(t, e);
    StepInv(t, e);
    StepOrder(t, e);
    StepTokens(t, e);
    StepJoins(t, e, tok);
    MintIsBooked(t, e, h, tok);
    forall more: seq<Event>, g: HostId | TameRun(u, more) && AboutToCollect(Run(u, more), g, tok)
      ensures tok in Run(u, more).joined
    {
      MintedOnce(u, more, tok);
      RunJoinsFrom(u, more, tok);
      CollectingJoined(Run(u, more), g, tok);
    }
  }
}
