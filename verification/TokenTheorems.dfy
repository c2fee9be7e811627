/**
 What becomes of one bootstrap token, in tame runs: it is never orphaned and never
 forgotten before it was deleted, unless a launch is opened over the record of
 it; and a launch opened over it can lose it.
 */
module TokenTheorems {
  import opened Options
  import opened Records
  import opened Ledger
  import opened Protocol
  import opened Invariant
  import opened Orderly
  import opened AnsweredRuns
  import opened Tokens

  function TokenOn(s: Sys, h: HostId): string
    requires h in s.hosts
  {
    Current(s.hosts[h].history).status.token
  }

  /** The event opens a launch on a record that shows token `tok`: the NodeClaim's
      earlier launch recorded it and ended. */
  predicate OpensOver(s: Sys, e: Event, tok: string) {
    && e.Open? && e.kind == Launch && e.id !in s.calls && e.host in s.hosts
    && HeldBy(Current(s.hosts[e.host].history).status, e.nc) && TokenOn(s, e.host) == tok
  }

  ghost predicate NeverOpenedOver(s: Sys, events: seq<Event>, tok: string) {
    forall k :: 0 <= k < |events| ==> !OpensOver(Run(s, events[..k]), events[k], tok)
  }

  /** `tok` exists somewhere it can be found again: its deletion failed, or the launch
      it was minted for holds it and has yet to record or delete it, or the host it was
      minted for records it under the NodeClaim it was minted for. */
  ghost predicate Accounted(s: Sys, tok: string) {
    && tok in s.minted
    && var Owner(nc, h) := s.minted[tok];
       || tok in s.undeleted
       || (exists id <- s.calls :: HoldsToken(s.calls[id], tok) && s.calls[id].nc == nc && s.calls[id].host == h)
       || (h in s.hosts && TokenOn(s, h) == tok && ClaimOf(s, h) == Some(nc))
  }

  /** A launch on a record that shows `tok` is the one that minted it. */
  ghost predicate Mine(s: Sys, tok: string) {
    forall id <- s.calls :: MineToo(s, s.calls[id], tok)
  }

  predicate MineToo(s: Sys, c: Call, tok: string) {
    c.Holding? && c.kind == Launch && c.host in s.hosts && TokenOn(s, c.host) == tok ==> c.token == tok
  }

  ghost predicate KeepInv(s: Sys, tok: string) {
    Mine(s, tok) && (tok in s.live ==> Accounted(s, tok))
  }

  // ----- one step --------------------------------------------------------------------------------

  /** What one event does to the record of `tok` on host `h`. */
  predicate Remembers(s: Sys, t: Sys, h: HostId, tok: string) {
    h in s.hosts ==> h in t.hosts && (TokenOn(s, h) == tok && TokenOn(t, h) != tok ==> Spent(BooksOf(t), tok))
  }

  ghost predicate Kept(s: Sys, t: Sys, tok: string) {
    KeepInv(t, tok) && forall g :: Remembers(s, t, g, tok)
  }

  lemma MovedRemembers(s: Sys, t: Sys, h: HostId, id: Option<CallId>, next: Option<Call>, e: Effect, tok: string)
    requires Moved(s, t, h, id, next, e) && Mine(s, tok)
    ensures forall g :: Remembers(s, t, g, tok)
  {
    if id.Some? {
      assert MineToo(s, s.calls[id.value], tok);
    }
  }

  /** Holding `tok` is holding it for the owner. */
  lemma HolderOwns(s: Sys, id: CallId, tok: string)
    requires TokenInv(s) && id in s.calls && HoldsToken(s.calls[id], tok) && tok != ""
    ensures tok in s.minted && s.minted[tok] == Owner(s.calls[id].nc, s.calls[id].host)
  {
    assert CallBooked(s, s.calls[id]);
  }

  /** Recording `tok` is recording it for the owner. */
  lemma RecordOwns(s: Sys, h: HostId, tok: string)
    requires TokenInv(s) && h in s.hosts && TokenOn(s, h) == tok && tok != ""
    ensures tok in s.minted && ClaimOf(s, h).Some? && s.minted[tok] == Owner(ClaimOf(s, h).value, h)
  {
    assert HostTokens(BooksOf(s), h, s.hosts[h]);
    assert VersionTokens(BooksOf(s), h, StatusAt(s.hosts[h].history, |s.hosts[h].history| - 1));
  }

  lemma MovedAccounts(s: Sys, t: Sys, h: HostId, id: Option<CallId>, next: Option<Call>, e: Effect, tok: string)
    requires TokenInv(s) && TokenInv(t) && KeepInv(s, tok) && Moved(s, t, h, id, next, e) && tok in t.live
    ensures Accounted(t, tok)
  {
    MovedRemembers(s, t, h, id, next, e, tok);
    if e.Created? && tok == e.token {
      HolderOwns(t, id.value, tok);
    } else if tok !in t.undeleted {
      assert tok in s.live && !Spent(BooksOf(t), tok);
      if i :| i in s.calls && HoldsToken(s.calls[i], tok) {
        HeldAccounts(s, t, h, id, next, e, tok, i);
      } else {
        var g := s.minted[tok].host;
        assert Remembers(s, t, g, tok);
        RecordOwns(t, g, tok);
      }
    }
  }

  lemma HeldAccounts(s: Sys, t: Sys, h: HostId, id: Option<CallId>, next: Option<Call>, e: Effect, tok: string, i: CallId)
    requires TokenInv(t) && Moved(s, t, h, id, next, e) && tok in t.live && !Spent(BooksOf(t), tok)
    requires i in s.calls && HoldsToken(s.calls[i], tok)
    ensures Accounted(t, tok)
  {
    if id == Some(i) && !(next.Some? && HoldsToken(next.value, tok)) {
      RecordOwns(t, h, tok);
    } else {
      HolderOwns(t, i, tok);
    }
  }

  /** The other calls on the host see no new token. */
  lemma MovedMine(s: Sys, t: Sys, h: HostId, id: Option<CallId>, next: Option<Call>, e: Effect, tok: string)
    requires Mine(s, tok) && Moved(s, t, h, id, next, e) && tok != ""
    requires next.Some? && next.value.Holding? ==> next.value.host == h
    requires id.Some? ==> forall i <- s.calls | id != Some(i) && s.calls[i].Holding? && s.calls[i].host == h ::
               TokenOn(t, h) == TokenOn(s, h)
    ensures Mine(t, tok)
  {
    forall i <- t.calls ensures MineToo(t, t.calls[i], tok) {
      if id == Some(i) {
        assert MineToo(s, s.calls[i], tok);
      } else {
        assert MineToo(s, s.calls[i], tok);
      }
    }
  }

  lemma MovedKeeps(s: Sys, t: Sys, h: HostId, id: Option<CallId>, next: Option<Call>, e: Effect, tok: string)
    requires TokenInv(s) && TokenInv(t) && KeepInv(s, tok) && Moved(s, t, h, id, next, e) && tok != ""
    requires next.Some? && next.value.Holding? ==> next.value.host == h
    requires id.Some? ==> forall i <- s.calls | id != Some(i) && s.calls[i].Holding? && s.calls[i].host == h ::
               TokenOn(t, h) == TokenOn(s, h)
    ensures KeepInv(t, tok)
  {
    MovedMine(s, t, h, id, next, e, tok);
    if tok in t.live {
      MovedAccounts(s, t, h, id, next, e, tok);
    }
  }

  lemma CallKeeps(s: Sys, id: CallId, ch: CallChoice, h: HostId, tok: string)
    requires Inv(s) && OrderInv(s) && TokenInv(s) && KeepInv(s, tok) && tok != ""
    requires AnsweredChoice(ch) && Works(s, id, ch, h)
    ensures Kept(s, CallStep(s, id, ch), tok)
  {
    var o := CallOutcome(s.hosts[h].history, s.calls[id], ch);
    CallTokenStep(s, id, ch, h, o);
    SettledKeeps(s, id, h, o, tok);
    CallStepSettles(s, id, ch, h);
  }

  lemma SettledKeeps(s: Sys, id: CallId, h: HostId, o: Outcome, tok: string)
    requires OrderInv(s) && TokenInv(s) && KeepInv(s, tok) && tok != "" && Settles(s, id, h, o)
    requires UniqueMint(BooksOf(s), o.effect)
    requires TokenStep(BooksOf(s), h, s.hosts[h].history, o.history, Some(s.calls[id]), o.next, o.effect)
    ensures Kept(s, Settled(s, id, h, o), tok)
  {
    var t := Settled(s, id, h, o);
    SettledTokens(s, id, h, o);
    SettledMoved(s, id, h, o);
    SettledProbe(s, id, h, o);
    forall i <- s.calls | i != id && s.calls[i].Holding? && s.calls[i].host == h ensures TokenOn(t, h) == TokenOn(s, h) {
      OtherCallsDoNotWrite(s, id, h, o, i);
    }
    MovedKeeps(s, t, h, Some(id), o.next, o.effect, tok);
    MovedRemembers(s, t, h, Some(id), o.next, o.effect, tok);
  }

  lemma ObservedKeeps(s: Sys, h: HostId, o: ProbeOutcome, tok: string)
    requires h in s.hosts && TokenInv(s) && TokenInv(Observed(s, h, o)) && KeepInv(s, tok) && tok != ""
    requires ProbeGuarantee(s.hosts[h].history, o, s.clock) && UniqueMint(BooksOf(s), o.effect)
    requires TokenStep(BooksOf(s), h, s.hosts[h].history, o.history, None, None, o.effect)
    ensures Kept(s, Observed(s, h, o), tok)
  {
    ObservedMoved(s, h, o);
    MovedKeeps(s, Observed(s, h, o), h, None, None, o.effect, tok);
    MovedRemembers(s, Observed(s, h, o), h, None, None, o.effect, tok);
  }

  lemma ProbeTokenStep(s: Sys, h: HostId, ch: ProbeChoice, o: ProbeOutcome)
    requires Inv(s) && TokenInv(s) && h in s.hosts && (ch.Write? ==> ch.fate == Delivered)
    requires o == ProbeStep(s.hosts[h].history, s.hosts[h].probe, ch, s.clock)
    ensures ProbeGuarantee(s.hosts[h].history, o, s.clock) && UniqueMint(BooksOf(s), o.effect)
    ensures TokenStep(BooksOf(s), h, s.hosts[h].history, o.history, None, None, o.effect)
  {
    var host := s.hosts[h];
    assert HostTokens(BooksOf(s), h, host);
    ProbeStepOk(host.history, host.probe, ch, s.clock);
    ProbeStepTokens(BooksOf(s), h, host.history, host.probe, ch, s.clock);
  }

  lemma ObserveKeeps(s: Sys, h: HostId, ch: ProbeChoice, tok: string)
    requires Inv(s) && OrderInv(s) && TokenInv(s) && KeepInv(s, tok) && tok != "" && h in s.hosts
    requires Tame(s, Observe(h, ch))
    ensures Kept(s, Step(s, Observe(h, ch)), tok)
  {
    var o := ProbeStep(s.hosts[h].history, s.hosts[h].probe, ch, s.clock);
    ObserveTokens(s, h, ch);
    ProbeTokenStep(s, h, ch, o);
    ObservedKeeps(s, h, o, tok);
  }

  /** Nothing that matters to tokens happened to the store or to the calls. */
  predicate SameRecords(s: Sys, t: Sys) {
    && t.hosts.Keys == s.hosts.Keys && BooksOf(t) == BooksOf(s)
    && forall h <- s.hosts :: Current(t.hosts[h].history).status == Current(s.hosts[h].history).status
  }

  lemma SameKeeps(s: Sys, t: Sys, tok: string)
    requires KeepInv(s, tok) && SameRecords(s, t)
    requires forall i <- s.calls :: (s.calls[i].Holding? ==> i in t.calls && t.calls[i] == s.calls[i])
    requires forall i <- t.calls :: (i in s.calls && t.calls[i] == s.calls[i]) || MineToo(t, t.calls[i], tok)
    ensures Kept(s, t, tok)
  {
    forall i <- t.calls ensures MineToo(t, t.calls[i], tok) {
      if i in s.calls && t.calls[i] == s.calls[i] {
        assert MineToo(s, s.calls[i], tok);
      }
    }
    if tok in t.live {
      assert Accounted(s, tok);
      if i :| i in s.calls && HoldsToken(s.calls[i], tok) && s.calls[i].nc == s.minted[tok].nc
              && s.calls[i].host == s.minted[tok].host {
        assert HoldsToken(t.calls[i], tok);
      }
    }
  }

  lemma QuietRecords(s: Sys, e: Event)
    requires !e.Open? && !e.Proceed? && !e.Observe?
    ensures SameRecords(s, Step(s, e))
  {
    if e.Edit? {
      EditRecords(s, e);
    }
  }

  lemma EditRecords(s: Sys, e: Event)
    requires e.Edit?
    ensures SameRecords(s, Step(s, e))
  {}

  lemma QuietCalls(s: Sys, e: Event)
    requires !e.Open? && !e.Proceed? && !e.Observe?
    ensures var t := Step(s, e);
            && (forall i <- s.calls :: i in t.calls && t.calls[i] == s.calls[i])
            && (forall i <- t.calls :: (i in s.calls && t.calls[i] == s.calls[i]) || t.calls[i].Seeking?)
  {}

  /** Events that touch neither a token nor a call that has a host. */
  lemma QuietKeeps(s: Sys, e: Event, tok: string)
    requires KeepInv(s, tok) && !e.Open? && !e.Proceed? && !e.Observe?
    ensures Kept(s, Step(s, e), tok)
  {
    QuietRecords(s, e);
    QuietCalls(s, e);
    SameKeeps(s, Step(s, e), tok);
  }

  lemma OpenKeeps(s: Sys, e: Event, tok: string)
    requires Tame(s, e) && KeepInv(s, tok) && tok != "" && e.Open? && !OpensOver(s, e, tok)
    ensures Kept(s, Step(s, e), tok)
  {
    SameKeeps(s, Step(s, e), tok);
  }

  lemma GiveUpKeeps(s: Sys, id: CallId, tok: string)
    requires KeepInv(s, tok) && id in s.calls && s.calls[id].Seeking?
    ensures Kept(s, WithCall(s, id, None), tok)
  {
    SameKeeps(s, WithCall(s, id, None), tok);
  }

  lemma ProceedKeeps(s: Sys, id: CallId, ch: CallChoice, tok: string)
    requires Inv(s) && OrderInv(s) && TokenInv(s) && KeepInv(s, tok) && tok != "" && AnsweredChoice(ch)
    ensures Kept(s, CallStep(s, id, ch), tok)
  {
    if id in s.calls && FreshMint(s, ch) {
      var target := CallTarget(s.calls[id], ch);
      if s.calls[id].Seeking? && ch.GiveUp? {
        GiveUpKeeps(s, id, tok);
      } else if target.Some? && target.value in s.hosts {
        CallKeeps(s, id, ch, target.value, tok);
      }
    }
  }

  lemma StepKeeps(s: Sys, e: Event, tok: string)
    requires Inv(s) && OrderInv(s) && TokenInv(s) && KeepInv(s, tok) && tok != ""
    requires Tame(s, e) && !OpensOver(s, e, tok)
    ensures Kept(s, Step(s, e), tok)
  {
    match e
    case Open(_, _, _, _, _) => OpenKeeps(s, e, tok);
    case Proceed(id, ch) => ProceedKeeps(s, id, ch, tok);
    case Observe(h, ch) => if h in s.hosts { ObserveKeeps(s, h, ch, tok); }
    case _ => QuietKeeps(s, e, tok);
  }

  /** Everything that holds in tame runs, of one token. */
  ghost predicate AllInv(s: Sys, tok: string) {
    Inv(s) && OrderInv(s) && TokenInv(s) && KeepInv(s, tok)
  }

  lemma {:induction false} RunKeepsFrom(s: Sys, events: seq<Event>, tok: string)
    requires AllInv(s, tok) && TameRun(s, events) && NeverOpenedOver(s, events, tok) && tok != ""
    ensures AllInv(Run(s, events), tok)
  {
    if events != [] {
      var before, last := events[..|events| - 1], events[|events| - 1];
      assert forall k :: 0 <= k < |before| ==> before[..k] == events[..k];
      RunKeepsFrom(s, before, tok);
      var t := Run(s, before);
      StepInv(t, last);
      StepOrder(t, last);
      StepTokens(t, last);
      StepKeeps(t, last, tok);
    }
  }

  lemma InitialAll(s: Sys, tok: string)
    requires Initial(s)
    ensures AllInv(s, tok)
  {
    var none: seq<Event> := [];
    assert Run(s, none) == s;
    RunInv(s, none);
    RunOrder(s, none);
    RunTokens(s, none);
  }

  lemma RunKeeps(s: Sys, events: seq<Event>, tok: string)
    requires Initial(s) && TameRun(s, events) && NeverOpenedOver(s, events, tok) && tok != ""
    ensures AllInv(Run(s, events), tok)
  {
    InitialAll(s, tok);
    RunKeepsFrom(s, events, tok);
  }

  // ----- the theorems ----------------------------------------------------------------------------------

  /** No token is orphaned: in every tame run in which no launch is opened over the
      record of it, an existing token is accounted for, under the NodeClaim and on the
      host it was minted for. */
  lemma NoTokenIsOrphaned(s: Sys, events: seq<Event>, tok: string)
    requires Initial(s) && TameRun(s, events) && NeverOpenedOver(s, events, tok)
    requires tok in Run(s, events).live
    ensures Accounted(Run(s, events), tok)
  {
    RunTokens(s, events);
    RunKeeps(s, events, tok);
  }

  /** A recorded token id is cleared or replaced only once that token was deleted, or
      its deletion was tried and failed. */
  lemma ForgottenOnlyOnceDeleted(s: Sys, events: seq<Event>, e: Event, h: HostId, tok: string)
    requires Initial(s) && TameRun(s, events) && NeverOpenedOver(s, events, tok) && tok != ""
    requires Tame(Run(s, events), e) && h in Run(s, events).hosts && TokenOn(Run(s, events), h) == tok
    ensures var u := Step(Run(s, events), e);
            h in u.hosts && (TokenOn(u, h) != tok ==> tok !in u.live || tok in u.undeleted)
  {
    var t := Run(s, events);
    RunKeeps(s, events, tok);
    if OpensOver(t, e, tok) {
      assert Step(t, e).hosts == t.hosts;
    } else {
      StepKeeps(t, e, tok);
      assert Remembers(t, Step(t, e), h, tok);
    }
  }

  // ----- the condition is exact ---------------------------------------------------------------------------

  /** A launch on `h` is the only thing that happened since `t`, it has read what is
      stored, and what is stored still shows `tok`. */
  ghost predicate Midway(t: Sys, u: Sys, id: CallId, c: Call, tok: string) {
    && c.Holding? && c.kind == Launch && c.host in t.hosts
    && u.hosts.Keys == t.hosts.Keys && (forall g <- t.hosts :: g != c.host ==> u.hosts[g] == t.hosts[g])
    && u.calls == t.calls[id := c] && u.live == t.live && u.undeleted == t.undeleted && u.minted == t.minted
    && TokenOn(u, c.host) == tok && c.copy == Newest(u.hosts[c.host].history)
  }

  lemma MidwayLocal(t: Sys, u: Sys, id: CallId, c: Call, ch: CallChoice, tok: string) returns (v: Sys)
    requires Midway(t, u, id, c, tok) && !c.pc.Setting? && !c.pc.Releasing? && !ch.Mint?
    requires var m := LocalMove(c, ch); m.next.Some? && m.next.value.Holding? && (m.effect.Quiet? || m.effect.Phased?)
    requires LocalMove(c, ch).next.value.host == c.host && LocalMove(c, ch).next.value.kind == Launch
    requires LocalMove(c, ch).next.value.copy == c.copy
    ensures v == Step(u, Proceed(id, ch)) && Midway(t, v, id, LocalMove(c, ch).next.value, tok)
  {
    v := Step(u, Proceed(id, ch));
    var m := LocalMove(c, ch);
    assert v == Settled(u, id, c.host, Outcome(m.next, u.hosts[c.host].history, m.effect));
    MidwaySettled(t, u, id, c, m.next.value, m.effect, tok);
  }

  lemma MidwaySettled(t: Sys, u: Sys, id: CallId, c: Call, d: Call, e: Effect, tok: string)
    requires Midway(t, u, id, c, tok) && (e.Quiet? || e.Phased?)
    requires d.Holding? && d.host == c.host && d.kind == Launch && d.copy == c.copy
    ensures Midway(t, Settled(u, id, c.host, Outcome(Some(d), u.hosts[c.host].history, e)), id, d, tok)
  {
    assert u.calls[id := d] == t.calls[id := d];
  }

  /** A setter whose copy is what is stored succeeds at once. */
  lemma SetterLands(hist: History, c: Call)
    requires c.Holding? && c.pc.Setting? && c.copy == Newest(hist)
    ensures var o := SettingStep(hist, c, Delivered, None);
            && Current(o.history).status == Mutated(c, c.pc.field, Current(hist).status) && o.effect == Quiet
            && o.next == AfterSetting(c.(copy := Newest(o.history)), c.pc.field, c.pc.healthy, true)
  {}

  lemma MidwayMarker(t: Sys, u: Sys, id: CallId, c: Call, tok: string) returns (v: Sys, d: Call)
    requires Midway(t, u, id, c, tok) && c.pc == Setting(Marker, ATTEMPTS, false)
    ensures v == Step(u, Proceed(id, Attempt(Delivered, None))) && Midway(t, v, id, d, tok)
    ensures d.pc == Minting && d.nc == c.nc && d.host == c.host
  {
    var o := SettingStep(u.hosts[c.host].history, c, Delivered, None);
    SetterLands(u.hosts[c.host].history, c);
    v := Step(u, Proceed(id, Attempt(Delivered, None)));
    d := o.next.value;
    assert v == Settled(u, id, c.host, o);
    assert u.calls[id := d] == t.calls[id := d];
  }

  lemma MidwayMint(t: Sys, u: Sys, id: CallId, c: Call, tok: string, other: string) returns (v: Sys, d: Call)
    requires Midway(t, u, id, c, tok) && c.pc == Minting && other != "" && other !in t.minted
    ensures v == Step(u, Proceed(id, Mint(other)))
    ensures d == c.(token := other, pc := Minted)
    ensures Midway(t.(live := t.live + {other}, minted := t.minted[other := Owner(c.nc, c.host)]), v, id, d, tok)
  {
    v := Step(u, Proceed(id, Mint(other)));
    d := c.(token := other, pc := Minted);
    assert u.calls[id := d] == t.calls[id := d];
  }

  lemma MidwayRecord(t: Sys, u: Sys, id: CallId, c: Call, tok: string)
    requires Midway(t, u, id, c, tok) && c.pc == Setting(TokenId, ATTEMPTS, false) && c.token != tok && tok != ""
    requires id !in t.calls && tok in t.live && tok !in t.undeleted
    requires forall i <- t.calls :: !HoldsToken(t.calls[i], tok)
    requires forall g <- t.hosts :: TokenOn(t, g) == tok ==> g == c.host
    ensures var v := Step(u, Proceed(id, Attempt(Delivered, None))); tok in v.live && !Accounted(v, tok)
  {
    var o := SettingStep(u.hosts[c.host].history, c, Delivered, None);
    SetterLands(u.hosts[c.host].history, c);
    var v := Step(u, Proceed(id, Attempt(Delivered, None)));
    assert v == Settled(u, id, c.host, o);
    forall g <- v.hosts ensures TokenOn(v, g) != tok {
      assert g != c.host ==> v.hosts[g] == t.hosts[g];
    }
    forall i <- v.calls ensures !HoldsToken(v.calls[i], tok) {
      assert i != id ==> v.calls[i] == t.calls[i];
    }
  }

  lemma {:induction false} RunCons(s: Sys, e: Event, es: seq<Event>)
    ensures Run(s, [e] + es) == Run(Step(s, e), es)
    decreases |es|
  {
    if es == [] {
      assert [e] + es == [e] && [e][..0] == [];
    } else {
      var before := es[..|es| - 1];
      assert ([e] + es)[..|es|] == [e] + before && ([e] + es)[|es|] == es[|es| - 1];
      RunCons(s, e, before);
    }
  }

  lemma {:induction false} RunConcat(s: Sys, a: seq<Event>, b: seq<Event>)
    ensures Run(s, a + b) == Run(Run(s, a), b)
    decreases |a|
  {
    if a == [] {
      assert a + b == b;
    } else {
      assert a == [a[0]] + a[1..] && a + b == [a[0]] + (a[1..] + b);
      RunCons(s, a[0], a[1..] + b);
      RunCons(s, a[0], a[1..]);
      RunConcat(Step(s, a[0]), a[1..], b);
    }
  }

  lemma RunFour(s: Sys, a: Event, b: Event, c: Event, d: Event)
    ensures Run(s, [a, b, c, d]) == Step(Step(Step(Step(s, a), b), c), d)
  {
    assert [a, b, c, d] == [a] + [b, c, d];
    RunCons(s, a, [b, c, d]);
    RunThree(Step(s, a), b, c, d);
  }

  lemma RunThree(s: Sys, a: Event, b: Event, c: Event)
    ensures Run(s, [a, b, c]) == Step(Step(Step(s, a), b), c)
  {
    assert [a, b, c] == [a] + ([b] + ([c] + []));
    RunCons(s, a, [b] + ([c] + []));
    RunCons(Step(s, a), b, [c] + []);
    RunCons(Step(Step(s, a), b), c, []);
  }

  /** How a resumed launch comes to mint: with an install, when one is due. */
  function ToMinting(id: CallId, marker: string): seq<Event> {
    [Proceed(id, Configured(marker)), Proceed(id, Send), Proceed(id, Finish(true)), Proceed(id, Attempt(Delivered, None))]
  }

  /** And how it goes on to record its token. */
  function ToRecord(id: CallId, other: string): seq<Event> {
    [Proceed(id, Mint(other)), Proceed(id, EnvReady), Proceed(id, Attempt(Delivered, None))]
  }

  lemma InstalledMints(t: Sys, u: Sys, id: CallId, c: Call, tok: string, marker: string) returns (v: Sys, d: Call)
    requires Midway(t, u, id, c, tok) && c.pc == Preparing && marker != "" && c.copy.version.status.installed == marker
    ensures v == Step(Step(Step(Step(u, Proceed(id, Configured(marker))), Proceed(id, Send)), Proceed(id, Finish(true))),
                      Proceed(id, Attempt(Delivered, None)))
    ensures Midway(t, v, id, d, tok) && d.pc == Minting && d.nc == c.nc && d.host == c.host
  {
    d := c.(marker := marker, pc := Minting);
    v := MidwayLocal(t, u, id, c, Configured(marker), tok);
    v := MidwayLocal(t, v, id, d, Send, tok);
    v := MidwayLocal(t, v, id, d, Finish(true), tok);
    v := MidwayLocal(t, v, id, d, Attempt(Delivered, None), tok);
  }

  lemma UninstalledMints(t: Sys, u: Sys, id: CallId, c: Call, tok: string, marker: string) returns (v: Sys, d: Call)
    requires Midway(t, u, id, c, tok) && c.pc == Preparing && marker != "" && c.copy.version.status.installed != marker
    ensures v == Step(Step(Step(Step(u, Proceed(id, Configured(marker))), Proceed(id, Send)), Proceed(id, Finish(true))),
                      Proceed(id, Attempt(Delivered, None)))
    ensures Midway(t, v, id, d, tok) && d.pc == Minting && d.nc == c.nc && d.host == c.host
  {
    var c1 := c.(marker := marker, pc := ToRun(Install));
    v := MidwayLocal(t, u, id, c, Configured(marker), tok);
    var c2 := c1.(pc := Running(Install));
    v := MidwayLocal(t, v, id, c1, Send, tok);
    var c3 := c2.(pc := Setting(Marker, ATTEMPTS, false));
    v := MidwayLocal(t, v, id, c2, Finish(true), tok);
    v, d := MidwayMarker(t, v, id, c3, tok);
  }

  lemma MintsAndRecords(t: Sys, u: Sys, id: CallId, c: Call, tok: string, other: string)
    requires Midway(t, u, id, c, tok) && c.pc == Minting && tok != ""
    requires other != "" && other !in t.minted && tok in t.minted
    requires id !in t.calls && tok in t.live && tok !in t.undeleted
    requires forall i <- t.calls :: !HoldsToken(t.calls[i], tok)
    requires forall g <- t.hosts :: TokenOn(t, g) == tok ==> g == c.host
    ensures var v := Run(u, ToRecord(id, other)); tok in v.live && !Accounted(v, tok)
  {
    var t2 := t.(live := t.live + {other}, minted := t.minted[other := Owner(c.nc, c.host)]);
    var v, d := MidwayMint(t, u, id, c, tok, other);
    var w := MidwayLocal(t2, v, id, d, EnvReady, tok);
    MidwayRecord(t2, w, id, d.(pc := Setting(TokenId, ATTEMPTS, false)), tok);
    RunThree(u, Proceed(id, Mint(other)), Proceed(id, EnvReady), Proceed(id, Attempt(Delivered, None)));
  }

  lemma FreshToken(used: set<string>) returns (t: string)
    ensures t != "" && t !in used
  {
    var n := LengthBound(used);
    t := seq(n + 1, _ => 'x');
  }

  lemma {:induction false} LengthBound(used: set<string>) returns (n: nat)
    ensures forall t <- used :: |t| <= n
  {
    if used == {} {
      n := 0;
    } else {
      var u :| u in used;
      n := LengthBound(used - {u});
      n := if n < |u| then |u| else n;
      assert used == (used - {u}) + {u};
    }
  }

  /** From here on the token stays accounted for, as long as no launch is opened over it. */
  ghost predicate StaysAccounted(s: Sys, tok: string) {
    forall more: seq<Event> :: TameRun(s, more) && NeverOpenedOver(s, more, tok) && tok in Run(s, more).live ==>
      Accounted(Run(s, more), tok)
  }

  /** A token recorded nowhere else, and nowhere held. */
  lemma OnlyRecorded(t: Sys, e: Event, tok: string)
    requires AllInv(t, tok) && OpensOver(t, e, tok) && Tame(t, e) && tok != ""
    ensures tok in t.minted && forall i <- t.calls :: !HoldsToken(t.calls[i], tok)
    ensures forall g <- t.hosts :: TokenOn(t, g) == tok ==> g == e.host
  {
    RecordOwns(t, e.host, tok);
    HeldByBorn(t, e.host, e.nc);
    forall i <- t.calls ensures !HoldsToken(t.calls[i], tok) {
      if HoldsToken(t.calls[i], tok) {
        HolderOwns(t, i, tok);
      }
    }
    forall g <- t.hosts | TokenOn(t, g) == tok ensures g == e.host {
      RecordOwns(t, g, tok);
    }
  }

  lemma TameProceeds(s: Sys, events: seq<Event>, tok: string)
    requires forall k :: 0 <= k < |events| ==> events[k].Proceed? && AnsweredChoice(events[k].choice)
    ensures TameRun(s, events) && NeverOpenedOver(s, events, tok)
  {}

  lemma OpenedMidway(t: Sys, e: Event, tok: string) returns (c: Call)
    requires Tame(t, e) && OpensOver(t, e, tok)
    ensures Midway(t, Step(t, e), e.id, c, tok) && c.pc == Preparing && c.host == e.host
  {
    c := Fresh(e.nc, Launch, Preparing, e.host, Newest(t.hosts[e.host].history));
    assert Step(t, e) == WithCall(t, e.id, Some(c));
  }

  lemma UpToMinting(t: Sys, u: Sys, id: CallId, c: Call, tok: string) returns (marker: string, d: Call)
    requires Midway(t, u, id, c, tok) && c.pc == Preparing
    ensures Midway(t, Run(u, ToMinting(id, marker)), id, d, tok) && d.pc == Minting && d.host == c.host
  {
    var installed := c.copy.version.status.installed;
    marker := if installed == "" then "m" else installed;
    var v;
    if installed == marker {
      v, d := InstalledMints(t, u, id, c, tok, marker);
    } else {
      v, d := UninstalledMints(t, u, id, c, tok, marker);
    }
    RunFour(u, Proceed(id, Configured(marker)), Proceed(id, Send), Proceed(id, Finish(true)),
            Proceed(id, Attempt(Delivered, None)));
  }

  lemma LaunchLosesToken(t: Sys, u: Sys, id: CallId, c: Call, tok: string) returns (more: seq<Event>)
    requires Midway(t, u, id, c, tok) && c.pc == Preparing && tok != "" && tok in t.minted
    requires id !in t.calls && tok in t.live && tok !in t.undeleted
    requires forall i <- t.calls :: !HoldsToken(t.calls[i], tok)
    requires forall g <- t.hosts :: TokenOn(t, g) == tok ==> g == c.host
    ensures TameRun(u, more) && NeverOpenedOver(u, more, tok)
    ensures tok in Run(u, more).live && !Accounted(Run(u, more), tok)
  {
    var marker, d := UpToMinting(t, u, id, c, tok);
    var other := FreshToken(t.minted.Keys);
    MintsAndRecords(t, Run(u, ToMinting(id, marker)), id, d, tok, other);
    more := ToMinting(id, marker) + ToRecord(id, other);
    RunConcat(u, ToMinting(id, marker), ToRecord(id, other));
    TameProceeds(u, more, tok);
  }

  /** A launch opened over the record of a token can go on to lose it: it records its
      own in the old one's place, and nobody knows the old one any more. */
  lemma ResumeOrphansRecordedToken(t: Sys, e: Event, tok: string) returns (more: seq<Event>)
    requires AllInv(t, tok) && Tame(t, e) && OpensOver(t, e, tok) && tok != "" && tok in t.live && tok !in t.undeleted
    ensures TameRun(Step(t, e), more) && NeverOpenedOver(Step(t, e), more, tok)
    ensures tok in Run(Step(t, e), more).live && !Accounted(Run(Step(t, e), more), tok)
  {
    var c := OpenedMidway(t, e, tok);
    OnlyRecorded(t, e, tok);
    more := LaunchLosesToken(t, Step(t, e), e.id, c, tok);
  }

  /** Exactly: after any tame event, an existing token stays accounted for if and only
      if the event did not open a launch over the record of it. */
  lemma OrphanedExactlyWhenOpenedOver(s: Sys, events: seq<Event>, e: Event, tok: string)
    requires Initial(s) && TameRun(s, events) && NeverOpenedOver(s, events, tok)
    requires Tame(Run(s, events), e) && tok in Run(s, events).live && tok !in Run(s, events).undeleted
    ensures StaysAccounted(Step(Run(s, events), e), tok) <==> !OpensOver(Run(s, events), e, tok)
  {
    var t := Run(s, events);
    RunTokens(s, events);
    RunKeeps(s, events, tok);
    if OpensOver(t, e, tok) {
      var more := ResumeOrphansRecordedToken(t, e, tok);
    } else {
      StepInv(t, e);
      StepOrder(t, e);
      StepTokens(t, e);
      StepKeeps(t, e, tok);
      forall more: seq<Event> | TameRun(Step(t, e), more) && NeverOpenedOver(Step(t, e), more, tok)
                                && tok in Run(Step(t, e), more).live
        ensures Accounted(Run(Step(t, e), more), tok)
      {
        RunKeepsFrom(Step(t, e), more, tok);
      }
    }
  }
}
