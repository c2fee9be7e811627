/**
 Bootstrap-token accounting, in orderly runs in which every write is answered.

 Every recorded token id belongs to the NodeClaim that holds the record and to
 the host it is recorded on; a call knows what became of its own token; and one
 step makes the store forget a token only once that was deleted, or when a launch
 records its own token in its place.  `TokenTheorems` draws the conclusions.
 */
module Tokens {
  import opened Options
  import opened Records
  import opened Ledger
  import opened Protocol
  import opened Invariant
  import opened Orderly
  import opened AnsweredRuns

  // ----- the runs considered -----------------------------------------------------------------

  /** Karpenter core keeps its side of the contract and no response is lost. */
  predicate Tame(s: Sys, e: Event) {
    OrderlyEvent(s, e) && Answered(e)
  }

  ghost predicate TameRun(s: Sys, events: seq<Event>) {
    forall k :: 0 <= k < |events| ==> Tame(Run(s, events[..k]), events[k])
  }

  // ----- the books -------------------------------------------------------------------------------

  datatype Books = Books(live: set<string>, minted: map<string, Owner>, undeleted: set<string>, joined: set<string>)

  function BooksOf(s: Sys): Books {
    Books(s.live, s.minted, s.undeleted, s.joined)
  }

  function BooksAfter(b: Books, e: Effect): Books {
    match e
    case Quiet => b
    case Phased(Ended(Join, true), token) => b.(joined := b.joined + {token})
    case Phased(_, _) => b
    case Created(t, owner) => b.(live := b.live + {t}, minted := b.minted[t := owner])
    case Deleted(t, ok) => if ok then b.(live := b.live - {t}) else b.(undeleted := b.undeleted + {t})
  }

  /** Nothing is lost by forgetting `t`. */
  predicate Spent(b: Books, t: string) {
    t == "" || (t in b.minted && (t !in b.live || t in b.undeleted))
  }

  predicate Known(b: Books, t: string) {
    t == "" || t in b.minted
  }

  predicate OwnedBy(b: Books, t: string, nc: ClaimRef, h: HostId) {
    t != "" ==> t in b.minted && b.minted[t] == Owner(nc, h)
  }

  /** A stored version of host `h`: a token only under the claim it was minted for. */
  predicate VersionTokens(b: Books, h: HostId, s: Status) {
    s.token != "" ==> s.claim.Some? && OwnedBy(b, s.token, s.claim.value, h)
  }

  ghost predicate HistoryTokens(b: Books, h: HostId, hist: History) {
    forall i :: 0 <= i < |hist| ==> VersionTokens(b, h, StatusAt(hist, i))
  }

  /** What a call knows about its token and its host's current record. */
  predicate CallTokens(b: Books, hist: History, c: Call)
    requires c.Holding?
  {
    var cur := Current(hist).status;
    && OwnedBy(b, c.token, c.nc, c.host) && Known(b, c.copy.version.status.token)
    && (c.copy.rv == |hist| - 1 ==> c.copy.version.status == cur)
    && (c.pc.Releasing? ==> Spent(b, c.copy.version.status.token))
    && (c.kind == Launch ==> LaunchTokens(b, cur, c))
  }

  /** The part of a launch that has not minted its token yet. */
  predicate BeforeMint(pc: Pc) {
    match pc
    case Preparing => true
    case ToRun(p) => p == Install
    case Running(p) => p == Install
    case Setting(f, _, _) => f == Marker
    case Minting => true
    case _ => false
  }

  /** The part of a launch whose token is recorded, and collected at most. */
  predicate AfterRecord(pc: Pc) {
    match pc
    case ToRun(p) => p == Join
    case Running(p) => p == Join
    case Setting(f, _, _) => f == Provider || f == UseState
    case Adopting => true
    case _ => false
  }

  /** On its way out of the host. */
  predicate Ending(pc: Pc) {
    pc.Revoking? || pc.Releasing?
  }

  predicate LaunchTokens(b: Books, cur: Status, c: Call)
    requires c.Holding?
  {
    && (BeforeMint(c.pc) ==> c.token == "")
    && (!BeforeMint(c.pc) && !Ending(c.pc) ==> c.token != "")
    && (AfterRecord(c.pc) ==> cur.token == c.token || (cur.token == "" && Spent(b, c.token)))
    && (Ending(c.pc) ==> cur.token == c.token || Spent(b, c.token))
    && (c.pc.Setting? && c.pc.field == NoToken ==> Spent(b, c.token))
  }

  /** The probe has deleted what it is about to forget. */
  predicate ProbeTokens(b: Books, p: Probe) {
    p.Patching? && p.next.token != p.base.version.status.token ==> Spent(b, p.base.version.status.token)
  }

  /** A join holds `t` and has not recorded it, or is about to delete it. */
  predicate HoldsToken(c: Call, t: string) {
    c.Holding? && c.token == t && c.kind == Launch
    && (c.pc.Minted? || c.pc.Dropping? || (c.pc.Setting? && c.pc.field == TokenId))
  }

  ghost predicate HostTokens(b: Books, h: HostId, host: Host) {
    HistoryTokens(b, h, host.history) && ProbeTokens(b, host.probe)
  }

  ghost predicate CallBooked(s: Sys, c: Call) {
    c.Holding? ==> c.host in s.hosts && CallTokens(BooksOf(s), s.hosts[c.host].history, c)
  }

  ghost predicate TokenInv(s: Sys) {
    && s.live <= s.minted.Keys && s.joined <= s.minted.Keys && "" !in s.live
    && (forall h <- s.hosts :: HostTokens(BooksOf(s), h, s.hosts[h]))
    && (forall id <- s.calls :: CallBooked(s, s.calls[id]))
  }

  // ----- one step of a call -------------------------------------------------------------------------

  predicate UniqueMint(b: Books, e: Effect) {
    e.Created? ==> e.token !in b.minted && e.token != ""
  }

  predicate JoinSucceeds(e: Effect) {
    e.Phased? && e.event == Ended(Join, true)
  }

  predicate Launching(c: Option<Call>) {
    c.Some? && c.value.Holding? && c.value.kind == Launch
  }

  /** What one step of `c`, going on as `o`, or of the probe does to the token that is
      recorded and to the token that is held. */
  ghost predicate TokenStep(b: Books, h: HostId, hist: History, after: History, c: Option<Call>, o: Option<Call>, e: Effect) {
    var b', was, now := BooksAfter(b, e), Current(hist).status.token, Current(after).status.token;
    && HistoryTokens(b', h, after)
    // the record forgets a spent token, or a launch overwrites somebody else's
    && (now != was ==> Spent(b', was) || (Launching(c) && c.value.token != was))
    // and learns only the launch's own
    && (now != was ==> now == "" || (Launching(c) && now == c.value.token))
    && (forall t :: c.Some? && HoldsToken(c.value, t) ==>
          Spent(b', t) || now == t || (o.Some? && HoldsToken(o.value, t)))
    && (e.Created? ==> o.Some? && HoldsToken(o.value, e.token))
    && (e.Deleted? ==> e.token != "" && Spent(b', e.token))
    && (JoinSucceeds(e) ==> e.token in b.minted)
    && (o.Some? && o.value.Holding? ==>
          && CallTokens(b', after, o.value)
          && c.Some?
          && (if c.value.Seeking? then now == ""
              else o.value.kind == c.value.kind && (o.value.token == c.value.token || c.value.token == "")))
  }

  lemma BooksGrow(b: Books, e: Effect, t: string)
    requires UniqueMint(b, e)
    ensures Known(b, t) ==> Known(BooksAfter(b, e), t)
    ensures Spent(b, t) ==> Spent(BooksAfter(b, e), t)
    ensures t in b.minted ==> t in BooksAfter(b, e).minted && BooksAfter(b, e).minted[t] == b.minted[t]
  {}

  lemma HistoryBooksGrow(b: Books, e: Effect, h: HostId, hist: History)
    requires UniqueMint(b, e) && HistoryTokens(b, h, hist)
    ensures HistoryTokens(BooksAfter(b, e), h, hist)
  {
    forall i | 0 <= i < |hist| ensures VersionTokens(BooksAfter(b, e), h, StatusAt(hist, i)) {
      assert VersionTokens(b, h, StatusAt(hist, i));
      BooksGrow(b, e, StatusAt(hist, i).token);
    }
  }

  lemma LandTokens(b: Books, h: HostId, hist: History, v: Version, who: Writer)
    requires HistoryTokens(b, h, hist) && VersionTokens(b, h, v.status)
    ensures HistoryTokens(b, h, Land(hist, v, who)) && Current(Land(hist, v, who)) == v
  {
    var after := Land(hist, v, who);
    forall i | 0 <= i < |after| ensures VersionTokens(b, h, StatusAt(after, i)) {
      if i < |hist| {
        assert StatusAt(after, i) == StatusAt(hist, i);
      }
    }
  }

  /** A field setter whose copy is current writes exactly its edit. */
  lemma SetterTokens(b: Books, hist: History, c: Call)
    requires c.Holding? && HistoryTokens(b, c.host, hist) && c.pc.Setting? && CallOk(hist, c) && CallTokens(b, hist, c)
    requires c.copy.rv == |hist| - 1 && Current(hist).status.claim == Some(c.nc)
    ensures var cur := Current(hist).status;
            && Merged(c.copy.version.status, Mutated(c, c.pc.field, cur), cur) == Mutated(c, c.pc.field, cur)
            && VersionTokens(b, c.host, Mutated(c, c.pc.field, cur))
  {
    assert VersionTokens(b, c.host, StatusAt(hist, |hist| - 1));
  }

  lemma AcceptedTokens(b: Books, hist: History, c: Call, after: History)
    requires c.Holding? && HistoryTokens(b, c.host, hist) && c.pc.Setting? && CallOk(hist, c) && CallTokens(b, hist, c)
    requires HistoryTokens(b, c.host, after)
    requires Current(after).status == Mutated(c, c.pc.field, Current(hist).status)
    ensures TokenStep(b, c.host, hist, after, Some(c), AfterAttempt(c, after, Accepted, None), Quiet)
  {
    assert VersionTokens(b, c.host, StatusAt(hist, |hist| - 1));
    assert VersionTokens(b, c.host, StatusAt(after, |after| - 1));
    AcceptedNext(b, hist, c, after);
  }

  /** What the call knows after a setter that landed. */
  lemma AcceptedNext(b: Books, hist: History, c: Call, after: History)
    requires c.Holding? && c.pc.Setting? && CallOk(hist, c) && CallTokens(b, hist, c)
    requires Current(after).status == Mutated(c, c.pc.field, Current(hist).status)
    requires Known(b, Current(after).status.token)
    ensures var next := AfterAttempt(c, after, Accepted, None);
            next.Some? ==>
              && next.value.Holding? && CallTokens(b, after, next.value)
              && next.value.kind == c.kind && next.value.token == c.token
  {}

  /** Giving up on a setter, or going on, with a copy that cannot win a swap any more
      or is as good as the record. */
  lemma GaveUpTokens(b: Books, hist: History, c: Call, copy: Copy)
    requires c.Holding? && c.pc.Setting? && CallOk(hist, c) && CallTokens(b, hist, c)
    requires Known(b, copy.version.status.token)
    requires copy.rv == |hist| - 1 ==> copy.version.status == Current(hist).status
    ensures var next := AfterSetting(c.(copy := copy), c.pc.field, c.pc.healthy, false);
            && (next.Some? ==> next.value.Holding? && CallTokens(b, hist, next.value))
            && (c.pc.field == TokenId ==> next.Some? && HoldsToken(next.value, c.token))
    ensures forall left: nat :: CallTokens(b, hist, c.(copy := copy, pc := c.pc.(left := left)))
  {}

  lemma ConflictedTokens(b: Books, hist: History, c: Call, reread: Option<nat>)
    requires c.Holding? && HistoryTokens(b, c.host, hist) && c.pc.Setting? && CallOk(hist, c) && CallTokens(b, hist, c)
    requires c.copy.rv != |hist| - 1
    ensures TokenStep(b, c.host, hist, hist, Some(c), AfterAttempt(c, hist, Conflicted, reread), Quiet)
  {
    var edited := c.copy.version.(status := Mutated(c, c.pc.field, c.copy.version.status));
    GaveUpTokens(b, hist, c, c.copy.(version := edited));
    if reread.Some? && reread.value < |hist| {
      assert VersionTokens(b, c.host, StatusAt(hist, reread.value));
      GaveUpTokens(b, hist, c, Copy(reread.value, hist[reread.value].version));
    }
  }

  lemma SettingTokens(b: Books, hist: History, c: Call, reread: Option<nat>)
    requires c.Holding? && HistoryTokens(b, c.host, hist) && c.pc.Setting? && CallOk(hist, c) && CallTokens(b, hist, c)
    requires Current(hist).status.claim == Some(c.nc)
    ensures var o := SettingStep(hist, c, Delivered, reread);
            TokenStep(b, c.host, hist, o.history, Some(c), o.next, o.effect)
  {
    if c.copy.rv == |hist| - 1 {
      SetterTokens(b, hist, c);
      var v := Current(hist);
      LandTokens(b, c.host, hist, v.(status := Mutated(c, c.pc.field, v.status)), Setter(c.nc));
      AcceptedTokens(b, hist, c, SettingStep(hist, c, Delivered, reread).history);
    } else {
      ConflictedTokens(b, hist, c, reread);
    }
  }

  lemma ReleaseTokens(b: Books, hist: History, c: Call, reason: string)
    requires c.Holding? && HistoryTokens(b, c.host, hist) && c.pc.Releasing? && CallOk(hist, c) && CallTokens(b, hist, c)
    ensures var o := ReleaseStep(hist, c, Delivered, reason);
            TokenStep(b, c.host, hist, o.history, Some(c), o.next, o.effect)
  {
    if c.copy.rv == |hist| - 1 {
      var v := Current(hist);
      LandTokens(b, c.host, hist, v.(status := Released(v.status, c.pc.healthy, reason)), Releaser(c.nc));
    }
  }

  lemma LocalEffectTokens(b: Books, c: Call, cur: Status, ch: CallChoice)
    requires c.Holding? && PcOk(c) && OwnedBy(b, c.token, c.nc, c.host) && Known(b, c.copy.version.status.token)
    requires c.kind == Launch ==> LaunchTokens(b, cur, c)
    requires ch.Mint? ==> ch.token !in b.minted
    ensures var m := LocalMove(c, ch);
            && UniqueMint(b, m.effect)
            && (m.effect.Created? ==> m.next.Some? && HoldsToken(m.next.value, m.effect.token))
            && (m.effect.Deleted? ==> m.effect.token != "" && Spent(BooksAfter(b, m.effect), m.effect.token))
            && (JoinSucceeds(m.effect) ==> m.effect.token in b.minted)
  {}

  lemma LocalHeldTokens(b: Books, c: Call, ch: CallChoice)
    requires c.Holding? && PcOk(c) && OwnedBy(b, c.token, c.nc, c.host)
    ensures var m := LocalMove(c, ch);
            forall t :: HoldsToken(c, t) ==>
              Spent(BooksAfter(b, m.effect), t) || (m.next.Some? && HoldsToken(m.next.value, t))
  {}

  /** The token knowledge a call keeps when its step writes nothing. */
  predicate Keeps(b: Books, c: Call, cur: Status, n: Call)
    requires c.Holding?
  {
    n.Holding? ==>
      && OwnedBy(b, n.token, n.nc, n.host) && n.kind == c.kind && (n.token == c.token || c.token == "")
      && (n.pc.Releasing? ==> Spent(b, c.copy.version.status.token))
      && (n.kind == Launch ==> LaunchTokens(b, cur, n))
  }

  lemma PhaseNextTokens(b: Books, c: Call, cur: Status, ch: CallChoice)
    requires c.Holding? && PcOk(c) && OwnedBy(b, c.token, c.nc, c.host) && (c.pc.ToRun? || c.pc.Running?)
    requires c.kind == Launch ==> LaunchTokens(b, cur, c)
    ensures var m := LocalMove(c, ch);
            m.next.Some? ==> Keeps(BooksAfter(b, m.effect), c, cur, m.next.value)
  {}

  lemma EndNextTokens(b: Books, c: Call, cur: Status, ch: CallChoice)
    requires c.Holding? && PcOk(c) && OwnedBy(b, c.token, c.nc, c.host) && Known(b, c.copy.version.status.token)
    requires c.pc.Dropping? || c.pc.Revoking?
    requires c.kind == Launch ==> LaunchTokens(b, cur, c)
    ensures var m := LocalMove(c, ch);
            m.next.Some? ==> Keeps(BooksAfter(b, m.effect), c, cur, m.next.value)
  {}

  lemma LocalNextTokens(b: Books, c: Call, cur: Status, ch: CallChoice)
    requires c.Holding? && PcOk(c) && OwnedBy(b, c.token, c.nc, c.host) && Known(b, c.copy.version.status.token)
    requires c.kind == Launch ==> LaunchTokens(b, cur, c)
    requires c.pc.Releasing? ==> Spent(b, c.copy.version.status.token)
    requires ch.Mint? ==> ch.token !in b.minted
    ensures var m := LocalMove(c, ch);
            m.next.Some? ==> Keeps(BooksAfter(b, m.effect), c, cur, m.next.value)
  {
    if c.pc.ToRun? || c.pc.Running? {
      PhaseNextTokens(b, c, cur, ch);
    } else if c.pc.Dropping? || c.pc.Revoking? {
      EndNextTokens(b, c, cur, ch);
    } else if c.pc.Minting? || c.pc.Minted? {
      MintNextTokens(b, c, cur, ch);
    }
  }

  lemma MintNextTokens(b: Books, c: Call, cur: Status, ch: CallChoice)
    requires c.Holding? && (c.pc.Minting? || c.pc.Minted?) && PcOk(c)
    requires OwnedBy(b, c.token, c.nc, c.host) && Known(b, c.copy.version.status.token) && LaunchTokens(b, cur, c)
    requires ch.Mint? ==> ch.token !in b.minted
    ensures var m := LocalMove(c, ch);
            m.next.Some? ==> Keeps(BooksAfter(b, m.effect), c, cur, m.next.value)
  {}

  lemma LocalTokens(b: Books, hist: History, c: Call, ch: CallChoice)
    requires c.Holding? && HistoryTokens(b, c.host, hist) && CallOk(hist, c) && CallTokens(b, hist, c)
    requires ch.Mint? ==> ch.token !in b.minted
    ensures var m := LocalMove(c, ch);
            UniqueMint(b, m.effect) && TokenStep(b, c.host, hist, hist, Some(c), m.next, m.effect)
  {
    var cur, e := Current(hist).status, LocalMove(c, ch).effect;
    LocalMoveShape(c, ch);
    LocalEffectTokens(b, c, cur, ch);
    LocalHeldTokens(b, c, ch);
    LocalNextTokens(b, c, cur, ch);
    HistoryBooksGrow(b, e, c.host, hist);
    BooksGrow(b, e, c.copy.version.status.token);
  }

  lemma SeekTokens(b: Books, h: HostId, hist: History, c: Call, ch: CallChoice)
    requires LawfulHistory(hist) && HistoryTokens(b, h, hist) && c.Seeking? && ch.Pick? && ch.fate == Delivered
    ensures var o := SeekingStep(hist, c, ch);
            TokenStep(b, h, hist, o.history, Some(c), o.next, o.effect)
  {
    if ch.i == |hist| - 1 && Claimable(hist[ch.i].version, ch.hostClass) {
      AllSound(hist, ch.i);
      assert VersionTokens(b, h, StatusAt(hist, ch.i));
      var v := Current(hist);
      LandTokens(b, h, hist, v.(status := ClaimedBy(v.status, c.nc)), Claimer(c.nc, ch.hostClass));
    }
  }

  lemma CallOutcomeTokens(b: Books, h: HostId, hist: History, c: Call, ch: CallChoice)
    requires LawfulHistory(hist) && HistoryTokens(b, h, hist) && CallOk(hist, c)
    requires c.Holding? ==> c.host == h && CallTokens(b, hist, c) && Current(hist).status.claim == Some(c.nc)
    requires c.Seeking? ==> ch.Pick?
    requires AnsweredChoice(ch) && (ch.Mint? ==> ch.token !in b.minted)
    ensures var o := CallOutcome(hist, c, ch);
            UniqueMint(b, o.effect) && TokenStep(b, h, hist, o.history, Some(c), o.next, o.effect)
  {
    if c.Seeking? {
      SeekTokens(b, h, hist, c, ch);
    } else if c.pc.Setting? && ch.Attempt? {
      SettingTokens(b, hist, c, ch.reread);
    } else if c.pc.Releasing? && ch.Release? {
      ReleaseTokens(b, hist, c, ch.reason);
    } else {
      LocalTokens(b, hist, c, ch);
    }
  }

  // ----- one step of the probe ----------------------------------------------------------------------------

  lemma ProbeWriteTokens(b: Books, h: HostId, hist: History, p: Probe, ch: ProbeChoice, now: int)
    requires LawfulHistory(hist) && HistoryTokens(b, h, hist) && ProbeOk(hist, p, now) && ProbeTokens(b, p)
    requires (p.SavingFacts? || p.Fencing? || p.Patching?) && ch.Write? && ch.fate == Delivered
    ensures var o := ProbeStep(hist, p, ch, now);
            TokenStep(b, h, hist, o.history, None, None, o.effect)
  {
    var v := p.base.version;
    AllSound(hist, p.base.rv);
    assert VersionTokens(b, h, StatusAt(hist, p.base.rv));
    var edited :=
      if p.SavingFacts? then p.next
      else if p.Fencing? then v.status.(state := Leaving)
      else p.next.(facts := ch.facts);
    assert VersionTokens(b, h, edited);
    LandTokens(b, h, hist, v.(status := edited), Prober);
  }

  lemma ProbeStepTokens(b: Books, h: HostId, hist: History, p: Probe, ch: ProbeChoice, now: int)
    requires LawfulHistory(hist) && HistoryTokens(b, h, hist) && ProbeOk(hist, p, now) && ProbeTokens(b, p)
    requires ch.Write? ==> ch.fate == Delivered
    ensures var o := ProbeStep(hist, p, ch, now);
            && UniqueMint(b, o.effect) && TokenStep(b, h, hist, o.history, None, None, o.effect)
            && ProbeTokens(BooksAfter(b, o.effect), o.next)
  {
    if (p.SavingFacts? || p.Fencing? || p.Patching?) && ch.Write? {
      ProbeWriteTokens(b, h, hist, p, ch, now);
    } else {
      if !p.Idle? {
        assert VersionTokens(b, h, StatusAt(hist, p.base.rv));
      }
      HistoryBooksGrow(b, ProbeStep(hist, p, ch, now).effect, h, hist);
    }
  }

  // ----- the whole system -----------------------------------------------------------------------------------

  lemma CallBooksGrow(b: Books, e: Effect, hist: History, c: Call)
    requires UniqueMint(b, e) && c.Holding? && CallTokens(b, hist, c)
    ensures CallTokens(BooksAfter(b, e), hist, c)
  {
    BooksGrow(b, e, c.token);
    BooksGrow(b, e, c.copy.version.status.token);
  }

  lemma HostBooksGrow(b: Books, e: Effect, h: HostId, host: Host)
    requires UniqueMint(b, e) && HostTokens(b, h, host)
    ensures HostTokens(BooksAfter(b, e), h, host)
  {
    HistoryBooksGrow(b, e, h, host.history);
    if host.probe.Patching? {
      BooksGrow(b, e, host.probe.base.version.status.token);
    }
  }

  lemma EffectBooks(s: Sys, e: Effect)
    ensures BooksOf(WithEffect(s, e)) == BooksAfter(BooksOf(s), e)
  {}

  /** The actor that moved: call `id` with `next`, or nobody among the calls. */
  ghost predicate Moved(s: Sys, t: Sys, h: HostId, id: Option<CallId>, next: Option<Call>, e: Effect) {
    && OnlyHost(s, t, h) && BooksOf(t) == BooksAfter(BooksOf(s), e)
    && UniqueMint(BooksOf(s), e)
    && (id.Some? ==> id.value in s.calls && (s.calls[id.value].Holding? ==> s.calls[id.value].host == h))
    && TokenStep(BooksOf(s), h, s.hosts[h].history, t.hosts[h].history,
                 if id.Some? then Some(s.calls[id.value]) else None, next, e)
    && (forall i <- t.calls :: if id == Some(i) then next == Some(t.calls[i])
                               else i in s.calls && t.calls[i] == s.calls[i])
    && (forall i <- s.calls :: id != Some(i) ==> i in t.calls)
    && (id.Some? && next.Some? ==> id.value in t.calls)
    && (id.None? ==> next.None?)
  }

  lemma MovedTokens(s: Sys, t: Sys, h: HostId, id: Option<CallId>, next: Option<Call>, e: Effect)
    requires TokenInv(s) && Moved(s, t, h, id, next, e)
    requires ProbeTokens(BooksOf(t), t.hosts[h].probe)
    requires next.Some? && next.value.Holding? ==> next.value.host == h
    requires forall i <- s.calls | id != Some(i) && s.calls[i].Holding? && s.calls[i].host == h ::
               CallTokens(BooksOf(t), t.hosts[h].history, s.calls[i])
    ensures TokenInv(t)
  {
    var b, b' := BooksOf(s), BooksOf(t);
    forall g <- t.hosts ensures HostTokens(b', g, t.hosts[g]) {
      if g != h {
        HostBooksGrow(b, e, g, s.hosts[g]);
      }
    }
    forall i <- t.calls ensures CallBooked(t, t.calls[i]) {
      if id != Some(i) {
        var c := s.calls[i];
        assert CallBooked(s, c);
        if c.Holding? && c.host != h {
          CallBooksGrow(b, e, t.hosts[c.host].history, c);
        }
      }
    }
  }

  /** While a call is on a host, no other call writes that host's record. */
  lemma OtherCallsDoNotWrite(s: Sys, id: CallId, h: HostId, o: Outcome, i: CallId)
    requires OrderInv(s) && Settles(s, id, h, o)
    requires i in s.calls && i != id && s.calls[i].Holding? && s.calls[i].host == h
    ensures o.history == s.hosts[h].history
  {
    var c, d, hist := s.calls[id], s.calls[i], s.hosts[h].history;
    assert CallOwns(s, c) && CallOwns(s, d) && c.nc != d.nc;
    HeldByBorn(s, h, c.nc);
  }

  lemma SettledMoved(s: Sys, id: CallId, h: HostId, o: Outcome)
    requires Settles(s, id, h, o) && UniqueMint(BooksOf(s), o.effect)
    requires TokenStep(BooksOf(s), h, s.hosts[h].history, o.history, Some(s.calls[id]), o.next, o.effect)
    ensures Moved(s, Settled(s, id, h, o), h, Some(id), o.next, o.effect)
  {
    SettledShape(s, id, h, o);
    EffectBooks(WithCall(s, id, o.next).(hosts := Settled(s, id, h, o).hosts), o.effect);
  }

  lemma SettledProbe(s: Sys, id: CallId, h: HostId, o: Outcome)
    requires TokenInv(s) && Settles(s, id, h, o) && UniqueMint(BooksOf(s), o.effect)
    ensures var t := Settled(s, id, h, o);
            h in t.hosts && t.hosts[h].history == o.history && ProbeTokens(BooksAfter(BooksOf(s), o.effect), t.hosts[h].probe)
  {
    assert HostTokens(BooksOf(s), h, s.hosts[h]);
    SettledShape(s, id, h, o);
    HostBooksGrow(BooksOf(s), o.effect, h, s.hosts[h]);
  }

  lemma SettledTokens(s: Sys, id: CallId, h: HostId, o: Outcome)
    requires OrderInv(s) && TokenInv(s) && Settles(s, id, h, o)
    requires UniqueMint(BooksOf(s), o.effect)
    requires TokenStep(BooksOf(s), h, s.hosts[h].history, o.history, Some(s.calls[id]), o.next, o.effect)
    ensures TokenInv(Settled(s, id, h, o))
  {
    var t := Settled(s, id, h, o);
    SettledMoved(s, id, h, o);
    SettledProbe(s, id, h, o);
    forall i <- s.calls | i != id && s.calls[i].Holding? && s.calls[i].host == h
      ensures CallTokens(BooksOf(t), t.hosts[h].history, s.calls[i])
    {
      OtherCallsDoNotWrite(s, id, h, o, i);
      assert CallBooked(s, s.calls[i]);
      CallBooksGrow(BooksOf(s), o.effect, o.history, s.calls[i]);
    }
    MovedTokens(s, t, h, Some(id), o.next, o.effect);
  }

  lemma CallTokenStep(s: Sys, id: CallId, ch: CallChoice, h: HostId, o: Outcome)
    requires Inv(s) && OrderInv(s) && TokenInv(s) && AnsweredChoice(ch) && Works(s, id, ch, h)
    requires o == CallOutcome(s.hosts[h].history, s.calls[id], ch)
    ensures Settles(s, id, h, o) && UniqueMint(BooksOf(s), o.effect)
    ensures TokenStep(BooksOf(s), h, s.hosts[h].history, o.history, Some(s.calls[id]), o.next, o.effect)
  {
    var c := s.calls[id];
    CallOutcomeSettles(s, id, ch, h);
    assert CallSettled(s, c) && CallBooked(s, c) && CallOwns(s, c) && HostTokens(BooksOf(s), h, s.hosts[h]);
    CallOutcomeTokens(BooksOf(s), h, s.hosts[h].history, c, ch);
  }

  lemma CallTargetTokens(s: Sys, id: CallId, ch: CallChoice, h: HostId)
    requires Inv(s) && OrderInv(s) && TokenInv(s) && AnsweredChoice(ch) && Works(s, id, ch, h)
    ensures TokenInv(CallStep(s, id, ch))
  {
    var o := CallOutcome(s.hosts[h].history, s.calls[id], ch);
    CallTokenStep(s, id, ch, h, o);
    SettledTokens(s, id, h, o);
    CallStepSettles(s, id, ch, h);
  }

  lemma CallStepTokens(s: Sys, id: CallId, ch: CallChoice)
    requires Inv(s) && OrderInv(s) && TokenInv(s) && AnsweredChoice(ch)
    ensures TokenInv(CallStep(s, id, ch))
  {
    if id in s.calls && FreshMint(s, ch) {
      var target := CallTarget(s.calls[id], ch);
      if s.calls[id].Seeking? && ch.GiveUp? {
        OpenedTokens(s, id, None);
      } else if target.Some? && target.value in s.hosts {
        CallTargetTokens(s, id, ch, target.value);
      }
    }
  }

  /** A call comes or goes that holds no token of its own. */
  lemma OpenedTokens(s: Sys, id: CallId, next: Option<Call>)
    requires TokenInv(s) && (id in s.calls ==> s.calls[id].Seeking?)
    requires next.Some? ==> CallBooked(s, next.value)
    ensures TokenInv(WithCall(s, id, next))
  {
    var t := WithCall(s, id, next);
    forall h <- t.hosts ensures HostTokens(BooksOf(t), h, t.hosts[h]) {
      assert HostTokens(BooksOf(s), h, s.hosts[h]);
    }
    forall i <- t.calls ensures CallBooked(t, t.calls[i]) {
      if i in s.calls {
        assert CallBooked(s, s.calls[i]);
      }
    }
  }

  lemma OpenTokens(s: Sys, e: Event)
    requires Inv(s) && TokenInv(s) && Tame(s, e) && e.Open? && e.host in s.hosts
    ensures TokenInv(Step(s, e))
  {
    var hist := s.hosts[e.host].history;
    assert HostTokens(BooksOf(s), e.host, s.hosts[e.host]);
    assert VersionTokens(BooksOf(s), e.host, StatusAt(hist, |hist| - 1));
    var next := Opened(e.nc, e.kind, e.host, Newest(hist));
    if e.id !in s.calls {
      OpenedTokens(s, e.id, next);
    }
  }

  /** The probe's upkeep of a claimed host forgets only what is spent. */
  lemma UpkeepSparesCall(b: Books, hist: History, after: History, c: Call)
    requires Extends(hist, after) && c.Holding? && CallTokens(b, hist, c)
    requires Grew(hist, after) ==> after[|hist|].who == Prober || after[|hist|].who == Operator
    requires Current(hist).status.claim.Some? && Current(after).status.claim == Current(hist).status.claim
    requires c.copy.rv < |hist|
    requires Current(after).status.token != Current(hist).status.token ==> Spent(b, Current(hist).status.token)
    ensures CallTokens(b, after, c)
  {
    if Grew(hist, after) {
      assert Lawful(Current(hist), after[|hist|]);
    }
  }

  lemma ObservedMoved(s: Sys, h: HostId, o: ProbeOutcome)
    requires h in s.hosts && ProbeGuarantee(s.hosts[h].history, o, s.clock) && UniqueMint(BooksOf(s), o.effect)
    requires TokenStep(BooksOf(s), h, s.hosts[h].history, o.history, None, None, o.effect)
    ensures Moved(s, Observed(s, h, o), h, None, None, o.effect)
    ensures Observed(s, h, o).hosts[h].history == o.history && Observed(s, h, o).hosts[h].probe == o.next
  {
    ObservedShape(s, h, o);
    EffectBooks(s.(hosts := Observed(s, h, o).hosts), o.effect);
  }

  lemma ObservedTokens(s: Sys, h: HostId, o: ProbeOutcome)
    requires Inv(s) && OrderInv(s) && TokenInv(s) && h in s.hosts
    requires ProbeGuarantee(s.hosts[h].history, o, s.clock)
    requires ProbeClears(s.hosts[h].history, s.hosts[h].probe, o)
    requires UniqueMint(BooksOf(s), o.effect) && ProbeTokens(BooksAfter(BooksOf(s), o.effect), o.next)
    requires TokenStep(BooksOf(s), h, s.hosts[h].history, o.history, None, None, o.effect)
    ensures TokenInv(Observed(s, h, o))
  {
    var t := Observed(s, h, o);
    ObservedMoved(s, h, o);
    forall i <- s.calls | s.calls[i].Holding? && s.calls[i].host == h
      ensures CallTokens(BooksOf(t), t.hosts[h].history, s.calls[i])
    {
      ReapSparesCalls(s, h, o, i);
      assert CallBooked(s, s.calls[i]) && CallSettled(s, s.calls[i]);
      CallBooksGrow(BooksOf(s), o.effect, s.hosts[h].history, s.calls[i]);
      UpkeepSparesCall(BooksOf(t), s.hosts[h].history, o.history, s.calls[i]);
    }
    MovedTokens(s, t, h, None, None, o.effect);
  }

  lemma ObserveTokens(s: Sys, h: HostId, ch: ProbeChoice)
    requires Inv(s) && OrderInv(s) && TokenInv(s) && h in s.hosts && Tame(s, Observe(h, ch))
    ensures TokenInv(Step(s, Observe(h, ch)))
  {
    var host := s.hosts[h];
    assert HostTokens(BooksOf(s), h, host);
    ProbeStepOk(host.history, host.probe, ch, s.clock);
    ProbeStepClears(host.history, host.probe, ch, s.clock);
    ProbeStepTokens(BooksOf(s), h, host.history, host.probe, ch, s.clock);
    ObservedTokens(s, h, ProbeStep(host.history, host.probe, ch, s.clock));
  }

  /** The record was edited, or read, with its status as it was. */
  lemma SameStatusTokens(s: Sys, t: Sys, h: HostId)
    requires Inv(s) && OrderInv(s) && TokenInv(s) && OnlyHost(s, t, h)
    requires t.calls == s.calls && BooksOf(t) == BooksOf(s)
    requires Current(t.hosts[h].history).status == Current(s.hosts[h].history).status
    requires Grew(s.hosts[h].history, t.hosts[h].history)
             ==> t.hosts[h].history[|s.hosts[h].history|].who == Operator
    requires HostTokens(BooksOf(t), h, t.hosts[h])
    ensures TokenInv(t)
  {
    assert Moved(s, t, h, None, None, Quiet);
    forall i <- s.calls | s.calls[i].Holding? && s.calls[i].host == h
      ensures CallTokens(BooksOf(t), t.hosts[h].history, s.calls[i])
    {
      assert CallBooked(s, s.calls[i]) && CallSettled(s, s.calls[i]) && CallOwns(s, s.calls[i]);
      UpkeepSparesCall(BooksOf(s), s.hosts[h].history, t.hosts[h].history, s.calls[i]);
    }
    MovedTokens(s, t, h, None, None, Quiet);
  }

  lemma EditTokens(s: Sys, e: Event)
    requires Inv(s) && OrderInv(s) && TokenInv(s) && e.Edit? && e.host in s.hosts
    ensures TokenInv(Step(s, e))
  {
    var hist := s.hosts[e.host].history;
    var v := Edited(Current(hist), e.maintenance, e.hostClass, e.generation);
    assert HostTokens(BooksOf(s), e.host, s.hosts[e.host]);
    assert VersionTokens(BooksOf(s), e.host, StatusAt(hist, |hist| - 1));
    LandExtends(hist, v, Operator);
    LandTokens(BooksOf(s), e.host, hist, v, Operator);
    SameStatusTokens(s, Step(s, e), e.host);
  }

  lemma ReconcileTokens(s: Sys, e: Event)
    requires Inv(s) && OrderInv(s) && TokenInv(s) && e.Reconcile? && e.host in s.hosts
    ensures TokenInv(Step(s, e))
  {
    assert HostTokens(BooksOf(s), e.host, s.hosts[e.host]);
    if s.hosts[e.host].probe.Idle? && e.i < |s.hosts[e.host].history| {
      ReadTokens(BooksOf(s), Copy(e.i, s.hosts[e.host].history[e.i].version), s.clock);
      SameStatusTokens(s, Step(s, e), e.host);
    }
  }

  lemma ReadTokens(b: Books, base: Copy, now: int)
    ensures ProbeTokens(b, AfterRead(base, now))
  {}

  lemma SameStoreTokens(s: Sys, t: Sys)
    requires TokenInv(s) && t.hosts == s.hosts && t.calls == s.calls && BooksOf(t) == BooksOf(s)
    ensures TokenInv(t)
  {
    forall i <- t.calls ensures CallBooked(t, t.calls[i]) {
      assert CallBooked(s, s.calls[i]);
    }
  }

  lemma StepTokens(s: Sys, e: Event)
    requires Inv(s) && OrderInv(s) && TokenInv(s) && Tame(s, e)
    ensures TokenInv(Step(s, e))
  {
    match e
    case Edit(h, _, _, _) => if h in s.hosts { EditTokens(s, e); }
    case SeekHost(id, nc) => if id !in s.calls { OpenedTokens(s, id, Some(Seeking(nc))); }
    case Open(_, _, _, h, _) => if h in s.hosts { OpenTokens(s, e); }
    case Proceed(id, ch) => CallStepTokens(s, id, ch);
    case Reconcile(h, _) => if h in s.hosts { ReconcileTokens(s, e); }
    case Observe(h, ch) => if h in s.hosts { ObserveTokens(s, h, ch); }
    case _ => SameStoreTokens(s, Step(s, e));
  }

  lemma {:induction false} RunTokens(s: Sys, events: seq<Event>)
    requires Initial(s) && TameRun(s, events)
    ensures TokenInv(Run(s, events))
  {
    if events == [] {
      forall h <- s.hosts ensures HostTokens(BooksOf(s), h, s.hosts[h]) {
        assert NewHost(s.hosts[h]);
      }
    } else {
      var before, last := events[..|events| - 1], events[|events| - 1];
      assert forall k :: 0 <= k < |before| ==> before[..k] == events[..k];
      RunTokens(s, before);
      RunInv(s, before);
      RunOrder(s, before);
      StepTokens(Run(s, before), last);
    }
  }
}
