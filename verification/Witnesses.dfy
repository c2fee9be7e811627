/**
 Runs in which the promises that hold only under a discipline come to fail: each is
 tame up to the event that breaks the discipline, and starts in any pool that has
 an Available host.
 */
module Witnesses {
  import opened Options
  import opened Records
  import opened Ledger
  import opened Protocol
  import opened Invariant
  import opened Orderly
  import opened AnsweredRuns
  import opened Tokens
  import opened TokenTheorems
  import opened Collection
  import opened CollectedEarly
  import opened Stranding
  import opened RunTheorems

  // ----- one launch, undisturbed -----------------------------------------------------------------

  /** The one call there is works on a host whose probe rests, and has read what is stored. */
  ghost predicate Alone(u: Sys, id: CallId, c: Call) {
    && c.Holding? && c.kind == Launch && c.host in u.hosts && u.calls == map[id := c]
    && c.copy == Newest(u.hosts[c.host].history) && u.hosts[c.host].probe.Idle? && ClaimOf(u, c.host) == Some(c.nc)
  }

  /** Nobody works on the host, and its probe rests. */
  predicate Resting(u: Sys, h: HostId) {
    u.calls == map[] && h in u.hosts && u.hosts[h].probe.Idle?
  }

  function Rec(u: Sys, h: HostId): Version
    requires h in u.hosts
  {
    Current(u.hosts[h].history)
  }

  /** Of the hosts only `h` changed, and its history only grew. */
  ghost predicate OnlyOn(t: Sys, v: Sys, h: HostId) {
    && v.hosts.Keys == t.hosts.Keys && (forall g <- t.hosts :: g != h ==> v.hosts[g] == t.hosts[g])
    && (h in t.hosts ==> t.hosts[h].history <= v.hosts[h].history)
  }

  ghost predicate SameRest(t: Sys, v: Sys, h: HostId) {
    v.claims == t.claims && v.born == t.born && OnlyOn(t, v, h)
  }

  /** The phases run on `h` between `t` and `v`. */
  ghost predicate Phases(t: Sys, v: Sys, h: HostId, run: seq<PhaseEvent>) {
    h in t.hosts && h in v.hosts && v.hosts[h].phases == t.hosts[h].phases + run
  }

  /** A tame event took `u` to `v`. */
  predicate Tamely(u: Sys, e: Event, v: Sys) {
    Tame(u, e) && v == Step(u, e)
  }

  lemma LocalAlone(u: Sys, id: CallId, c: Call, ch: CallChoice, d: Call) returns (v: Sys)
    requires Alone(u, id, c) && !c.pc.Setting? && !c.pc.Releasing? && FreshMint(u, ch) && AnsweredChoice(ch)
    requires LocalMove(c, ch).next == Some(d)
    requires d.Holding? && d.kind == Launch && d.host == c.host && d.nc == c.nc && d.copy == c.copy
    ensures Tamely(u, Proceed(id, ch), v) && Alone(v, id, d)
    ensures BooksOf(v) == BooksAfter(BooksOf(u), LocalMove(c, ch).effect)
    ensures SameRest(u, v, c.host) && v.hosts[c.host].history == u.hosts[c.host].history
    ensures Phases(u, v, c.host, Traced([], LocalMove(c, ch).effect))
  {
    v := Step(u, Proceed(id, ch));
    LocalSettles(u, id, c, ch);
    LocalLeavesAlone(u, id, c, d, LocalMove(c, ch).effect);
  }

  lemma LocalSettles(u: Sys, id: CallId, c: Call, ch: CallChoice)
    requires Alone(u, id, c) && !c.pc.Setting? && !c.pc.Releasing? && FreshMint(u, ch)
    ensures Step(u, Proceed(id, ch))
         == Settled(u, id, c.host, Outcome(LocalMove(c, ch).next, u.hosts[c.host].history, LocalMove(c, ch).effect))
  {}

  lemma LocalLeavesAlone(u: Sys, id: CallId, c: Call, d: Call, e: Effect)
    requires Alone(u, id, c)
    requires d.Holding? && d.kind == Launch && d.host == c.host && d.nc == c.nc && d.copy == c.copy
    ensures var v := Settled(u, id, c.host, Outcome(Some(d), u.hosts[c.host].history, e));
            && Alone(v, id, d) && BooksOf(v) == BooksAfter(BooksOf(u), e)
            && SameRest(u, v, c.host) && v.hosts[c.host].history == u.hosts[c.host].history
            && Phases(u, v, c.host, Traced([], e))
  {
    var v := Settled(u, id, c.host, Outcome(Some(d), u.hosts[c.host].history, e));
    assert u.calls[id := d] == map[id := d];
    EffectBooks(WithCall(u, id, Some(d)).(hosts := v.hosts), e);
  }

  lemma SetAlone(u: Sys, id: CallId, c: Call) returns (v: Sys)
    requires Alone(u, id, c) && c.pc.Setting?
    ensures Tamely(u, Proceed(id, Attempt(Delivered, None)), v) && c.host in v.hosts
    ensures var hist := v.hosts[c.host].history;
            && Current(hist).status == Mutated(c, c.pc.field, Current(u.hosts[c.host].history).status)
            && Current(hist).maintenance == Current(u.hosts[c.host].history).maintenance
            && var next := AfterSetting(c.(copy := Newest(hist)), c.pc.field, c.pc.healthy, true);
               if next.Some? then next.value.Holding? ==> Alone(v, id, next.value) else Resting(v, c.host)
    ensures BooksOf(v) == BooksOf(u) && SameRest(u, v, c.host) && Phases(u, v, c.host, [])
  {
    var o := SettingStep(u.hosts[c.host].history, c, Delivered, None);
    SetterLands(u.hosts[c.host].history, c);
    v := Step(u, Proceed(id, Attempt(Delivered, None)));
    assert v == Settled(u, id, c.host, o);
    assert forall d :: u.calls[id := d] == map[id := d];
    assert u.calls - {id} == map[];
  }

  lemma ReleaseAlone(u: Sys, id: CallId, c: Call, reason: string) returns (v: Sys)
    requires Alone(u, id, c) && c.pc.Releasing?
    ensures Tamely(u, Proceed(id, Release(Delivered, reason)), v) && Resting(v, c.host)
    ensures Current(v.hosts[c.host].history)
         == Current(u.hosts[c.host].history).(status := Released(Current(u.hosts[c.host].history).status, c.pc.healthy, reason))
    ensures BooksOf(v) == BooksOf(u) && SameRest(u, v, c.host)
  {
    var o := ReleaseStep(u.hosts[c.host].history, c, Delivered, reason);
    v := Step(u, Proceed(id, Release(Delivered, reason)));
    assert v == Settled(u, id, c.host, o);
    assert u.calls - {id} == map[];
  }

  // ----- paths --------------------------------------------------------------------------------------

  /** Tame events, none of which opens a call on a host, take `s` to `t`. */
  ghost predicate Path(s: Sys, es: seq<Event>, t: Sys) {
    TameRun(s, es) && Run(s, es) == t && forall k :: 0 <= k < |es| ==> !es[k].Open?
  }

  lemma Extend(s: Sys, es: seq<Event>, t: Sys, e: Event, v: Sys)
    requires Path(s, es, t) && Tamely(t, e, v) && !e.Open?
    ensures Path(s, es + [e], v)
  {
    var one: seq<Event> := [e];
    assert one[..0] == [] && Run(t, []) == t;
    assert TameRun(t, one);
    TameConcat(s, es, one);
    assert (es + one)[..|es|] == es && (es + one)[|es|] == e;
  }

  // ----- claiming a host -------------------------------------------------------------------------------

  lemma ClaimIsBorn(t: Sys, nc: ClaimRef, h: HostId) returns (v: Sys)
    requires FreshClaim(t, nc) && Resting(t, h)
    ensures Tamely(t, ClaimBorn(nc), v) && v == t.(claims := t.claims + {nc}, born := t.born + {nc})
  {
    v := Step(t, ClaimBorn(nc));
  }

  lemma Seeks(t: Sys, nc: ClaimRef, h: HostId, id: CallId) returns (v: Sys)
    requires Resting(t, h) && nc in t.claims
    requires forall g <- t.hosts :: !HeldBy(Current(t.hosts[g].history).status, nc)
    ensures Tamely(t, SeekHost(id, nc), v) && v == t.(calls := map[id := Seeking(nc)])
  {
    v := Step(t, SeekHost(id, nc));
    assert t.calls[id := Seeking(nc)] == map[id := Seeking(nc)];
  }

  lemma Picks(t: Sys, nc: ClaimRef, h: HostId, id: CallId) returns (v: Sys, c: Call)
    requires t.calls == map[id := Seeking(nc)] && h in t.hosts && t.hosts[h].probe.Idle?
    requires Claimable(Current(t.hosts[h].history), "")
    ensures Tamely(t, Proceed(id, Pick(h, |t.hosts[h].history| - 1, "", Delivered)), v) && Alone(v, id, c)
    ensures c == Fresh(nc, Launch, Preparing, h, c.copy) && BooksOf(v) == BooksOf(t)
    ensures SameRest(t, v, h) && Phases(t, v, h, [])
    ensures Current(v.hosts[h].history) == Current(t.hosts[h].history).(status := ClaimedBy(Current(t.hosts[h].history).status, nc))
  {
    var ch := Pick(h, |t.hosts[h].history| - 1, "", Delivered);
    var o := SeekingStep(t.hosts[h].history, Seeking(nc), ch);
    v := Step(t, Proceed(id, ch));
    assert v == Settled(t, id, h, o);
    c := o.next.value;
    assert t.calls[id := c] == map[id := c];
  }

  lemma Claims(s: Sys, es: seq<Event>, t: Sys, nc: ClaimRef, h: HostId, id: CallId) returns (fs: seq<Event>, v: Sys, c: Call)
    requires Path(s, es, t) && Resting(t, h) && FreshClaim(t, nc) && Claimable(Current(t.hosts[h].history), "")
    requires forall g <- t.hosts :: !HeldBy(Current(t.hosts[g].history).status, nc)
    ensures Path(s, fs, v) && Alone(v, id, c) && c == Fresh(nc, Launch, Preparing, h, c.copy)
    ensures BooksOf(v) == BooksOf(t) && v.claims == t.claims + {nc} && v.born == t.born + {nc}
    ensures OnlyOn(t, v, h) && Phases(t, v, h, [])
    ensures Current(v.hosts[h].history) == Current(t.hosts[h].history).(status := ClaimedBy(Current(t.hosts[h].history).status, nc))
  {
    var v1 := ClaimIsBorn(t, nc, h);
    Extend(s, es, t, ClaimBorn(nc), v1);
    var v2 := Seeks(v1, nc, h, id);
    Extend(s, es + [ClaimBorn(nc)], v1, SeekHost(id, nc), v2);
    v, c := Picks(v2, nc, h, id);
    var e := Proceed(id, Pick(h, |v2.hosts[h].history| - 1, "", Delivered));
    Extend(s, es + [ClaimBorn(nc)] + [SeekHost(id, nc)], v2, e, v);
    fs := es + [ClaimBorn(nc)] + [SeekHost(id, nc)] + [e];
  }

  // ----- going on ---------------------------------------------------------------------------------------

  lemma Goes(s: Sys, es: seq<Event>, t: Sys, id: CallId, c: Call, ch: CallChoice, d: Call) returns (fs: seq<Event>, v: Sys)
    requires Path(s, es, t) && Alone(t, id, c) && !c.pc.Setting? && !c.pc.Releasing? && FreshMint(t, ch) && AnsweredChoice(ch)
    requires LocalMove(c, ch).next == Some(d)
    requires d.Holding? && d.kind == Launch && d.host == c.host && d.nc == c.nc && d.copy == c.copy
    ensures Path(s, fs, v) && Alone(v, id, d) && SameRest(t, v, c.host) && Rec(v, c.host) == Rec(t, c.host)
    ensures BooksOf(v) == BooksAfter(BooksOf(t), LocalMove(c, ch).effect)
    ensures Phases(t, v, c.host, Traced([], LocalMove(c, ch).effect))
  {
    v := LocalAlone(t, id, c, ch, d);
    Extend(s, es, t, Proceed(id, ch), v);
    fs := es + [Proceed(id, ch)];
  }

  lemma Sets(s: Sys, es: seq<Event>, t: Sys, id: CallId, c: Call) returns (fs: seq<Event>, v: Sys)
    requires Path(s, es, t) && Alone(t, id, c) && c.pc.Setting?
    ensures Path(s, fs, v) && SameRest(t, v, c.host) && BooksOf(v) == BooksOf(t) && Phases(t, v, c.host, [])
    ensures Rec(v, c.host).status == Mutated(c, c.pc.field, Rec(t, c.host).status)
    ensures Rec(v, c.host).maintenance == Rec(t, c.host).maintenance
    ensures var next := AfterSetting(c.(copy := Newest(v.hosts[c.host].history)), c.pc.field, c.pc.healthy, true);
            if next.Some? then next.value.Holding? ==> Alone(v, id, next.value) else Resting(v, c.host)
  {
    v := SetAlone(t, id, c);
    Extend(s, es, t, Proceed(id, Attempt(Delivered, None)), v);
    fs := es + [Proceed(id, Attempt(Delivered, None))];
  }

  /** A launch that has read its configuration, and installed if that was due. */
  lemma Prepares(s: Sys, es: seq<Event>, t: Sys, id: CallId, c: Call, marker: string)
      returns (fs: seq<Event>, v: Sys, d: Call)
    requires Path(s, es, t) && Alone(t, id, c) && c.pc == Preparing && marker != ""
    ensures Path(s, fs, v) && Alone(v, id, d) && d == c.(pc := Minting, marker := marker, copy := d.copy)
    ensures SameRest(t, v, c.host) && BooksOf(v) == BooksOf(t)
    ensures Phases(t, v, c.host, if Rec(t, c.host).status.installed == marker then [] else [Began(Install), Ended(Install, true)])
    ensures Rec(v, c.host).status == Rec(t, c.host).status.(installed := marker)
    ensures Rec(v, c.host).maintenance == Rec(t, c.host).maintenance
  {
    if c.copy.version.status.installed == marker {
      d := c.(pc := Minting, marker := marker);
      fs, v := Goes(s, es, t, id, c, Configured(marker), d);
    } else {
      var c1 := c.(pc := ToRun(Install), marker := marker);
      var u;
      fs, u := Goes(s, es, t, id, c, Configured(marker), c1);
      fs, v, d := Installs(s, fs, u, id, c1);
      OnlyOnOn(t, u, v, c.host);
    }
  }

  lemma OnlyOnOn(t: Sys, u: Sys, v: Sys, h: HostId)
    requires OnlyOn(t, u, h) && OnlyOn(u, v, h)
    ensures OnlyOn(t, v, h)
  {}

  lemma Installs(s: Sys, es: seq<Event>, t: Sys, id: CallId, c: Call) returns (fs: seq<Event>, v: Sys, d: Call)
    requires Path(s, es, t) && Alone(t, id, c) && c.pc == ToRun(Install)
    ensures Path(s, fs, v) && Alone(v, id, d) && d == c.(pc := Minting, copy := d.copy)
    ensures SameRest(t, v, c.host) && BooksOf(v) == BooksOf(t)
    ensures Phases(t, v, c.host, [Began(Install), Ended(Install, true)])
    ensures Rec(v, c.host).status == Rec(t, c.host).status.(installed := c.marker)
    ensures Rec(v, c.host).maintenance == Rec(t, c.host).maintenance
  {
    var c2 := c.(pc := Running(Install));
    var u1, u2;
    fs, u1 := Goes(s, es, t, id, c, Send, c2);
    var c3 := c2.(pc := Setting(Marker, ATTEMPTS, false));
    fs, u2 := Goes(s, fs, u1, id, c2, Finish(true), c3);
    OnlyOnOn(t, u1, u2, c.host);
    fs, v := Sets(s, fs, u2, id, c3);
    OnlyOnOn(t, u2, v, c.host);
    d := c3.(pc := Minting, copy := Newest(v.hosts[c.host].history));
  }

  /** A launch that has minted and recorded its token. */
  lemma RecordsToken(s: Sys, es: seq<Event>, t: Sys, id: CallId, c: Call, tok: string)
      returns (fs: seq<Event>, v: Sys, d: Call)
    requires Path(s, es, t) && Alone(t, id, c) && c.pc == Minting && tok != "" && tok !in t.minted
    ensures Path(s, fs, v) && Alone(v, id, d) && d == c.(pc := ToRun(Join), token := tok, copy := d.copy)
    ensures SameRest(t, v, c.host) && BooksOf(v) == BooksAfter(BooksOf(t), Created(tok, Owner(c.nc, c.host)))
    ensures Phases(t, v, c.host, [])
    ensures Rec(v, c.host).status == Rec(t, c.host).status.(token := tok)
    ensures Rec(v, c.host).maintenance == Rec(t, c.host).maintenance
  {
    var c1 := c.(pc := Minted, token := tok);
    fs, v := Goes(s, es, t, id, c, Mint(tok), c1);
    var c2 := c1.(pc := Setting(TokenId, ATTEMPTS, false));
    fs, v := Goes(s, fs, v, id, c1, EnvReady, c2);
    fs, v := Sets(s, fs, v, id, c2);
    d := c2.(pc := ToRun(Join), copy := Newest(v.hosts[c.host].history));
  }

  /** A launch, from nothing to the brink of its join. */
  lemma Launches(s: Sys, es: seq<Event>, t: Sys, nc: ClaimRef, h: HostId, id: CallId, marker: string, tok: string)
      returns (fs: seq<Event>, v: Sys, d: Call)
    requires Path(s, es, t) && Resting(t, h) && FreshClaim(t, nc) && Claimable(Current(t.hosts[h].history), "")
    requires (forall g <- t.hosts :: !HeldBy(Current(t.hosts[g].history).status, nc)) && marker != "" && tok != "" && tok !in t.minted
    ensures Path(s, fs, v) && Alone(v, id, d) && d.nc == nc && d.host == h && d.pc == ToRun(Join) && d.token == tok
    ensures BooksOf(v) == BooksAfter(BooksOf(t), Created(tok, Owner(nc, h)))
    ensures v.claims == t.claims + {nc} && v.born == t.born + {nc} && OnlyOn(t, v, h)
    ensures Rec(v, h).status == ClaimedBy(Rec(t, h).status, nc).(installed := marker, token := tok)
    ensures Rec(v, h).maintenance == Rec(t, h).maintenance
    ensures Phases(t, v, h, if Rec(t, h).status.installed == marker then [] else [Began(Install), Ended(Install, true)])
  {
    var u, c;
    fs, u, c := Claims(s, es, t, nc, h, id);
    fs, v, d := Readies(s, fs, u, id, c, marker, tok);
    OnlyOnOn(t, u, v, h);
  }

  /** A launch from its claim to the brink of its join. */
  lemma Readies(s: Sys, es: seq<Event>, t: Sys, id: CallId, c: Call, marker: string, tok: string)
      returns (fs: seq<Event>, v: Sys, d: Call)
    requires Path(s, es, t) && Alone(t, id, c) && c.pc == Preparing && marker != "" && tok != "" && tok !in t.minted
    ensures Path(s, fs, v) && Alone(v, id, d) && d == c.(pc := ToRun(Join), marker := marker, token := tok, copy := d.copy)
    ensures SameRest(t, v, c.host) && BooksOf(v) == BooksAfter(BooksOf(t), Created(tok, Owner(c.nc, c.host)))
    ensures Rec(v, c.host).status == Rec(t, c.host).status.(installed := marker, token := tok)
    ensures Rec(v, c.host).maintenance == Rec(t, c.host).maintenance
    ensures Phases(t, v, c.host, if Rec(t, c.host).status.installed == marker then [] else [Began(Install), Ended(Install, true)])
  {
    var u, c1;
    fs, u, c1 := Prepares(s, es, t, id, c, marker);
    fs, v, d := RecordsToken(s, fs, u, id, c1, tok);
    OnlyOnOn(t, u, v, c.host);
  }

  lemma Starts(s: Sys, h: HostId, nc: ClaimRef)
    requires Initial(s) && h in s.hosts && nc.uid != ""
    ensures Path(s, [], s) && Resting(s, h) && FreshClaim(s, nc)
    ensures forall g <- s.hosts :: Rec(s, g).status.claim == None
    ensures Rec(s, h).status.providerID == ""
  {
    forall g <- s.hosts ensures Rec(s, g).status.claim == None {
      assert NewHost(s.hosts[g]);
    }
    assert NewHost(s.hosts[h]);
  }

  // ----- a token id is stranded ---------------------------------------------------------------------------

  /** A failed launch on the way to clear its token id. */
  lemma Clears(s: Sys, es: seq<Event>, t: Sys, id: CallId, c: Call) returns (fs: seq<Event>, v: Sys, d: Call)
    requires Path(s, es, t) && Alone(t, id, c) && c.pc == ToRun(Join) && c.token != "" && Rec(t, c.host).status.token == c.token
    ensures Path(s, fs, v) && Alone(v, id, d) && d == c.(pc := Setting(NoToken, ATTEMPTS, true))
    ensures SameRest(t, v, c.host) && Rec(v, c.host) == Rec(t, c.host)
    ensures BooksOf(v) == BooksAfter(BooksOf(t), Deleted(c.token, true))
  {
    var c1 := c.(pc := Dropping(true));
    fs, v := Goes(s, es, t, id, c, Refused(true), c1);
    d := c.(pc := Setting(NoToken, ATTEMPTS, true));
    fs, v := Goes(s, fs, v, id, c1, Revoke(true), d);
  }

  /** In every pool with an Available host there is a tame run up to a point where
      losing one request leaves a token id behind without a claim. */
  lemma StrandedIsReachable(s: Sys, h: HostId, nc: ClaimRef, tok: string) returns (es: seq<Event>, u: Sys, c: Call)
    requires Initial(s) && h in s.hosts && Claimable(Current(s.hosts[h].history), "") && nc.uid != "" && tok != ""
    ensures TameRun(s, es) && Run(s, es) == u && u.calls == map[0 := c] && c.Holding? && c.host == h && h in u.hosts
    ensures c.pc == Setting(NoToken, ATTEMPTS, true) && c.copy == Newest(u.hosts[h].history) && TokenOn(u, h) == tok
    ensures var lost := [Proceed(0, Attempt(LostBefore, None)), Proceed(0, Revoke(true)), Proceed(0, Release(Delivered, ""))];
            h in Run(u, lost).hosts && Stranded(Rec(Run(u, lost), h).status)
  {
    Starts(s, h, nc);
    var d;
    es, u, d := Launches(s, [], s, nc, h, 0, "m", tok);
    es, u, c := Clears(s, es, u, 0, d);
    RunInv(s, es);
    LosesTheClear(u, c);
  }

  lemma LosesTheClear(u: Sys, c: Call)
    requires Inv(u) && Alone(u, 0, c) && c.pc == Setting(NoToken, ATTEMPTS, true) && TokenOn(u, c.host) != ""
    ensures var lost := [Proceed(0, Attempt(LostBefore, None)), Proceed(0, Revoke(true)), Proceed(0, Release(Delivered, ""))];
            c.host in Run(u, lost).hosts && Stranded(Rec(Run(u, lost), c.host).status)
  {
    var h, hist := c.host, u.hosts[c.host].history;
    assert u.calls[0] == c && CallSettled(u, c);
    StrandedExactlyWhenClearIsLost(hist, c, true, LostBefore, true, "");
    var o1 := HoldingStep(hist, c, Attempt(LostBefore, None));
    var o2 := HoldingStep(o1.history, o1.next.value, Revoke(true));
    HoldingStepOk(hist, c, Attempt(LostBefore, None));
    ExtendsKeepsLawful(hist, o1.history);
    HoldingStepOk(o1.history, o1.next.value, Revoke(true));
    var o3 := HoldingStep(o2.history, o2.next.value, Release(Delivered, ""));
    ThreeSteps(u, h, Attempt(LostBefore, None), Revoke(true), Release(Delivered, ""), o1, o2, o3);
  }

  /** Three steps of call 0 on host `h`, one after the other. */
  lemma ThreeSteps(u: Sys, h: HostId, a: CallChoice, b: CallChoice, c: CallChoice, o1: Outcome, o2: Outcome, o3: Outcome)
    requires 0 in u.calls && u.calls[0].Holding? && u.calls[0].host == h && h in u.hosts && !a.Mint? && !b.Mint? && !c.Mint?
    requires o1 == HoldingStep(u.hosts[h].history, u.calls[0], a)
    requires o1.next.Some? && o1.next.value.Holding? && o1.next.value.host == h
    requires o2 == HoldingStep(o1.history, o1.next.value, b)
    requires o2.next.Some? && o2.next.value.Holding? && o2.next.value.host == h
    requires o3 == HoldingStep(o2.history, o2.next.value, c)
    ensures var v := Run(u, [Proceed(0, a), Proceed(0, b), Proceed(0, c)]); h in v.hosts && v.hosts[h].history == o3.history
  {
    HoldingSettles(u, 0, h, a, o1);
    var v1 := Step(u, Proceed(0, a));
    HoldingSettles(v1, 0, h, b, o2);
    var v2 := Step(v1, Proceed(0, b));
    HoldingSettles(v2, 0, h, c, o3);
    RunThree(u, Proceed(0, a), Proceed(0, b), Proceed(0, c));
  }

  lemma HoldingSettles(u: Sys, id: CallId, h: HostId, ch: CallChoice, o: Outcome)
    requires id in u.calls && u.calls[id].Holding? && u.calls[id].host == h && h in u.hosts && !ch.Mint?
    requires o == HoldingStep(u.hosts[h].history, u.calls[id], ch)
    ensures var v := Step(u, Proceed(id, ch));
            && h in v.hosts && v.hosts[h].history == o.history
            && (o.next.Some? ==> id in v.calls && v.calls[id] == o.next.value)
  {}

  // ----- a launch is opened over a recorded token ------------------------------------------------------------

  /** A launch whose join succeeded, about to record its providerID. */
  lemma Joins(s: Sys, es: seq<Event>, t: Sys, id: CallId, c: Call, pid: string) returns (fs: seq<Event>, v: Sys, d: Call)
    requires Path(s, es, t) && Alone(t, id, c) && c.pc == ToRun(Join) && pid != ""
    ensures Path(s, fs, v) && Alone(v, id, d) && d.pc == Setting(Provider, ATTEMPTS, false) && d.providerID == pid
    ensures d.host == c.host && d.nc == c.nc && SameRest(t, v, c.host) && Rec(v, c.host) == Rec(t, c.host)
    ensures BooksOf(v) == BooksOf(t).(joined := t.joined + {c.token})
    ensures Phases(t, v, c.host, [Began(Join), Ended(Join, true)])
  {
    var u, c1;
    fs, u, c1 := RunsJoin(s, es, t, id, c);
    d := c1.(pc := Setting(Provider, ATTEMPTS, false), providerID := pid);
    fs, v := Goes(s, fs, u, id, c1, Adopt(pid), d);
    OnlyOnOn(t, u, v, c.host);
  }

  lemma RunsJoin(s: Sys, es: seq<Event>, t: Sys, id: CallId, c: Call) returns (fs: seq<Event>, v: Sys, d: Call)
    requires Path(s, es, t) && Alone(t, id, c) && c.pc == ToRun(Join)
    ensures Path(s, fs, v) && Alone(v, id, d) && d == c.(pc := Adopting, joinSent := true)
    ensures SameRest(t, v, c.host) && Rec(v, c.host) == Rec(t, c.host)
    ensures BooksOf(v) == BooksOf(t).(joined := t.joined + {c.token})
    ensures Phases(t, v, c.host, [Began(Join), Ended(Join, true)])
  {
    var c1 := c.(pc := Running(Join), joinSent := true);
    var u;
    fs, u := Goes(s, es, t, id, c, Send, c1);
    d := c1.(pc := Adopting);
    fs, v := Goes(s, fs, u, id, c1, Finish(true), d);
    OnlyOnOn(t, u, v, c.host);
  }

  /** An operator's edit makes the launch's copy stale, and it gives up after the conflict. */
  lemma GivesUp(s: Sys, es: seq<Event>, t: Sys, id: CallId, c: Call) returns (fs: seq<Event>, v: Sys)
    requires Path(s, es, t) && Alone(t, id, c) && c.pc == Setting(Provider, ATTEMPTS, false)
    ensures Path(s, fs, v) && Resting(v, c.host) && BooksOf(v) == BooksOf(t) && v.claims == t.claims
    ensures Rec(v, c.host).status == Rec(t, c.host).status
  {
    var cur := Rec(t, c.host);
    var edit := Edit(c.host, cur.maintenance, cur.hostClass, cur.generation + 1);
    var u := Step(t, edit);
    EditLands(t, c.host, edit);
    Extend(s, es, t, edit, u);
    v := Step(u, Proceed(id, Attempt(Delivered, None)));
    ConflictEnds(u, id, c);
    Extend(s, es + [edit], u, Proceed(id, Attempt(Delivered, None)), v);
    fs := es + [edit] + [Proceed(id, Attempt(Delivered, None))];
  }

  lemma EditLands(t: Sys, h: HostId, e: Event)
    requires h in t.hosts && e == Edit(h, Rec(t, h).maintenance, Rec(t, h).hostClass, Rec(t, h).generation + 1)
    ensures var u := Step(t, e);
            && u.calls == t.calls && BooksOf(u) == BooksOf(t) && u.claims == t.claims && h in u.hosts
            && |u.hosts[h].history| == |t.hosts[h].history| + 1 && Rec(u, h).status == Rec(t, h).status
            && u.hosts[h].probe == t.hosts[h].probe
  {}

  lemma ConflictEnds(u: Sys, id: CallId, c: Call)
    requires u.calls == map[id := c] && c.Holding? && c.host in u.hosts && u.hosts[c.host].probe.Idle?
    requires c.pc == Setting(Provider, ATTEMPTS, false) && c.copy.rv != |u.hosts[c.host].history| - 1
    ensures var v := Step(u, Proceed(id, Attempt(Delivered, None)));
            && Resting(v, c.host) && BooksOf(v) == BooksOf(u) && v.claims == u.claims
            && Rec(v, c.host) == Rec(u, c.host)
  {
    var o := SettingStep(u.hosts[c.host].history, c, Delivered, None);
    assert o == Outcome(None, u.hosts[c.host].history, Quiet);
    assert Step(u, Proceed(id, Attempt(Delivered, None))) == Settled(u, id, c.host, o);
    assert u.calls - {id} == map[];
  }

  /** In every pool with an Available host there is a tame run up to a point where a
      launch is opened over the record of an existing token. */
  lemma OpenedOverIsReachable(s: Sys, h: HostId, nc: ClaimRef, tok: string) returns (es: seq<Event>, e: Event)
    requires Initial(s) && h in s.hosts && Claimable(Current(s.hosts[h].history), "") && nc.uid != "" && tok != ""
    ensures TameRun(s, es) && NeverOpenedOver(s, es, tok) && Tame(Run(s, es), e) && OpensOver(Run(s, es), e, tok)
    ensures tok in Run(s, es).live && tok !in Run(s, es).undeleted
    ensures !StaysAccounted(Step(Run(s, es), e), tok)
  {
    Starts(s, h, nc);
    var u, c;
    es, u, c := Launches(s, [], s, nc, h, 0, "m", tok);
    es, u, c := Joins(s, es, u, 0, c, "p");
    es, u := GivesUp(s, es, u, 0, c);
    e := Open(1, nc, Launch, h, |u.hosts[h].history| - 1);
    OrphanedExactlyWhenOpenedOver(s, es, e, tok);
  }

  // ----- a token is minted beside a providerID -------------------------------------------------------------------

  /** A launch that ran to its end. */
  lemma Completes(s: Sys, es: seq<Event>, t: Sys, id: CallId, c: Call) returns (fs: seq<Event>, v: Sys)
    requires Path(s, es, t) && Alone(t, id, c) && c.pc == Setting(Provider, ATTEMPTS, false)
    ensures Path(s, fs, v) && Resting(v, c.host) && BooksOf(v) == BooksOf(t) && v.claims == t.claims
    ensures Rec(v, c.host).status == Rec(t, c.host).status.(providerID := c.providerID, state := InUse)
    ensures Rec(v, c.host).maintenance == Rec(t, c.host).maintenance
    ensures Phases(t, v, c.host, [])
  {
    var u;
    fs, u := Sets(s, es, t, id, c);
    var c1 := c.(pc := Setting(UseState, ATTEMPTS, false), copy := Newest(u.hosts[c.host].history));
    fs, v := Sets(s, fs, u, id, c1);
  }

  /** In every pool with an Available host nobody works on, a launch that is answered
      well goes through: it installs unless that very marker is recorded, mints, joins,
      and leaves the host InUse under its claim, with the token still in the books. */
  lemma LaunchGoesThrough(s: Sys, es: seq<Event>, t: Sys, nc: ClaimRef, h: HostId, marker: string, tok: string, pid: string)
      returns (fs: seq<Event>, v: Sys)
    requires Path(s, es, t) && Resting(t, h) && FreshClaim(t, nc)
    requires forall g <- t.hosts :: !HeldBy(Rec(t, g).status, nc)
    requires Rec(t, h).status.state == Available && Rec(t, h).status.claim == None && !Rec(t, h).maintenance
    requires marker != "" && tok != "" && tok !in t.minted && pid != ""
    ensures Path(s, fs, v) && h in v.hosts
    ensures Rec(v, h).status
         == Rec(t, h).status.(state := InUse, claim := Some(nc), installed := marker, token := tok, providerID := pid)
    ensures tok in v.live && tok in v.joined && tok in v.minted && v.minted[tok] == Owner(nc, h)
    ensures v.hosts[h].phases
         == t.hosts[h].phases + (if Rec(t, h).status.installed == marker then [] else [Began(Install), Ended(Install, true)])
            + [Began(Join), Ended(Join, true)]
  {
    var u, c;
    fs, u, c := Launches(s, es, t, nc, h, 0, marker, tok);
    fs, u, c := Joins(s, fs, u, 0, c, pid);
    fs, v := Completes(s, fs, u, 0, c);
  }

  /** The probe's move on a host at rest. */
  lemma ProbeMoves(s: Sys, es: seq<Event>, t: Sys, h: HostId, e: Event, v: Sys) returns (fs: seq<Event>)
    requires Path(s, es, t) && (e.Reconcile? || e.Observe?) && Tamely(t, e, v)
    ensures Path(s, fs, v)
  {
    Extend(s, es, t, e, v);
    fs := es + [e];
  }

  lemma CollectsToken(t: Sys, h: HostId) returns (e1: Event, e2: Event, e3: Event, e4: Event, v: Sys)
    requires Resting(t, h) && var st := Rec(t, h).status;
             st.claim.Some? && st.state == InUse && st.token != "" && st.providerID != ""
    ensures e1.Reconcile? && e2.Observe? && e3.Observe? && e4.Observe?
    ensures var t1 := Step(t, e1); var t2 := Step(t1, e2); var t3 := Step(t2, e3);
            Tame(t, e1) && Tame(t1, e2) && Tame(t2, e3) && Tame(t3, e4) && v == Step(t3, e4)
    ensures Resting(v, h) && v.claims == t.claims && v.minted == t.minted
    ensures Rec(v, h).status == Rec(t, h).status.(token := "")
  {
    var hist := t.hosts[h].history;
    var base, st := Newest(hist), Current(hist).status;
    e1 := Reconcile(h, |hist| - 1);
    e2 := Observe(h, Looked(Alive));
    e3 := Observe(h, Collect(Some(true), true));
    e4 := Observe(h, Write(Delivered, st.facts));
    LooksForNode(t, h, e1, e2);
    var t2 := t.(hosts := t.hosts[h := t.hosts[h].(probe := Collecting(base))]);
    var t3 := Step(t2, e3);
    assert t3.hosts == t.hosts[h := t.hosts[h].(probe := Patching(base, st.(token := ""), false))];
    v := Step(t3, e4);
    ClearsRecord(t3, h, v);
  }

  lemma LooksForNode(t: Sys, h: HostId, e1: Event, e2: Event)
    requires Resting(t, h) && e1 == Reconcile(h, |t.hosts[h].history| - 1) && e2 == Observe(h, Looked(Alive))
    requires var st := Rec(t, h).status;
             st.claim.Some? && st.state == InUse && st.token != "" && st.providerID != ""
    ensures Tame(t, e1) && Tame(Step(t, e1), e2)
    ensures Step(Step(t, e1), e2) == t.(hosts := t.hosts[h := t.hosts[h].(probe := Collecting(Newest(t.hosts[h].history)))])
  {
    var base := Newest(t.hosts[h].history);
    assert Step(t, e1) == t.(hosts := t.hosts[h := t.hosts[h].(probe := Checking(base))]);
  }

  lemma ClearsRecord(t: Sys, h: HostId, v: Sys)
    requires h in t.hosts && Rec(t, h).status.token != "" && t.calls == map[]
    requires t.hosts[h].probe == Patching(Newest(t.hosts[h].history), Rec(t, h).status.(token := ""), false)
    requires v == Step(t, Observe(h, Write(Delivered, Rec(t, h).status.facts)))
    ensures Resting(v, h) && v.claims == t.claims && v.minted == t.minted
    ensures Rec(v, h).status == Rec(t, h).status.(token := "")
  {}

  /** In every pool with an Available host there is a tame run up to a point where a
      launch mints a token beside a providerID of an earlier launch. */
  lemma MintedBesideIsReachable(s: Sys, h: HostId, nc: ClaimRef, tok: string, other: string) returns (es: seq<Event>, e: Event)
    requires Initial(s) && h in s.hosts && Claimable(Current(s.hosts[h].history), "") && nc.uid != ""
    requires tok != "" && other != "" && tok != other
    ensures TameRun(s, es) && Tame(Run(s, es), e) && Mints(Run(s, es), e, other, h) && ProviderOn(Run(s, es), h) != ""
    ensures !SafeToCollect(Step(Run(s, es), e), other)
  {
    Starts(s, h, nc);
    var u, c;
    es, u, c := Launches(s, [], s, nc, h, 0, "m", tok);
    es, u, c := Joins(s, es, u, 0, c, "p");
    es, u := Completes(s, es, u, 0, c);
    es, u := CollectsAlong(s, es, u, h);
    var more := ResumesMinting(u, h, nc);
    TameConcat(s, es, more);
    RunConcat(s, es, more);
    es := es + more;
    e := Proceed(1, Mint(other));
    SafeExactlyWithoutProvider(s, es, e, h, other);
  }

  lemma CollectsAlong(s: Sys, es: seq<Event>, t: Sys, h: HostId) returns (fs: seq<Event>, v: Sys)
    requires Path(s, es, t) && Resting(t, h) && var st := Rec(t, h).status;
             st.claim.Some? && st.state == InUse && st.token != "" && st.providerID != ""
    ensures Path(s, fs, v) && Resting(v, h) && v.claims == t.claims && v.minted == t.minted
    ensures Rec(v, h).status == Rec(t, h).status.(token := "")
  {
    var e1, e2, e3, e4;
    e1, e2, e3, e4, v := CollectsToken(t, h);
    fs := ProbeMoves(s, es, t, h, e1, Step(t, e1));
    fs := ProbeMoves(s, fs, Step(t, e1), h, e2, Step(Step(t, e1), e2));
    fs := ProbeMoves(s, fs, Step(Step(t, e1), e2), h, e3, Step(Step(Step(t, e1), e2), e3));
    fs := ProbeMoves(s, fs, Step(Step(Step(t, e1), e2), e3), h, e4, v);
  }

  lemma ResumesMinting(t: Sys, h: HostId, nc: ClaimRef) returns (more: seq<Event>)
    requires Resting(t, h) && nc in t.claims && Rec(t, h).status.claim == Some(nc) && Rec(t, h).status.installed != ""
    ensures TameRun(t, more)
    ensures var v := Run(t, more);
            && v.minted == t.minted && v.hosts == t.hosts
            && 1 in v.calls && v.calls[1].Holding? && v.calls[1].pc == Minting && v.calls[1].host == h
  {
    var open := Open(1, nc, Launch, h, |t.hosts[h].history| - 1);
    var conf := Proceed(1, Configured(Rec(t, h).status.installed));
    var u := Step(t, open);
    var c := Fresh(nc, Launch, Preparing, h, Newest(t.hosts[h].history));
    assert u == t.(calls := t.calls[1 := c]);
    var v := Step(u, conf);
    var o := Outcome(Some(c.(marker := Rec(t, h).status.installed, pc := Minting)), t.hosts[h].history, Quiet);
    assert v == Settled(u, 1, h, o);
    assert t.hosts[h := t.hosts[h]] == t.hosts;
    more := [open, conf];
    RunTwo(t, open, conf);
    assert more[..0] == [] && more[..1] == [open];
    RunOne(t, open);
  }

  lemma RunOne(s: Sys, e: Event)
    ensures Run(s, [e]) == Step(s, e)
  {
    RunCons(s, e, []);
    assert [e] + [] == [e];
  }

  // ----- a teardown starts from an old version ---------------------------------------------------------------

  /** A launch on its way out of a host releases it. */
  lemma GoesAwayFrom(s: Sys, es: seq<Event>, t: Sys, id: CallId, c: Call) returns (fs: seq<Event>, v: Sys)
    requires Path(s, es, t) && Alone(t, id, c) && c.pc == Revoking(true) && Rec(t, c.host).status.token == ""
    ensures Path(s, fs, v) && Resting(v, c.host) && SameRest(t, v, c.host) && v.minted == t.minted
    ensures Rec(v, c.host) == Rec(t, c.host).(status := Released(Rec(t, c.host).status, true, ""))
  {
    var c1 := c.(pc := Releasing(true));
    var u;
    fs, u := Goes(s, es, t, id, c, Revoke(true), c1);
    v := ReleaseAlone(u, id, c1, "");
    OnlyOnOn(t, u, v, c.host);
    Extend(s, fs, u, Proceed(id, Release(Delivered, "")), v);
    fs := fs + [Proceed(id, Release(Delivered, ""))];
  }

  /** A launch that failed before its join was sent, and released its host. */
  lemma Releases(s: Sys, es: seq<Event>, t: Sys, id: CallId, c: Call) returns (fs: seq<Event>, v: Sys)
    requires Path(s, es, t) && Alone(t, id, c) && c.pc == ToRun(Join) && c.token != "" && Rec(t, c.host).status.token == c.token
    ensures Path(s, fs, v) && Resting(v, c.host) && SameRest(t, v, c.host) && v.minted == t.minted
    ensures Rec(v, c.host).status == Released(Rec(t, c.host).status, true, "")
    ensures Rec(v, c.host).maintenance == Rec(t, c.host).maintenance
  {
    var u1, u2, c1;
    fs, u1, c1 := Clears(s, es, t, id, c);
    fs, u2 := Sets(s, fs, u1, id, c1);
    OnlyOnOn(t, u1, u2, c.host);
    var c2 := c1.(pc := Revoking(true), copy := Newest(u2.hosts[c.host].history));
    fs, v := GoesAwayFrom(s, fs, u2, id, c2);
    OnlyOnOn(t, u2, v, c.host);
  }

  /** Two launches, one after the other: the first released the host, the second is
      running its join on it. */
  lemma TwoLaunches(s: Sys, h: HostId, nc: ClaimRef, other: ClaimRef) returns (es: seq<Event>, w: Sys, i: nat)
    requires Initial(s) && h in s.hosts && Claimable(Current(s.hosts[h].history), "")
    requires nc.uid != "" && other.uid != "" && nc.name != other.name
    ensures Path(s, es, w) && h in w.hosts && nc in w.claims && i < |w.hosts[h].history| - 1
    ensures 1 in w.calls && 2 !in w.calls && CallPhaseOn(w.calls[1], h)
    ensures HeldBy(StatusAt(w.hosts[h].history, i), nc) && StatusAt(w.hosts[h].history, i).installed != ""
  {
    Starts(s, h, nc);
    var t, u, c;
    es, t, c := Launches(s, [], s, nc, h, 0, "m", "t");
    i := |t.hosts[h].history| - 1;
    es, u := Releases(s, es, t, 0, c);
    OnlyOnOn(s, t, u, h);
    es, w := SecondLaunch(s, es, u, h, other);
    OldVersionStays(t, u, w, h, i);
  }

  lemma SecondLaunch(s: Sys, es: seq<Event>, u: Sys, h: HostId, other: ClaimRef) returns (fs: seq<Event>, w: Sys)
    requires Path(s, es, u) && Resting(u, h) && FreshClaim(u, other) && Claimable(Current(u.hosts[h].history), "")
    requires (forall g <- u.hosts :: Rec(u, g).status.claim == None) && "u" !in u.minted
    ensures Path(s, fs, w) && OnlyOn(u, w, h) && u.claims <= w.claims && Rec(w, h).status.claim == Some(other)
    ensures 1 in w.calls && 2 !in w.calls && CallPhaseOn(w.calls[1], h)
  {
    var v, d;
    fs, v, d := Launches(s, es, u, other, h, 1, "m", "u");
    var d1 := d.(pc := Running(Join), joinSent := true);
    fs, w := Goes(s, fs, v, 1, d, Send, d1);
    OnlyOnOn(u, v, w, h);
  }

  /** In every pool with an Available host there is a tame run up to a point where a
      teardown for an existing NodeClaim, if it starts from a version that is no longer
      current, makes two phases run on the host at once. */
  lemma OverlapIsReachable(s: Sys, h: HostId, nc: ClaimRef, other: ClaimRef) returns (es: seq<Event>, w: Sys, i: nat)
    requires Initial(s) && h in s.hosts && Claimable(Current(s.hosts[h].history), "")
    requires nc.uid != "" && other.uid != "" && nc.name != other.name
    ensures TameRun(s, es) && Run(s, es) == w && h in w.hosts && nc in w.claims && i < |w.hosts[h].history| - 1
    ensures Overlaps(Step(Step(w, Open(2, nc, Teardown, h, i)), Proceed(2, Send)), h)
  {
    es, w, i := TwoLaunches(s, h, nc, other);
    StaleTeardownOverlaps(w, h, 1, 2, nc, i);
  }

  lemma OldVersionStays(t: Sys, u: Sys, w: Sys, h: HostId, i: nat)
    requires h in t.hosts && OnlyOn(t, u, h) && OnlyOn(u, w, h) && i == |t.hosts[h].history| - 1
    requires Rec(w, h) != Rec(t, h)
    ensures i < |w.hosts[h].history| - 1 && w.hosts[h].history[i].version == Rec(t, h)
  {}
}
