/**
 The inductive invariant of the claim protocol, over every run: any
 interleaving, any stale read, any lost response, any number of calls per
 NodeClaim.  Its heart is that every write the actors land is `Lawful`, so that
 everything proved in `Ledger` about lawful histories holds of the store.
 */
module Invariant {
  import opened Options
  import opened Records
  import opened Ledger
  import opened Protocol

  // ----- what each actor's local state says about the store ------------------------------

  /** A copy agrees with the version it came from, except for an install marker or
      a token id whose write was not acknowledged. */
  predicate Faithful(hist: History, c: Copy) {
    && c.rv < |hist|
    && var v, s := hist[c.rv].version.status, c.version.status;
       s == v.(installed := s.installed, token := s.token)
  }

  /** The part of a launch in which the join script has not been sent. */
  predicate BeforeJoin(pc: Pc) {
    match pc
    case Preparing => true
    case ToRun(_) => true
    case Running(p) => p == Install
    case Setting(f, _, healthy) => f == Marker || f == TokenId || healthy
    case Minting => true
    case Minted => true
    case Dropping(healthy) => healthy
    case Adopting => false
    case Revoking(healthy) => healthy
    case Releasing(healthy) => healthy
  }

  predicate PhaseFits(kind: Kind, pc: Pc) {
    match pc
    case ToRun(p) => KindOf(p) == kind
    case Running(p) => KindOf(p) == kind
    case Revoking(_) => kind != Repair
    case Releasing(_) => kind != Repair
    case _ => kind == Launch
  }

  function KindOf(p: Phase): Kind {
    match p
    case Install => Launch
    case Join => Launch
    case Leave => Teardown
    case Reboot => Repair
  }

  predicate CallOk(hist: History, c: Call) {
    c.Holding? ==>
      Faithful(hist, c.copy) && HeldBy(c.copy.version.status, c.nc) && PcOk(c)
  }

  predicate PcOk(c: Call)
    requires c.Holding?
  {
    PhaseFits(c.kind, c.pc) && (c.kind == Launch && BeforeJoin(c.pc) ==> !c.joinSent)
  }

  /** The host is fenced: what is stored is the probe's own Leaving version. */
  predicate Fence(hist: History, base: Copy) {
    && base.version.status.state == Leaving
    && base.version.status.claim == None
    && Current(hist).status == base.version.status
  }

  predicate ProbeOk(hist: History, p: Probe, now: int) {
    !p.Idle? ==>
    && p.base.rv < |hist|
    && p.base.version == hist[p.base.rv].version
    && var v := p.base.version;
       match p
       case Idle => true
       case Checking(_) => v.status.claim.Some?
       case Reaping(_) => v.status.claim.Some?
       case Collecting(_) => v.status.claim.Some? && v.status.providerID != "" && v.status.token != ""
       case Probing(_, asOf) =>
         && asOf <= now && !Recent(v, asOf)
         && v.status.claim == None && Switched(v).state != Maintenance
       case SavingFacts(_, next) =>
         v.status.claim == None && !v.maintenance && UnclaimedUpkeep(v, next)
       case Guarding(_) => v.status.claim == None && !v.maintenance
       case Fencing(_, _) => v.status.claim == None && !v.maintenance
       case Fenced(_, _) => Fence(hist, p.base) && !v.maintenance
       case Expelling(_, _) => Fence(hist, p.base) && !v.maintenance
       case DroppingNode(_) => Fence(hist, p.base) && !v.maintenance
       case Patching(_, next, closing) => Upkeep(v, next) && (closing ==> Fence(hist, p.base))
  }

  /** At most one lawful entry more. */
  ghost predicate Extends(hist: History, after: History) {
    || after == hist
    || (&& |after| == |hist| + 1 && after[..|hist|] == hist
        && Lawful(Current(hist), after[|hist|]))
  }

  predicate Grew(hist: History, after: History) {
    |after| == |hist| + 1
  }

  ghost predicate Inv(s: Sys) {
    && (forall h <- s.hosts ::
          LawfulHistory(s.hosts[h].history) && ProbeOk(s.hosts[h].history, s.hosts[h].probe, s.clock))
    && (forall id <- s.calls :: CallSettled(s, s.calls[id]))
  }

  ghost predicate CallSettled(s: Sys, c: Call) {
    c.Holding? ==> c.host in s.hosts && CallOk(s.hosts[c.host].history, c)
  }

  // ----- one write --------------------------------------------------------------------------

  lemma ExtendsKeepsLawful(hist: History, after: History)
    requires LawfulHistory(hist) && Extends(hist, after)
    ensures LawfulHistory(after)
  {
    if after != hist {
      forall i | 0 < i < |after| ensures Lawful(after[i - 1].version, after[i]) {
        if i < |hist| {
          assert after[i] == after[..|hist|][i] && after[i - 1] == after[..|hist|][i - 1];
        } else {
          assert after[i - 1] == after[..|hist|][i - 1];
        }
      }
      assert after[0] == after[..|hist|][0];
    }
  }

  lemma ExtendsKeepsVersions(hist: History, after: History, i: nat)
    requires Extends(hist, after) && i < |hist|
    ensures i < |after| && after[i] == hist[i]
  {
    if after != hist {
      assert after[i] == after[..|hist|][i];
    }
  }

  lemma ExtendsKeepsCall(hist: History, after: History, c: Call)
    requires Extends(hist, after) && CallOk(hist, c)
    ensures CallOk(after, c)
  {
    if c.Holding? {
      ExtendsKeepsVersions(hist, after, c.copy.rv);
    }
  }

  /** Nobody else's write disturbs a probe in flight, not even inside the fence. */
  lemma ExtendsKeepsProbe(hist: History, after: History, p: Probe, now: int)
    requires LawfulHistory(hist) && Extends(hist, after) && ProbeOk(hist, p, now)
    requires Grew(hist, after) ==> after[|hist|].who != Prober
    ensures ProbeOk(after, p, now)
  {
    if !p.Idle? {
      ExtendsKeepsVersions(hist, after, p.base.rv);
      AllSound(hist, |hist| - 1);
    }
  }

  lemma LandExtends(hist: History, v: Version, who: Writer)
    requires Lawful(Current(hist), Entry(v, who))
    ensures Extends(hist, Land(hist, v, who))
    ensures Current(Land(hist, v, who)) == v
    ensures Grew(hist, Land(hist, v, who)) ==> Land(hist, v, who)[|hist|] == Entry(v, who)
    ensures !Grew(hist, Land(hist, v, who)) ==> Land(hist, v, who) == hist
  {
    var after := Land(hist, v, who);
    if v != Current(hist) {
      assert after[..|hist|] == hist;
    }
  }

  // ----- calls --------------------------------------------------------------------------------

  /** What a step of a call guarantees, whatever the environment answers. */
  ghost predicate CallGuarantee(hist: History, c: Call, o: Outcome) {
    && Extends(hist, o.history)
    && (Grew(hist, o.history) ==> WroteAs(c, o.history[|hist|].who, o.next))
    && NextOk(o.history, c, o.next)
  }

  /** Only a seeking call claims, only a holding one sets fields or releases, and
      a release is its last write. */
  predicate WroteAs(c: Call, who: Writer, next: Option<Call>) {
    match who
    case Claimer(nc, _) => nc == c.nc && c.Seeking? && (next.Some? ==> next.value.Holding?)
    case Setter(nc) => nc == c.nc && c.Holding?
    case Releaser(nc) => nc == c.nc && c.Holding? && next.None?
    case _ => false
  }

  predicate NextOk(hist: History, c: Call, next: Option<Call>) {
    next.Some? ==>
      var n := next.value;
      && n.nc == c.nc && CallOk(hist, n)
      && (c.Holding? ==>
            && n.Holding? && n.host == c.host && n.kind == c.kind
            && n.copy.version.status.claim == c.copy.version.status.claim)
      && (c.Seeking? && n.Holding? ==>
            n.kind == Launch && n.copy == Newest(hist) && Current(hist).status.claim == Some(c.nc))
  }

  lemma SetterWriteExtends(hist: History, c: Call, field: Field, fate: Fate)
    requires LawfulHistory(hist) && c.Holding? && CallOk(hist, c)
    ensures var edited := Mutated(c, field, c.copy.version.status);
            var (after, reply) := Patched(hist, c.copy, edited, Setter(c.nc), fate);
            && Extends(hist, after)
            && (Grew(hist, after) ==> after[|hist|].who == Setter(c.nc))
            && (reply == Accepted ==> Current(after).status.claim == c.copy.version.status.claim)
            && (reply == Conflicted ==> after == hist)
  {
    if fate != LostBefore && c.copy.rv == |hist| - 1 {
      var s, v := c.copy.version.status, Current(hist);
      var t := Merged(s, Mutated(c, field, s), v.status);
      assert OneField(v.status, t);
      LandExtends(hist, v.(status := t), Setter(c.nc));
    }
  }

  /** Going on with another copy of the record, as long as it shows the same claim. */
  lemma AfterSettingOk(hist: History, c: Call, copy: Copy, ok: bool)
    requires c.Holding? && c.pc.Setting? && CallOk(hist, c)
    requires Faithful(hist, copy) && copy.version.status.claim == c.copy.version.status.claim
    ensures NextOk(hist, c, AfterSetting(c.(copy := copy), c.pc.field, c.pc.healthy, ok))
  {}

  lemma DirtyOk(hist: History, c: Call)
    requires c.Holding? && c.pc.Setting? && CallOk(hist, c)
    ensures var edited := c.copy.version.(status := Mutated(c, c.pc.field, c.copy.version.status));
            NextOk(hist, c, AfterSetting(c.(copy := c.copy.(version := edited)), c.pc.field, c.pc.healthy, false))
  {
    if !c.pc.field.Provider? && !c.pc.field.UseState? {
      var edited := c.copy.version.(status := Mutated(c, c.pc.field, c.copy.version.status));
      AfterSettingOk(hist, c, c.copy.(version := edited), false);
    }
  }

  lemma RereadOk(hist: History, c: Call, i: nat)
    requires c.Holding? && c.pc.Setting? && CallOk(hist, c) && i < |hist|
    requires StatusAt(hist, i).claim == c.copy.version.status.claim
    ensures var seen := Copy(i, hist[i].version);
            && NextOk(hist, c, AfterSetting(c.(copy := seen), c.pc.field, c.pc.healthy, false))
            && forall left: nat :: NextOk(hist, c, Some(c.(copy := seen, pc := c.pc.(left := left))))
  {
    AfterSettingOk(hist, c, Copy(i, hist[i].version), false);
  }

  lemma AfterAttemptOk(c: Call, after: History, reply: Reply, reread: Option<nat>)
    requires c.Holding? && c.pc.Setting? && CallOk(after, c)
    requires reply == Accepted ==> Current(after).status.claim == c.copy.version.status.claim
    ensures NextOk(after, c, AfterAttempt(c, after, reply, reread))
  {
    if reply == Accepted {
      AfterSettingOk(after, c, Newest(after), true);
    } else {
      DirtyOk(after, c);
      if reread.Some? && reread.value < |after|
         && StatusAt(after, reread.value).claim == c.copy.version.status.claim {
        RereadOk(after, c, reread.value);
      }
    }
  }

  lemma SettingStepOk(hist: History, c: Call, fate: Fate, reread: Option<nat>)
    requires LawfulHistory(hist) && c.Holding? && CallOk(hist, c) && c.pc.Setting?
    ensures CallGuarantee(hist, c, SettingStep(hist, c, fate, reread))
  {
    var edited := Mutated(c, c.pc.field, c.copy.version.status);
    var (after, reply) := Patched(hist, c.copy, edited, Setter(c.nc), fate);
    SetterWriteExtends(hist, c, c.pc.field, fate);
    ExtendsKeepsCall(hist, after, c);
    AfterAttemptOk(c, after, reply, reread);
  }

  lemma ReleaseStepOk(hist: History, c: Call, fate: Fate, reason: string)
    requires LawfulHistory(hist) && c.Holding? && CallOk(hist, c) && c.pc.Releasing?
    ensures CallGuarantee(hist, c, ReleaseStep(hist, c, fate, reason))
  {
    if fate != LostBefore && c.copy.rv == |hist| - 1 {
      var s, v := c.copy.version.status, Current(hist);
      var t := Merged(s, Released(s, c.pc.healthy, reason), v.status);
      assert ReleaseOf(v.status, t);
      LandExtends(hist, v.(status := t), Releaser(c.nc));
    }
  }

  lemma LocalMoveShape(c: Call, ch: CallChoice)
    requires c.Holding? && PcOk(c)
    ensures var next := LocalMove(c, ch).next;
            next.Some? ==>
              && next.value.Holding? && next.value.nc == c.nc && next.value.host == c.host
              && next.value.kind == c.kind
              && next.value.copy == c.copy && PcOk(next.value)
  {}

  lemma LocalMoveOk(hist: History, c: Call, ch: CallChoice)
    requires c.Holding? && CallOk(hist, c)
    ensures NextOk(hist, c, LocalMove(c, ch).next)
  {
    LocalMoveShape(c, ch);
  }

  lemma HoldingStepOk(hist: History, c: Call, ch: CallChoice)
    requires LawfulHistory(hist) && c.Holding? && CallOk(hist, c)
    ensures CallGuarantee(hist, c, HoldingStep(hist, c, ch))
  {
    if c.pc.Setting? && ch.Attempt? {
      SettingStepOk(hist, c, ch.fate, ch.reread);
    } else if c.pc.Releasing? && ch.Release? {
      ReleaseStepOk(hist, c, ch.fate, ch.reason);
    } else {
      LocalMoveOk(hist, c, ch);
    }
  }

  lemma SeekingStepOk(hist: History, c: Call, ch: CallChoice)
    requires LawfulHistory(hist) && c.Seeking? && ch.Pick?
    ensures CallGuarantee(hist, c, SeekingStep(hist, c, ch))
  {
    if ch.i < |hist| && Claimable(hist[ch.i].version, ch.hostClass)
       && ch.fate != LostBefore && ch.i == |hist| - 1 {
      var v := Current(hist);
      LandExtends(hist, v.(status := ClaimedBy(v.status, c.nc)), Claimer(c.nc, ch.hostClass));
    }
  }

  // ----- the probe ------------------------------------------------------------------------------

  ghost predicate ProbeGuarantee(hist: History, o: ProbeOutcome, now: int) {
    && Extends(hist, o.history)
    && (Grew(hist, o.history) ==> o.history[|hist|].who == Prober)
    && ProbeOk(o.history, o.next, now)
  }

  lemma AfterReadOk(hist: History, i: nat, now: int)
    requires LawfulHistory(hist) && i < |hist|
    ensures ProbeOk(hist, AfterRead(Copy(i, hist[i].version), now), now)
  {
    AllSound(hist, i);
  }

  /** The guard ran at `asOf`; the time recorded is a whole second no earlier. */
  lemma ProbedIsSpaced(v: Version, asOf: int, now: int)
    requires Sound(v.status) && asOf <= now && !Recent(v, asOf)
    ensures Spaced(v.status, Probed(v, now))
  {
    var t := Truncated(now);
    assert t % SECOND == 0 && t <= now < t + SECOND;
    if v.status.probedAt.Some? && v.status.observedGeneration == v.generation {
      var past := v.status.probedAt.value;
      assert now - past >= PROBE_INTERVAL && past % SECOND == 0;
      assert past == past / SECOND * SECOND && t == now / SECOND * SECOND;
    }
  }

  lemma ProbedKeepsUpkeep(v: Version, asOf: int, now: int)
    requires Sound(v.status) && asOf <= now && !Recent(v, asOf)
    requires v.status.claim == None && Switched(v).state != Maintenance
    ensures !v.maintenance && UnclaimedUpkeep(v, Probed(v, now))
  {
    ProbedIsSpaced(v, asOf, now);
  }

  lemma ProberWriteExtends(hist: History, base: Copy, edited: Status, fate: Fate)
    requires base.rv < |hist| && base.version == hist[base.rv].version
    requires Upkeep(base.version, edited)
    ensures var (after, reply) := Patched(hist, base, edited, Prober, fate);
            && Extends(hist, after)
            && (Grew(hist, after) ==> after[|hist|].who == Prober)
            && (reply == Accepted ==> Current(after) == base.version.(status := edited))
  {
    if fate != LostBefore && base.rv == |hist| - 1 {
      LandExtends(hist, base.version.(status := edited), Prober);
    }
  }

  lemma ProbingOk(hist: History, p: Probe, ch: ProbeChoice, now: int)
    requires LawfulHistory(hist) && p.Probing? && ProbeOk(hist, p, now)
    ensures ProbeGuarantee(hist, ProbeStep(hist, p, ch, now), now)
  {
    AllSound(hist, p.base.rv);
    ProbedKeepsUpkeep(p.base.version, p.asOf, now);
  }

  lemma WritingOk(hist: History, p: Probe, ch: ProbeChoice, now: int)
    requires LawfulHistory(hist) && ProbeOk(hist, p, now)
    requires p.SavingFacts? || p.Fencing? || p.Patching?
    ensures ProbeGuarantee(hist, ProbeStep(hist, p, ch, now), now)
  {
    if ch.Write? {
      AllSound(hist, p.base.rv);
      var edited :=
        if p.SavingFacts? then p.next
        else if p.Fencing? then p.base.version.status.(state := Leaving)
        else p.next.(facts := ch.facts);
      ProberWriteExtends(hist, p.base, edited, ch.fate);
    }
  }

  lemma ProbeStepOk(hist: History, p: Probe, ch: ProbeChoice, now: int)
    requires LawfulHistory(hist) && ProbeOk(hist, p, now)
    ensures ProbeGuarantee(hist, ProbeStep(hist, p, ch, now), now)
  {
    if p.Probing? {
      ProbingOk(hist, p, ch, now);
    } else if p.SavingFacts? || p.Fencing? || p.Patching? {
      WritingOk(hist, p, ch, now);
    } else if !p.Idle? {
      AllSound(hist, p.base.rv);
    }
  }

  // ----- the whole system -------------------------------------------------------------------------

  /** Only host `h` changed, and its history at most grew by one lawful entry. */
  ghost predicate OnlyHost(s: Sys, t: Sys, h: HostId) {
    && h in s.hosts && t.hosts.Keys == s.hosts.Keys
    && (forall g <- s.hosts | g != h :: t.hosts[g] == s.hosts[g])
    && Extends(s.hosts[h].history, t.hosts[h].history)
    && t.clock == s.clock
  }

  lemma SettledStays(s: Sys, t: Sys, h: HostId, c: Call)
    requires OnlyHost(s, t, h) && CallSettled(s, c)
    ensures CallSettled(t, c)
  {
    if c.Holding? && c.host == h {
      ExtendsKeepsCall(s.hosts[h].history, t.hosts[h].history, c);
    }
  }

  lemma HostStepInv(s: Sys, t: Sys, h: HostId)
    requires Inv(s) && OnlyHost(s, t, h)
    requires ProbeOk(t.hosts[h].history, t.hosts[h].probe, t.clock)
    requires forall id <- t.calls :: (id in s.calls && t.calls[id] == s.calls[id]) || CallSettled(t, t.calls[id])
    ensures Inv(t)
  {
    ExtendsKeepsLawful(s.hosts[h].history, t.hosts[h].history);
    forall id <- t.calls ensures CallSettled(t, t.calls[id]) {
      if id in s.calls && t.calls[id] == s.calls[id] {
        SettledStays(s, t, h, s.calls[id]);
      }
    }
  }

  lemma SettledShape(s: Sys, id: CallId, h: HostId, o: Outcome)
    requires h in s.hosts
    ensures var t := Settled(s, id, h, o);
            && t.hosts.Keys == s.hosts.Keys && t.clock == s.clock
            && t.hosts[h].history == o.history && t.hosts[h].probe == s.hosts[h].probe
            && t.hosts[h].phases == Traced(s.hosts[h].phases, o.effect)
            && (forall g <- s.hosts | g != h :: t.hosts[g] == s.hosts[g])
            && (forall i <- t.calls :: if i == id then o.next == Some(t.calls[i])
                                       else i in s.calls && t.calls[i] == s.calls[i])
            && t.claims == s.claims && t.born == s.born
  {}

  lemma SettledInv(s: Sys, id: CallId, h: HostId, o: Outcome)
    requires Inv(s) && Settles(s, id, h, o)
    ensures Inv(Settled(s, id, h, o))
  {
    SettledShape(s, id, h, o);
    ExtendsKeepsProbe(s.hosts[h].history, o.history, s.hosts[h].probe, s.clock);
    HostStepInv(s, Settled(s, id, h, o), h);
  }

  lemma CallOutcomeOk(hist: History, c: Call, ch: CallChoice)
    requires LawfulHistory(hist) && CallOk(hist, c) && (c.Seeking? ==> ch.Pick?)
    ensures CallGuarantee(hist, c, CallOutcome(hist, c, ch))
  {
    if c.Holding? { HoldingStepOk(hist, c, ch); } else { SeekingStepOk(hist, c, ch); }
  }

  lemma TargetKept(hist: History, c: Call, ch: CallChoice)
    requires c.Seeking? && ch.Pick?
    ensures var next := SeekingStep(hist, c, ch).next;
            next.Some? && next.value.Holding? ==> next.value.host == ch.host
  {}

  /** A call's step on the host it targets: a guaranteed outcome, settled. */
  ghost predicate Settles(s: Sys, id: CallId, h: HostId, o: Outcome) {
    && id in s.calls && h in s.hosts
    && (s.calls[id].Holding? ==> s.calls[id].host == h)
    && (o.next.Some? && o.next.value.Holding? ==> o.next.value.host == h)
    && CallGuarantee(s.hosts[h].history, s.calls[id], o)
  }

  lemma CallOutcomeSettles(s: Sys, id: CallId, ch: CallChoice, h: HostId)
    requires Inv(s) && id in s.calls && h in s.hosts && CallTarget(s.calls[id], ch) == Some(h)
    ensures Settles(s, id, h, CallOutcome(s.hosts[h].history, s.calls[id], ch))
  {
    var c, hist := s.calls[id], s.hosts[h].history;
    assert CallSettled(s, c);
    CallOutcomeOk(hist, c, ch);
    if c.Seeking? { TargetKept(hist, c, ch); }
  }

  /** The call has a host to work on, and goes on to work on it. */
  predicate Works(s: Sys, id: CallId, ch: CallChoice, h: HostId) {
    && id in s.calls && h in s.hosts && CallTarget(s.calls[id], ch) == Some(h)
    && FreshMint(s, ch) && !(s.calls[id].Seeking? && ch.GiveUp?)
  }

  lemma CallStepSettles(s: Sys, id: CallId, ch: CallChoice, h: HostId)
    requires Works(s, id, ch, h)
    ensures CallStep(s, id, ch) == Settled(s, id, h, CallOutcome(s.hosts[h].history, s.calls[id], ch))
  {}

  lemma CallStepInv(s: Sys, id: CallId, ch: CallChoice)
    requires Inv(s)
    ensures Inv(CallStep(s, id, ch))
  {
    if id in s.calls {
      var target := CallTarget(s.calls[id], ch);
      if s.calls[id].Seeking? && ch.GiveUp? {
        OpenedInv(s, id, None);
      } else if target.Some? && target.value in s.hosts {
        CallOutcomeSettles(s, id, ch, target.value);
        SettledInv(s, id, target.value, CallOutcome(s.hosts[target.value].history, s.calls[id], ch));
      }
    }
  }

  lemma OpenedInv(s: Sys, id: CallId, next: Option<Call>)
    requires Inv(s) && (next.Some? ==> CallSettled(s, next.value))
    ensures Inv(WithCall(s, id, next))
  {
    var t := WithCall(s, id, next);
    forall i <- t.calls ensures CallSettled(t, t.calls[i]) {
      if i in s.calls {
        assert CallSettled(s, s.calls[i]);
      }
    }
  }

  lemma ObservedShape(s: Sys, h: HostId, o: ProbeOutcome)
    requires h in s.hosts
    ensures var t := Observed(s, h, o);
            && t.hosts.Keys == s.hosts.Keys && t.clock == s.clock && t.calls == s.calls
            && t.hosts[h].history == o.history && t.hosts[h].probe == o.next
            && t.hosts[h].phases == Traced(s.hosts[h].phases, o.effect)
            && (forall g <- s.hosts | g != h :: t.hosts[g] == s.hosts[g])
            && t.claims == s.claims && t.born == s.born
  {}

  lemma ObservedInv(s: Sys, h: HostId, o: ProbeOutcome)
    requires Inv(s) && h in s.hosts && ProbeGuarantee(s.hosts[h].history, o, s.clock)
    ensures Inv(Observed(s, h, o))
  {
    ObservedShape(s, h, o);
    HostStepInv(s, Observed(s, h, o), h);
  }

  lemma ObserveInv(s: Sys, h: HostId, ch: ProbeChoice)
    requires Inv(s) && h in s.hosts
    ensures Inv(Step(s, Observe(h, ch)))
  {
    var host := s.hosts[h];
    ProbeStepOk(host.history, host.probe, ch, s.clock);
    ObservedInv(s, h, ProbeStep(host.history, host.probe, ch, s.clock));
  }

  lemma EditInv(s: Sys, e: Event)
    requires Inv(s) && e.Edit? && e.host in s.hosts
    ensures Inv(Step(s, e))
  {
    var host := s.hosts[e.host];
    var v := Edited(Current(host.history), e.maintenance, e.hostClass, e.generation);
    LandExtends(host.history, v, Operator);
    ExtendsKeepsProbe(host.history, Land(host.history, v, Operator), host.probe, s.clock);
    HostStepInv(s, Step(s, e), e.host);
  }

  lemma TickInv(s: Sys, now: int)
    requires Inv(s) && s.clock <= now
    ensures Inv(s.(clock := now))
  {
    forall h <- s.hosts ensures ProbeOk(s.hosts[h].history, s.hosts[h].probe, now) {
      assert ProbeOk(s.hosts[h].history, s.hosts[h].probe, s.clock);
    }
    forall id <- s.calls ensures CallSettled(s.(clock := now), s.calls[id]) {
      assert CallSettled(s, s.calls[id]);
    }
  }

  lemma OpenInv(s: Sys, id: CallId, nc: ClaimRef, kind: Kind, h: HostId, i: nat)
    requires Inv(s) && h in s.hosts && i < |s.hosts[h].history|
    ensures Inv(WithCall(s, id, Opened(nc, kind, h, Copy(i, s.hosts[h].history[i].version))))
  {
    OpenedInv(s, id, Opened(nc, kind, h, Copy(i, s.hosts[h].history[i].version)));
  }

  lemma ReconcileInv(s: Sys, e: Event)
    requires Inv(s) && e.Reconcile?
    ensures Inv(Step(s, e))
  {
    if e.host in s.hosts && s.hosts[e.host].probe.Idle? && e.i < |s.hosts[e.host].history| {
      AfterReadOk(s.hosts[e.host].history, e.i, s.clock);
      HostStepInv(s, Step(s, e), e.host);
    }
  }

  lemma StepInv(s: Sys, e: Event)
    requires Inv(s)
    ensures Inv(Step(s, e))
  {
    match e
    case Tick(now) => if s.clock <= now { TickInv(s, now); }
    case ClaimBorn(_) => SameStoreInv(s, Step(s, e));
    case ClaimGone(_) => SameStoreInv(s, Step(s, e));
    case Edit(h, _, _, _) => if h in s.hosts { EditInv(s, e); }
    case SeekHost(id, nc) => OpenedInv(s, id, Some(Seeking(nc)));
    case Open(id, nc, kind, h, i) =>
      if h in s.hosts && i < |s.hosts[h].history| { OpenInv(s, id, nc, kind, h, i); }
    case Proceed(id, ch) => CallStepInv(s, id, ch);
    case Reconcile(_, _) => ReconcileInv(s, e);
    case Observe(h, ch) => if h in s.hosts { ObserveInv(s, h, ch); }
  }

  lemma SameStoreInv(s: Sys, t: Sys)
    requires Inv(s) && t.hosts == s.hosts && t.calls == s.calls && t.clock == s.clock
    ensures Inv(t)
  {
    forall id <- t.calls ensures CallSettled(t, t.calls[id]) {
      assert CallSettled(s, s.calls[id]);
    }
  }

  lemma {:induction false} RunInv(s: Sys, events: seq<Event>)
    requires Initial(s)
    ensures Inv(Run(s, events))
  {
    if events == [] {
      forall h <- s.hosts ensures LawfulHistory(s.hosts[h].history) {
        assert NewHost(s.hosts[h]);
      }
    } else {
      RunInv(s, events[..|events| - 1]);
      StepInv(Run(s, events[..|events| - 1]), events[|events| - 1]);
    }
  }
}
