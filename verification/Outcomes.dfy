/**
 How launches, teardowns and repairs end: what the store says afterwards is what the
 call was answered, in every run.
 */
module Outcomes {
  import opened Options
  import opened Records
  import opened Ledger
  import opened Protocol
  import opened Invariant

  // ----- what a call was answered ------------------------------------------------------------------

  /** An answer that can decide how the call ends: about its configuration, about a script
      that was refused before it was sent, or about one that ran. */
  predicate Decides(c: Call, ch: CallChoice) {
    c.Holding? && ((c.pc.Preparing? && ch.ConfigFails?) || (c.pc.ToRun? && ch.Refused?) || (c.pc.Running? && ch.Finish?))
  }

  /** The latest such answer to call `id` in a run, since the call was opened. */
  function LastAnswer(s: Sys, events: seq<Event>, id: CallId): Option<CallChoice> {
    if events == [] then None
    else
      var before, e := events[..|events| - 1], events[|events| - 1];
      var t := Run(s, before);
      if id !in t.calls then None
      else if e.Proceed? && e.id == id && Decides(t.calls[id], e.choice) then Some(e.choice)
      else LastAnswer(s, before, id)
  }

  predicate SendsJoin(c: Call, ch: CallChoice) {
    c.Holding? && c.pc == ToRun(Join) && ch.Send?
  }

  /** Call `id` sent its join script since it was opened. */
  predicate JoinSent(s: Sys, events: seq<Event>, id: CallId) {
    events != [] &&
    var before, e := events[..|events| - 1], events[|events| - 1];
    var t := Run(s, before);
    id in t.calls && ((e.Proceed? && e.id == id && SendsJoin(t.calls[id], e.choice)) || JoinSent(s, before, id))
  }

  /** A launch whose failure was not the host's, a teardown whose leave ended well. */
  predicate EndedWell(kind: Kind, answer: Option<CallChoice>) {
    match kind
    case Launch => answer == Some(ConfigFails) || answer == Some(Refused(true))
    case Teardown => answer == Some(Finish(true))
    case Repair => false
  }

  /** What the control point of a call says about its answers. */
  predicate Tells(c: Call, answer: Option<CallChoice>, sent: bool) {
    && (c.Seeking? ==> answer == None && !sent)
    && (c.Holding? ==> c.joinSent == sent && (c.kind != Repair ==> PcTells(c.kind, c.pc, answer)))
  }

  predicate PcTells(kind: Kind, pc: Pc, answer: Option<CallChoice>) {
    match pc
    case Dropping(healthy) => healthy == EndedWell(kind, answer)
    case Setting(field, _, healthy) => if field == NoToken then healthy == EndedWell(kind, answer) else !EndedWell(kind, answer)
    case Revoking(healthy) => healthy == EndedWell(kind, answer)
    case Releasing(healthy) => healthy == EndedWell(kind, answer)
    case _ => !EndedWell(kind, answer)
  }

  // ----- one step ---------------------------------------------------------------------------------------

  function NextAnswer(c: Call, ch: CallChoice, answer: Option<CallChoice>): Option<CallChoice> {
    if Decides(c, ch) then Some(ch) else answer
  }

  lemma LocalTells(c: Call, ch: CallChoice, answer: Option<CallChoice>, sent: bool)
    requires c.Holding? && PcOk(c) && Tells(c, answer, sent)
    ensures var m := LocalMove(c, ch);
            m.next.Some? ==> Tells(m.next.value, NextAnswer(c, ch, answer), sent || SendsJoin(c, ch))
  {}

  lemma AfterSettingTells(c: Call, copy: Copy, ok: bool, answer: Option<CallChoice>, sent: bool)
    requires c.Holding? && c.pc.Setting? && PcOk(c) && Tells(c, answer, sent)
    ensures var next := AfterSetting(c.(copy := copy), c.pc.field, c.pc.healthy, ok);
            next.Some? ==> Tells(next.value, answer, sent)
  {}

  lemma AttemptTells(c: Call, after: History, reply: Reply, reread: Option<nat>, answer: Option<CallChoice>, sent: bool)
    requires c.Holding? && c.pc.Setting? && PcOk(c) && Tells(c, answer, sent)
    ensures var next := AfterAttempt(c, after, reply, reread); next.Some? ==> Tells(next.value, answer, sent)
  {
    var dirty := c.copy.(version := c.copy.version.(status := Mutated(c, c.pc.field, c.copy.version.status)));
    AfterSettingTells(c, Newest(after), true, answer, sent);
    AfterSettingTells(c, dirty, false, answer, sent);
    if reread.Some? && reread.value < |after| {
      AfterSettingTells(c, Copy(reread.value, after[reread.value].version), false, answer, sent);
    }
  }

  lemma SettingTells(hist: History, c: Call, fate: Fate, reread: Option<nat>, answer: Option<CallChoice>, sent: bool)
    requires c.Holding? && c.pc.Setting? && PcOk(c) && Tells(c, answer, sent)
    ensures var o := SettingStep(hist, c, fate, reread); o.next.Some? ==> Tells(o.next.value, answer, sent)
  {
    var (after, reply) := Patched(hist, c.copy, Mutated(c, c.pc.field, c.copy.version.status), Setter(c.nc), fate);
    AttemptTells(c, after, reply, reread, answer, sent);
  }

  lemma OutcomeTells(hist: History, c: Call, ch: CallChoice, answer: Option<CallChoice>, sent: bool)
    requires (c.Seeking? ==> ch.Pick?) && (c.Holding? ==> PcOk(c)) && Tells(c, answer, sent)
    ensures var o := CallOutcome(hist, c, ch);
            o.next.Some? ==> Tells(o.next.value, NextAnswer(c, ch, answer), sent || SendsJoin(c, ch))
  {
    if c.Holding? {
      if c.pc.Setting? && ch.Attempt? {
        SettingTells(hist, c, ch.fate, ch.reread, answer, sent);
      } else if !(c.pc.Releasing? && ch.Release?) {
        LocalTells(c, ch, answer, sent);
      }
    }
  }

  // ----- every run ------------------------------------------------------------------------------------------

  /** What call `id` tells after a step with choice `ch`. */
  predicate TellsNext(t: Sys, u: Sys, id: CallId, ch: CallChoice, answer: Option<CallChoice>, sent: bool)
    requires id in t.calls
  {
    id in u.calls ==> Tells(u.calls[id], NextAnswer(t.calls[id], ch, answer), sent || SendsJoin(t.calls[id], ch))
  }

  lemma ProceedTells(t: Sys, id: CallId, ch: CallChoice, answer: Option<CallChoice>, sent: bool)
    requires Inv(t) && id in t.calls && Tells(t.calls[id], answer, sent)
    ensures TellsNext(t, CallStep(t, id, ch), id, ch, answer, sent)
  {
    var target := CallTarget(t.calls[id], ch);
    if target.Some? && Works(t, id, ch, target.value) {
      WorkTells(t, id, ch, target.value, answer, sent);
    } else {
      IdleStep(t, id, ch);
      IdleTells(t, id, ch, answer, sent);
    }
  }

  /** A call without a host to work on stays, or gives up. */
  lemma IdleStep(t: Sys, id: CallId, ch: CallChoice)
    requires id in t.calls
    requires var target := CallTarget(t.calls[id], ch); target.Some? ==> !Works(t, id, ch, target.value)
    ensures CallStep(t, id, ch) == t || id !in CallStep(t, id, ch).calls
  {}

  lemma IdleTells(t: Sys, id: CallId, ch: CallChoice, answer: Option<CallChoice>, sent: bool)
    requires Inv(t) && id in t.calls && Tells(t.calls[id], answer, sent)
    requires var target := CallTarget(t.calls[id], ch); target.Some? ==> !Works(t, id, ch, target.value)
    ensures TellsNext(t, t, id, ch, answer, sent)
  {
    assert CallSettled(t, t.calls[id]);
  }

  lemma WorkTells(t: Sys, id: CallId, ch: CallChoice, h: HostId, answer: Option<CallChoice>, sent: bool)
    requires Inv(t) && Works(t, id, ch, h) && Tells(t.calls[id], answer, sent)
    ensures TellsNext(t, CallStep(t, id, ch), id, ch, answer, sent)
  {
    assert CallSettled(t, t.calls[id]);
    OutcomeTells(t.hosts[h].history, t.calls[id], ch, answer, sent);
    CallStepSettles(t, id, ch, h);
    SettledCall(t, id, h, CallOutcome(t.hosts[h].history, t.calls[id], ch));
  }

  lemma SettledCall(t: Sys, id: CallId, h: HostId, o: Outcome)
    requires h in t.hosts
    ensures var u := Settled(t, id, h, o);
            && (id in u.calls <==> o.next.Some?) && (o.next.Some? ==> u.calls[id] == o.next.value)
            && (forall i :: i != id ==> (i in u.calls <==> i in t.calls) && (i in t.calls ==> u.calls[i] == t.calls[i]))
  {}

  /** Events that are no step of call `id` leave it alone, or open it. */
  lemma OthersLeaveCall(t: Sys, e: Event, id: CallId)
    requires !(e.Proceed? && e.id == id)
    ensures var u := Step(t, e);
            && (id in t.calls ==> id in u.calls && u.calls[id] == t.calls[id])
            && (id !in t.calls && id in u.calls ==> Tells(u.calls[id], None, false))
  {
    if e.Proceed? && e.id in t.calls && FreshMint(t, e.choice) && !(t.calls[e.id].Seeking? && e.choice.GiveUp?) {
      var target := CallTarget(t.calls[e.id], e.choice);
      if target.Some? && target.value in t.hosts {
        CallStepSettles(t, e.id, e.choice, target.value);
        SettledCall(t, e.id, target.value, CallOutcome(t.hosts[target.value].history, t.calls[e.id], e.choice));
      }
    }
  }

  lemma {:induction false} RunTells(s: Sys, events: seq<Event>, id: CallId)
    requires Initial(s) && id in Run(s, events).calls
    ensures Tells(Run(s, events).calls[id], LastAnswer(s, events, id), JoinSent(s, events, id))
  {
    var before, e := events[..|events| - 1], events[|events| - 1];
    var t := Run(s, before);
    RunInv(s, before);
    if id in t.calls {
      RunTells(s, before, id);
      if e.Proceed? && e.id == id {
        ProceedTells(t, id, e.choice, LastAnswer(s, before, id), JoinSent(s, before, id));
      } else {
        OthersLeaveCall(t, e, id);
      }
    } else {
      OthersLeaveCall(t, e, id);
    }
  }

  /** Launches: a host goes straight back to Available only from a launch that never
      sent its join script. */
  lemma AvailableAgainOnlyIfJoinUnsent(s: Sys, events: seq<Event>, id: CallId)
    requires Initial(s) && id in Run(s, events).calls
    requires var c := Run(s, events).calls[id];
             c.Holding? && c.kind == Launch && (c.pc == Revoking(true) || c.pc == Releasing(true))
    ensures !JoinSent(s, events, id)
  {
    RunInv(s, events);
    RunTells(s, events, id);
    assert CallSettled(Run(s, events), Run(s, events).calls[id]);
  }

  /** What a landing release stores over `before`, by how the call ended. */
  predicate StoredRelease(before: Status, after: Status, well: bool, reason: string) {
    && after.claim == None && after.providerID == "" && after.installed == before.installed
    && after.state == (if well then Available else Unhealthy)
    && after.probeError == (if well then before.probeError else reason)
  }

  /** In every run, the last write of a call says how it ended: a teardown leaves the
      host Available exactly when its own leave ended well, a launch exactly when what
      failed was the configuration; otherwise it is Unhealthy, with the reason.  It
      lands exactly if the copy is still current and the request gets through. */
  lemma ReleasedAsItEnded(s: Sys, events: seq<Event>, id: CallId, fate: Fate, reason: string)
    requires Initial(s) && id in Run(s, events).calls
    requires var c := Run(s, events).calls[id]; c.Holding? && c.pc.Releasing?
    ensures var t := Run(s, events);
            var u, c, a := Step(t, Proceed(id, Release(fate, reason))), t.calls[id], LastAnswer(s, events, id);
            && id !in u.calls && c.host in t.hosts && c.host in u.hosts
            && var before, after := t.hosts[c.host].history, u.hosts[c.host].history;
               if fate != LostBefore && c.copy.rv == |before| - 1 then
                 StoredRelease(Current(before).status, Current(after).status,
                               if c.kind == Teardown then a == Some(Finish(true)) else a == Some(ConfigFails) || a == Some(Refused(true)),
                               reason)
               else after == before
  {
    RunInv(s, events);
    RunTells(s, events, id);
    assert CallSettled(Run(s, events), Run(s, events).calls[id]);
    ReleaseSettles(Run(s, events), id, fate, reason);
  }

  lemma ReleaseSettles(t: Sys, id: CallId, fate: Fate, reason: string)
    requires id in t.calls && t.calls[id].Holding? && t.calls[id].pc.Releasing? && CallSettled(t, t.calls[id])
    ensures var u, c := Step(t, Proceed(id, Release(fate, reason))), t.calls[id];
            && id !in u.calls && c.host in u.hosts
            && var before, after := t.hosts[c.host].history, u.hosts[c.host].history;
               if fate != LostBefore && c.copy.rv == |before| - 1 then
                 StoredRelease(Current(before).status, Current(after).status, c.pc.healthy, reason)
               else after == before
  {
    var c := t.calls[id];
    var o := CallOutcome(t.hosts[c.host].history, c, Release(fate, reason));
    ReleaseStores(t.hosts[c.host].history, c, fate, reason);
    CallStepSettles(t, id, Release(fate, reason), c.host);
    SettledShape(t, id, c.host, o);
    SettledCall(t, id, c.host, o);
  }

  lemma ReleaseStores(hist: History, c: Call, fate: Fate, reason: string)
    requires c.Holding? && c.pc.Releasing? && CallOk(hist, c)
    ensures var o := HoldingStep(hist, c, Release(fate, reason));
            && o.next == None
            && if fate != LostBefore && c.copy.rv == |hist| - 1 then
                 StoredRelease(Current(hist).status, Current(o.history).status, c.pc.healthy, reason)
               else o.history == hist
  {
    var s := c.copy.version.status;
    MergedFieldwise(s, Released(s, c.pc.healthy, reason), Current(hist).status);
  }

  // ----- whole calls ---------------------------------------------------------------------------------------

  /** The host is the NodeClaim's by name, and by UID where both sides know one. */
  predicate Owns(nc: ClaimRef, s: Status) {
    && s.claim.Some? && s.claim.value.name == nc.name
    && (s.claim.value.uid == "" || nc.uid == "" || s.claim.value.uid == nc.uid)
  }

  /** A call for a NodeClaim starts exactly on a host that is its own; a repair also
      needs something installed. */
  lemma OpensExactly(nc: ClaimRef, kind: Kind, h: HostId, copy: Copy)
    ensures Opened(nc, kind, h, copy).Some?
       <==> Owns(nc, copy.version.status) && (kind == Repair ==> copy.version.status.installed != "")
  {}

  /** A conditional write takes effect exactly if its version is the stored one and the
      request arrives; it is known to have, or to have lost the race, exactly if it is answered. */
  lemma WritesLand(hist: History, rv: nat, stored: Status, who: Writer, fate: Fate)
    ensures var (after, reply) := Swap(hist, rv, stored, who, fate);
            && (if rv == |hist| - 1 && fate != LostBefore then
                  Current(after) == Current(hist).(status := stored) && |after| <= |hist| + 1 && hist <= after
                else after == hist)
            && reply == (if fate != Delivered then Errored else if rv == |hist| - 1 then Accepted else Conflicted)
  {}

  /** Delete from its read on: leave runs, the token is revoked, and the one write says
      Available exactly if leave ended well. */
  lemma TeardownEnds(hist: History, nc: ClaimRef, h: HostId, ok: bool, revoked: bool, reason: string)
    returns (c: Call, sent: Outcome, left: Outcome, gone: Outcome, end: Outcome)
    requires Owns(nc, Current(hist).status) && Current(hist).status.installed != ""
    ensures Opened(nc, Teardown, h, Newest(hist)) == Some(c) && c.Holding?
    ensures sent == HoldingStep(hist, c, Send) && sent.next.Some? && sent.next.value.Holding?
    ensures sent.effect == Phased(Began(Leave), "")
    ensures left == HoldingStep(hist, sent.next.value, Finish(ok)) && left.next.Some? && left.next.value.Holding?
    ensures left.effect == Phased(Ended(Leave, ok), "")
    ensures gone == HoldingStep(hist, left.next.value, Revoke(revoked)) && gone.next.Some? && gone.next.value.Holding?
    ensures gone.effect == (if Current(hist).status.token == "" then Quiet else Deleted(Current(hist).status.token, revoked))
    ensures end == HoldingStep(hist, gone.next.value, Release(Delivered, reason)) && end.next == None
    ensures sent.history == hist && left.history == hist && gone.history == hist
    ensures StoredRelease(Current(hist).status, Current(end.history).status, ok, reason)
    ensures Current(end.history).status.token == ""
  {
    c := Opened(nc, Teardown, h, Newest(hist)).value;
    sent := HoldingStep(hist, c, Send);
    left := HoldingStep(hist, sent.next.value, Finish(ok));
    assert left.next == Some(c.(pc := Revoking(ok)));
    gone, end := ReleaseEnds(hist, left.next.value, ok, revoked, reason);
  }

  /** Without an install marker there is nothing to leave, and nothing known about the host. */
  lemma UninstalledTeardownEnds(hist: History, nc: ClaimRef, h: HostId, revoked: bool, reason: string)
    returns (c: Call, gone: Outcome, end: Outcome)
    requires Owns(nc, Current(hist).status) && Current(hist).status.installed == ""
    ensures Opened(nc, Teardown, h, Newest(hist)) == Some(c) && c.Holding?
    ensures gone == HoldingStep(hist, c, Revoke(revoked)) && gone.history == hist && gone.next.Some? && gone.next.value.Holding?
    ensures end == HoldingStep(hist, gone.next.value, Release(Delivered, reason)) && end.next == None
    ensures StoredRelease(Current(hist).status, Current(end.history).status, false, reason)
  {
    c := Opened(nc, Teardown, h, Newest(hist)).value;
    gone, end := ReleaseEnds(hist, c, false, revoked, reason);
  }

  lemma ReleaseEnds(hist: History, c: Call, healthy: bool, revoked: bool, reason: string) returns (gone: Outcome, end: Outcome)
    requires c.Holding? && c.pc == Revoking(healthy) && c.copy == Newest(hist) && HeldBy(Current(hist).status, c.nc) && PcOk(c)
    ensures gone == HoldingStep(hist, c, Revoke(revoked)) && gone.history == hist && gone.next.Some? && gone.next.value.Holding?
    ensures gone.effect == (if Current(hist).status.token == "" then Quiet else Deleted(Current(hist).status.token, revoked))
    ensures end == HoldingStep(hist, gone.next.value, Release(Delivered, reason)) && end.next == None
    ensures StoredRelease(Current(hist).status, Current(end.history).status, healthy, reason)
    ensures Current(end.history).status.token == ""
  {
    var next := c.(pc := Releasing(healthy));
    gone := HoldingStep(hist, c, Revoke(revoked));
    assert gone.next == Some(next);
    ReleaseStores(hist, next, Delivered, reason);
    end := HoldingStep(hist, next, Release(Delivered, reason));
  }

  /** A repair runs reboot and nothing else: the record is untouched, and the call ends
      with the script, or with its refusal. */
  lemma RepairEnds(hist: History, nc: ClaimRef, h: HostId, i: nat, ok: bool)
    returns (c: Call, sent: Outcome)
    requires i < |hist| && Owns(nc, StatusAt(hist, i))
    ensures Opened(nc, Repair, h, Copy(i, hist[i].version)) == (if StatusAt(hist, i).installed == "" then None else Some(c))
    ensures c.Holding? && sent == HoldingStep(hist, c, Send) && sent.next.Some? && sent.next.value.Holding?
    ensures sent.history == hist && sent.effect == Phased(Began(Reboot), "")
    ensures HoldingStep(hist, sent.next.value, Finish(ok)) == Outcome(None, hist, Phased(Ended(Reboot, ok), ""))
    ensures HoldingStep(hist, c, Refused(ok)) == Outcome(None, hist, Quiet)
  {
    c := Fresh(nc, Repair, ToRun(Reboot), h, Copy(i, hist[i].version));
    sent := HoldingStep(hist, c, Send);
  }

  /** Create's claim: of a version that was read it lands, and the launch goes on from
      it, exactly if that version is still the stored one, is Available, unclaimed, not
      annotated for maintenance and of the class asked for; otherwise nothing is
      written and the launch keeps looking. */
  lemma ClaimSucceedsExactly(hist: History, nc: ClaimRef, h: HostId, i: nat, hostClass: string)
    ensures var o := SeekingStep(hist, Seeking(nc), Pick(h, i, hostClass, Delivered));
            if && i < |hist| && i == |hist| - 1
               && Current(hist).status.state == Available && Current(hist).status.claim == None
               && !Current(hist).maintenance && (hostClass != "" ==> Current(hist).hostClass == hostClass) then
              && |o.history| == |hist| + 1 && o.history[..|hist|] == hist
              && Current(o.history) == Current(hist).(status := Current(hist).status.(state := Claimed, claim := Some(nc)))
              && o.next == Some(Holding(nc, Launch, Preparing, h, Copy(|hist|, Current(o.history)), "", "", "", false))
            else o == Outcome(Some(Seeking(nc)), hist, Quiet)
  {}

  /** A call that holds a host gives it up only by its release, or leaves it joined:
      it ends at a release, at the last of a launch's setters, or as a repair. */
  lemma CallsEndOnly(hist: History, c: Call, ch: CallChoice)
    requires c.Holding? && PcOk(c) && HoldingStep(hist, c, ch).next == None
    ensures || (c.kind != Repair && c.pc.Releasing? && ch.Release?)
            || (c.kind == Launch && c.pc.Setting? && (c.pc.field == Provider || c.pc.field == UseState) && ch.Attempt?)
            || (c.kind == Repair && ((c.pc == ToRun(Reboot) && ch.Refused?) || (c.pc == Running(Reboot) && ch.Finish?)))
  {
    if c.pc.Setting? && ch.Attempt? {
      if c.pc.field != Provider && c.pc.field != UseState {
        SettersGoOn(hist, c, ch.fate, ch.reread);
      }
    } else if !(c.pc.Releasing? && ch.Release?) {
      LocalMoveEnds(c, ch);
    }
  }

  lemma LocalMoveEnds(c: Call, ch: CallChoice)
    requires c.Holding? && PcOk(c) && LocalMove(c, ch).next == None
    ensures c.kind == Repair && ((c.pc == ToRun(Reboot) && ch.Refused?) || (c.pc == Running(Reboot) && ch.Finish?))
  {}

  lemma SettersGoOn(hist: History, c: Call, fate: Fate, reread: Option<nat>)
    requires c.Holding? && c.pc.Setting? && c.pc.field != Provider && c.pc.field != UseState
    ensures SettingStep(hist, c, fate, reread).next.Some?
  {}
}
