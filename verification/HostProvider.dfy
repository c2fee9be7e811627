/**
 The host provider, in the form of the code: an API server whose stored record
 other actors keep changing, an in-memory SSHHost that methods edit in place, and
 the claim, release and field-setting operations on them.

 What the environment does around each request is read off a tape: entries other
 actors try to land first, the (possibly old) version a read returns, and whether
 the answer of a write is lost.  Tapes are arbitrary, so each contract holds
 against every environment.  Of the entries on a tape, those land that are lawful
 over what is stored at that moment: the law is what the other actors, themselves
 compare-and-swapping, are held to.
 */
module HostProvider {
  import opened Options
  import opened Records
  import opened Ledger
  import opened Protocol
  import opened Invariant

  datatype Turn = Turn(others: seq<Entry>, view: nat, fate: Fate)

  const QUIET_TURN := Turn([], 0, Delivered)

  function TurnOf(tape: seq<Turn>): Turn {
    if tape == [] then QUIET_TURN else tape[0]
  }

  function Rest(tape: seq<Turn>): seq<Turn> {
    if tape == [] then [] else tape[1..]
  }

  /** An entry of another actor lands when it is lawful.  There is one probe
      reconciler per host: to its client, nobody else writes as the prober. */
  predicate MayLand(hist: History, e: Entry, probing: bool) {
    Lawful(Current(hist), e) && !(probing && e.who == Prober)
  }

  /** What is stored once the others had their turn. */
  function Landed(hist: History, others: seq<Entry>, probing: bool): (after: History)
    ensures hist <= after
    ensures others == [] ==> after == hist
    decreases |others|
  {
    if others == [] then hist
    else Landed(if MayLand(hist, others[0], probing) then hist + [others[0]] else hist, others[1..], probing)
  }

  lemma {:induction false} LandedLawful(hist: History, others: seq<Entry>, probing: bool)
    requires LawfulHistory(hist)
    ensures LawfulHistory(Landed(hist, others, probing))
    decreases |others|
  {
    if others != [] {
      if MayLand(hist, others[0], probing) {
        ExtendsKeepsLawful(hist, hist + [others[0]]);
        LandedLawful(hist + [others[0]], others[1..], probing);
      } else {
        LandedLawful(hist, others[1..], probing);
      }
    }
  }

  /** The version a read returns: so many versions behind the newest. */
  function View(hist: History, behind: nat): (c: Copy)
    ensures c.rv < |hist| && c.version == hist[c.rv].version
  {
    var rv := if behind < |hist| then |hist| - 1 - behind else 0;
    Copy(rv, hist[rv].version)
  }

  /** `own` are the versions written through this client. */
  class ApiServer {
    const probing: bool
    var history: History
    var tape: seq<Turn>
    ghost var own: set<nat>

    constructor (history: History, tape: seq<Turn>, probing: bool)
      ensures this.history == history && this.tape == tape && own == {} && this.probing == probing
    {
      this.history := history;
      this.tape := tape;
      this.probing := probing;
      own := {};
    }

    ghost predicate Valid()
      reads this
    {
      LawfulHistory(history) && forall k <- own :: 0 < k < |history|
    }

    /** The environment's turn before a request. */
    method Turned() returns (turn: Turn)
      requires Valid()
      modifies this
      ensures Valid() && own == old(own)
      ensures turn == TurnOf(old(tape)) && tape == Rest(old(tape))
      ensures history == Landed(old(history), turn.others, probing)
    {
      turn := TurnOf(tape);
      tape := Rest(tape);
      LandedLawful(history, turn.others, probing);
      for i := 0 to |turn.others|
        invariant own == old(own) && tape == Rest(old(tape)) && old(history) <= history
        invariant Landed(history, turn.others[i..], probing) == Landed(old(history), turn.others, probing)
      {
        assert turn.others[i..][1..] == turn.others[i + 1..];
        if MayLand(history, turn.others[i], probing) {
          history := history + [turn.others[i]];
        }
      }
    }

    /** A read: some version of the record, not necessarily the newest. */
    method Get() returns (ok: bool, c: Copy)
      requires Valid()
      modifies this
      ensures Valid() && own == old(own) && tape == Rest(old(tape))
      ensures history == Landed(old(history), TurnOf(old(tape)).others, probing)
      ensures ok == (TurnOf(old(tape)).fate == Delivered) && c == View(history, TurnOf(old(tape)).view)
    {
      var turn := Turned();
      ok := turn.fate == Delivered;
      c := View(history, turn.view);
    }

    /** A write conditioned on the resourceVersion: `orig` is the status a patch is
        computed from, or None for an update of the whole status.  `before` is what
        was stored when the request arrived. */
    method Write(rv: nat, orig: Option<Status>, edited: Status, who: Writer)
      returns (reply: Reply, ghost before: History, ghost fate: Fate)
      requires Valid() && rv < |history|
      requires var v := history[rv].version;
               Lawful(v, Entry(v.(status := StoredAs(orig, edited, v.status)), who))
      modifies this
      ensures Valid() && before == Landed(old(history), TurnOf(old(tape)).others, probing) && before <= history
      ensures fate == TurnOf(old(tape)).fate && tape == Rest(old(tape))
      ensures (history, reply) == Swap(before, rv, StoredAs(orig, edited, Current(before).status), who, fate)
      ensures own == if history == before then old(own) else old(own) + {|before|}
    {
      var turn := Turned();
      before, fate := history, turn.fate;
      var v := Current(history);
      var w := v.(status := StoredAs(orig, edited, v.status));
      if turn.fate == LostBefore {
        reply := Errored;
      } else if rv != |history| - 1 {
        reply := if turn.fate == Delivered then Conflicted else Errored;
      } else {
        if w != v {
          history := history + [Entry(w, who)];
          ExtendsKeepsLawful(before, history);
          own := own + {|before|};
        }
        reply := if turn.fate == Delivered then Accepted else Errored;
      }
    }
  }

  /** What the server stores for an update, or for a patch. */
  function StoredAs(orig: Option<Status>, edited: Status, stored: Status): Status {
    if orig.None? then edited else Merged(orig.value, edited, stored)
  }

  /** An SSHHost in memory. */
  class HostObject {
    var rv: nat
    var version: Version

    constructor (c: Copy)
      ensures rv == c.rv && version == c.version
    {
      rv := c.rv;
      version := c.version;
    }

    function AsCopy(): Copy
      reads this
    {
      Copy(rv, version)
    }
  }

  /** The one field a field setter writes. */
  datatype Assignment = SetInstalled(marker: string) | SetToken(id: string) | SetProviderID(id: string) | MarkInUse

  function Apply(f: Assignment, s: Status): Status {
    match f
    case SetInstalled(marker) => s.(installed := marker)
    case SetToken(id) => s.(token := id)
    case SetProviderID(id) => s.(providerID := id)
    case MarkInUse => s.(state := InUse)
  }

  /** The field `f` is about has its value. */
  predicate Carries(f: Assignment, s: Status) {
    match f
    case SetInstalled(marker) => s.installed == marker
    case SetToken(id) => s.token == id
    case SetProviderID(id) => s.providerID == id
    case MarkInUse => s.state == InUse
  }

  /** Equal in every field but the one `f` writes. */
  predicate OnlyTarget(f: Assignment, s: Status, t: Status) {
    match f
    case SetInstalled(_) => t == s.(installed := t.installed)
    case SetToken(_) => t == s.(token := t.token)
    case SetProviderID(_) => t == s.(providerID := t.providerID)
    case MarkInUse => t == s.(state := t.state) && (t.state == InUse || t.state == s.state)
  }

  datatype SetResult = Done | Lost | ReadFailed | ClaimChanged | OutOfAttempts

  // ----- the setters as steps of the machine ------------------------------------------------------

  function FieldOf(f: Assignment): Field {
    match f
    case SetInstalled(_) => Marker
    case SetToken(id) => if id == "" then NoToken else TokenId
    case SetProviderID(_) => Provider
    case MarkInUse => UseState
  }

  /** The machine's call in the midst of this setter, with so many attempts left. */
  function SettingCall(nc: ClaimRef, f: Assignment, copy: Copy, left: nat): Call {
    Holding(nc, Launch, Setting(FieldOf(f), left, false), "", copy,
            if f.SetInstalled? then f.marker else "", if f.SetToken? then f.id else "",
            if f.SetProviderID? then f.id else "", false)
  }

  /** One attempt, and the fresh read that follows a conflict, as one step of the
      machine: at the moment of the read the attempt would conflict as well. */
  function AttemptStep(hist: History, tape: seq<Turn>, c: Call, probing: bool): (Outcome, seq<Turn>)
    requires c.Holding? && c.pc.Setting?
  {
    var turn := TurnOf(tape);
    var before := Landed(hist, turn.others, probing);
    if turn.fate == Delivered && c.copy.rv != |before| - 1 then
      var again := TurnOf(Rest(tape));
      var seen := Landed(before, again.others, probing);
      (SettingStep(seen, c, Delivered, if again.fate == Delivered then Some(View(seen, again.view).rv) else None),
       Rest(Rest(tape)))
    else (SettingStep(before, c, turn.fate, None), Rest(tape))
  }

  lemma SettingMutates(nc: ClaimRef, f: Assignment, copy: Copy, left: nat, s: Status)
    ensures Mutated(SettingCall(nc, f, copy, left), FieldOf(f), s) == Apply(f, s)
  {}

  function EditedBy(f: Assignment, copy: Copy): Copy {
    copy.(version := copy.version.(status := Apply(f, copy.version.status)))
  }

  /** A conflict, and where the read that follows it leads. */
  lemma ConflictStep(seen: History, nc: ClaimRef, f: Assignment, copy: Copy, left: nat, i: Option<nat>)
    requires copy.rv < |seen| - 1 && (i.Some? ==> i.value < |seen|)
    ensures var c := SettingCall(nc, f, copy, left);
            var o := SettingStep(seen, c, Delivered, i);
            && o.history == seen
            && o.next == if i.None? || StatusAt(seen, i.value).claim != copy.version.status.claim then
                           AfterSetting(SettingCall(nc, f, EditedBy(f, copy), left), FieldOf(f), false, false)
                         else
                           var read := Copy(i.value, seen[i.value].version);
                           if left <= 1 then AfterSetting(SettingCall(nc, f, read, left), FieldOf(f), false, false)
                           else Some(SettingCall(nc, f, read, left - 1))
  {
    SettingMutates(nc, f, copy, left, copy.version.status);
  }

  datatype Tried = Tried(history: History, tape: seq<Turn>, copy: Copy, done: Option<SetResult>)

  /** One turn of the setter's loop under an environment. */
  function TryOf(hist: History, tape: seq<Turn>, nc: ClaimRef, f: Assignment, copy: Copy, probing: bool): Tried {
    var turn := TurnOf(tape);
    var before := Landed(hist, turn.others, probing);
    var (after, reply) := Patched(before, copy, Apply(f, copy.version.status), Setter(nc), turn.fate);
    if reply == Accepted then Tried(after, Rest(tape), Newest(after), Some(Done))
    else if reply == Errored then Tried(after, Rest(tape), EditedBy(f, copy), Some(Lost))
    else
      var again := TurnOf(Rest(tape));
      ReadAgain(Landed(after, again.others, probing), Rest(Rest(tape)), f, copy, again)
  }

  /** Where the machine's call is after a turn. */
  function AfterTurn(b: Tried, nc: ClaimRef, f: Assignment, left: nat): Option<Call> {
    if b.done.None? && left > 1 then Some(SettingCall(nc, f, b.copy, left - 1))
    else AfterSetting(SettingCall(nc, f, b.copy, left), FieldOf(f), false, b.done == Some(Done))
  }

  /** An attempt that is not refused as a conflict ends the setter. */
  lemma EndingTurn(hist: History, tape: seq<Turn>, nc: ClaimRef, f: Assignment, copy: Copy, left: nat, probing: bool)
    requires TurnOf(tape).fate != Delivered || copy.rv == |Landed(hist, TurnOf(tape).others, probing)| - 1
    ensures var t := TryOf(hist, tape, nc, f, copy, probing);
            AttemptStep(hist, tape, SettingCall(nc, f, copy, left), probing)
            == (Outcome(AfterTurn(t, nc, f, left), t.history, Quiet), t.tape)
  {
    SettingMutates(nc, f, copy, left, copy.version.status);
  }

  /** After a conflict the setter gives up, or goes on from the fresh read. */
  lemma ConflictingTurn(hist: History, tape: seq<Turn>, nc: ClaimRef, f: Assignment, copy: Copy, left: nat, probing: bool)
    requires TurnOf(tape).fate == Delivered && copy.rv < |Landed(hist, TurnOf(tape).others, probing)| - 1
    ensures var t := TryOf(hist, tape, nc, f, copy, probing);
            AttemptStep(hist, tape, SettingCall(nc, f, copy, left), probing)
            == (Outcome(AfterTurn(t, nc, f, left), t.history, Quiet), t.tape)
  {
    var again := TurnOf(Rest(tape));
    var seen := Landed(Landed(hist, TurnOf(tape).others, probing), again.others, probing);
    var t := TryOf(hist, tape, nc, f, copy, probing);
    TryConflicts(hist, tape, nc, f, copy, probing, seen);
    ConflictOutcome(seen, nc, f, copy, left, again, t);
  }

  lemma TryConflicts(hist: History, tape: seq<Turn>, nc: ClaimRef, f: Assignment, copy: Copy, probing: bool, seen: History)
    requires TurnOf(tape).fate == Delivered && copy.rv < |Landed(hist, TurnOf(tape).others, probing)| - 1
    requires seen == Landed(Landed(hist, TurnOf(tape).others, probing), TurnOf(Rest(tape)).others, probing)
    ensures TryOf(hist, tape, nc, f, copy, probing) == ReadAgain(seen, Rest(Rest(tape)), f, copy, TurnOf(Rest(tape)))
  {}

  /** The turn after a conflict, by what the read returns. */
  function ReadAgain(seen: History, rest: seq<Turn>, f: Assignment, copy: Copy, again: Turn): Tried {
    var read := View(seen, again.view);
    if again.fate != Delivered then Tried(seen, rest, EditedBy(f, copy), Some(ReadFailed))
    else if read.version.status.claim != copy.version.status.claim then
      Tried(seen, rest, EditedBy(f, copy), Some(ClaimChanged))
    else Tried(seen, rest, read, None)
  }

  lemma ConflictOutcome(seen: History, nc: ClaimRef, f: Assignment, copy: Copy, left: nat, again: Turn, t: Tried)
    requires copy.rv < |seen| - 1 && t == ReadAgain(seen, t.tape, f, copy, again)
    ensures SettingStep(seen, SettingCall(nc, f, copy, left), Delivered,
                        if again.fate == Delivered then Some(View(seen, again.view).rv) else None)
         == Outcome(AfterTurn(t, nc, f, left), seen, Quiet)
  {
    ConflictStep(seen, nc, f, copy, left, if again.fate == Delivered then Some(View(seen, again.view).rv) else None);
  }

  predicate From(a: Tried) {
    a.done.None?
  }

  /** One turn follows another: `a` has no verdict yet, and `b` is what the next turn
      makes of it.  The quantifier ranges over `a` alone and adds nothing; it is there so
      that the solver unfolds the turn only where a proof mentions `From`. */
  ghost predicate Follows(a: Tried, b: Tried, nc: ClaimRef, f: Assignment, probing: bool) {
    forall x: Tried {:trigger From(x)} :: x == a ==>
      From(x) && b == TryOf(x.history, x.tape, nc, f, x.copy, probing)
  }

  lemma TurnFollows(a: Tried, b: Tried, nc: ClaimRef, f: Assignment, probing: bool)
    requires a.done.None? && b == TryOf(a.history, a.tape, nc, f, a.copy, probing)
    ensures Follows(a, b, nc, f, probing)
  {}

  /** The turns of the setter's loop under an environment. */
  ghost predicate Turns(trace: seq<Tried>, nc: ClaimRef, f: Assignment, probing: bool) {
    trace != [] && forall i :: 0 < i < |trace| ==> Follows(trace[i - 1], trace[i], nc, f, probing)
  }

  /** What the loop ends with: the verdict of its last turn, or its attempts are used up. */
  predicate Concludes(trace: seq<Tried>, r: SetResult, attempts: nat)
    requires trace != []
  {
    var last := trace[|trace| - 1];
    if last.done.Some? then last.done == Some(r) && |trace| <= attempts + 1
    else r == OutOfAttempts && |trace| == attempts + 1
  }

  /** Every turn of the loop is one step of the machine's setter under the same
      environment, with one attempt less each time. */
  lemma SetterIsTheMachines(a: Tried, b: Tried, nc: ClaimRef, f: Assignment, left: nat, probing: bool)
    requires Follows(a, b, nc, f, probing) && a.copy.rv < |a.history|
    ensures AttemptStep(a.history, a.tape, SettingCall(nc, f, a.copy, left), probing)
         == (Outcome(AfterTurn(b, nc, f, left), b.history, Quiet), b.tape)
  {
    assert From(a) || !From(a);
    if TurnOf(a.tape).fate != Delivered || a.copy.rv == |Landed(a.history, TurnOf(a.tape).others, probing)| - 1 {
      EndingTurn(a.history, a.tape, nc, f, a.copy, left, probing);
    } else {
      ConflictingTurn(a.history, a.tape, nc, f, a.copy, left, probing);
    }
  }

  /** Nobody else writes, every request is answered and every read is current. */
  predicate AllQuiet(tape: seq<Turn>) {
    forall i :: 0 <= i < |tape| ==> tape[i] == QUIET_TURN
  }

  lemma QuietTry(a: Tried, b: Tried, nc: ClaimRef, f: Assignment, probing: bool)
    requires Follows(a, b, nc, f, probing) && AllQuiet(a.tape) && a.copy.rv < |a.history|
    requires Current(a.history).status.claim == a.copy.version.status.claim
    ensures a.copy.rv == |a.history| - 1 ==> b.done == Some(Done)
    ensures a.copy.rv < |a.history| - 1 ==> b == Tried(a.history, b.tape, Newest(a.history), None) && AllQuiet(b.tape)
  {
    assert From(a) || !From(a);
    assert TurnOf(a.tape) == QUIET_TURN && AllQuiet(Rest(a.tape));
    assert TurnOf(Rest(a.tape)) == QUIET_TURN && AllQuiet(Rest(Rest(a.tape)));
  }

  /** A setter that lost a race wins the next one, if nobody else writes meanwhile and
      the claim is still its own. */
  lemma SetterSucceedsUndisturbed(trace: seq<Tried>, r: SetResult, nc: ClaimRef, f: Assignment, probing: bool)
    requires Turns(trace, nc, f, probing) && Concludes(trace, r, 4)
    requires trace[0].done.None? && AllQuiet(trace[0].tape) && trace[0].copy.rv < |trace[0].history|
    requires Current(trace[0].history).status.claim == trace[0].copy.version.status.claim
    ensures r == Done && |trace| <= 3
  {
    assert Follows(trace[1 - 1], trace[1], nc, f, probing);
    QuietTry(trace[0], trace[1], nc, f, probing);
    if trace[0].copy.rv < |trace[0].history| - 1 {
      assert Follows(trace[2 - 1], trace[2], nc, f, probing);
      QuietTry(trace[1], trace[2], nc, f, probing);
    }
    VerdictIsLast(trace, nc, f, probing);
  }

  /** No turn follows a verdict. */
  lemma VerdictIsLast(trace: seq<Tried>, nc: ClaimRef, f: Assignment, probing: bool)
    requires Turns(trace, nc, f, probing)
    ensures forall i :: 0 <= i < |trace| - 1 ==> trace[i].done.None?
  {
    forall i | 0 <= i < |trace| - 1 ensures trace[i].done.None? {
      FollowsTheUndecided(trace[i + 1 - 1], trace[i + 1], nc, f, probing);
    }
  }

  lemma FollowsTheUndecided(a: Tried, b: Tried, nc: ClaimRef, f: Assignment, probing: bool)
    requires Follows(a, b, nc, f, probing)
    ensures a.done.None?
  {
    assert From(a) || !From(a);
  }

  class Provider {
    const api: ApiServer

    constructor (api: ApiServer)
      ensures this.api == api
    {
      this.api := api;
    }

    /** Claim: one update of the whole status, never retried. */
    method Claim(host: HostObject, nc: ClaimRef, hostClass: string) returns (ok: bool, failed: bool)
      requires api.Valid() && host.rv < |api.history| && host.version == api.history[host.rv].version
      requires Claimable(host.version, hostClass)
      modifies api, host
      ensures api.Valid() && old(api.history) <= api.history
      ensures !(ok && failed)
      ensures ok ==>
                && api.own == old(api.own) + {|api.history| - 1}
                && |api.history| >= 2
                && api.history[|api.history| - 2].version == old(host.version)
                && Current(api.history) == old(host.version).(status :=
                     old(host.version.status).(state := Claimed, claim := Some(nc)))
                && host.AsCopy() == Newest(api.history)
      ensures !ok && !failed ==> api.own == old(api.own)
      // it succeeds exactly when the version read is still the stored one and the answer arrives
      ensures failed <==> TurnOf(old(api.tape)).fate != Delivered
      ensures ok <==> !failed && old(host.rv) == |Landed(old(api.history), TurnOf(old(api.tape)).others, api.probing)| - 1
    {
      var edited := ClaimedBy(host.version.status, nc);
      host.version := host.version.(status := edited);
      var reply, before, fate := api.Write(host.rv, None, edited, Claimer(nc, hostClass));
      ok, failed := reply == Accepted, reply == Errored;
      if ok {
        var stored := Newest(api.history);
        host.rv, host.version := stored.rv, stored.version;
      }
    }

    /** casPatch: the object is updated in place with the server's response. */
    method CasPatch(host: HostObject, orig: Copy, who: Writer)
      returns (reply: Reply, ghost before: History, ghost fate: Fate)
      requires api.Valid() && host.rv == orig.rv < |api.history|
      requires var v := api.history[orig.rv].version;
               Lawful(v, Entry(v.(status := Merged(orig.version.status, host.version.status, v.status)), who))
      modifies api, host
      ensures api.Valid() && before == Landed(old(api.history), TurnOf(old(api.tape)).others, api.probing)
      ensures fate == TurnOf(old(api.tape)).fate && api.tape == Rest(old(api.tape)) && before <= api.history
      ensures (api.history, reply) == Patched(before, orig, old(host.version.status), who, fate)
      ensures host.AsCopy() == if reply == Accepted then Newest(api.history) else old(host.AsCopy())
      ensures api.own == if api.history == before then old(api.own) else old(api.own) + {|before|}
    {
      reply, before, fate := api.Write(orig.rv, Some(orig.version.status), host.version.status, who);
      if reply == Accepted {
        var stored := Newest(api.history);
        host.rv, host.version := stored.rv, stored.version;
      }
    }

    /** Release: the claim, the providerID and the token record go in one patch, or
        nothing goes. */
    method Release(host: HostObject, nc: ClaimRef, healthy: bool, reason: string)
      returns (reply: Reply, ghost before: History)
      requires api.Valid() && Faithful(api.history, host.AsCopy()) && HeldBy(host.version.status, nc)
      modifies api, host
      ensures api.Valid() && old(api.history) <= before <= api.history
      ensures api.history != before ==>
                && api.own == old(api.own) + {|before|} && |api.history| == |before| + 1
                && HeldBy(Current(before).status, nc)
                && ReleaseOf(Current(before).status, Current(api.history).status)
      ensures api.history == before ==> api.own == old(api.own)
      // what is stored says how it ended
      ensures reply == Accepted ==>
                && var stored := Current(api.history).status;
                   && stored.claim == None && stored.providerID == ""
                   && stored.state == (if healthy then Available else Unhealthy)
                   && stored.probeError == (if healthy then old(host.version.status.probeError) else reason)
                   && stored.installed == Current(before).status.installed
                   && (old(host.version == api.history[host.rv].version) ==> stored.token == "")
    {
      var orig := host.AsCopy();
      host.version := host.version.(status := Released(host.version.status, healthy, reason));
      ReleaserLawful(api.history, orig, healthy, reason, nc);
      ghost var fate;
      reply, before, fate := CasPatch(host, orig, Releaser(nc));
      ExtendsAgain(old(api.history), before, orig.rv);
    }

    /** One attempt of setStatus: edit the object, patch, keep the response. */
    method Attempt(host: HostObject, nc: ClaimRef, f: Assignment) returns (reply: Reply, ghost at: Option<nat>)
      requires api.Valid() && Faithful(api.history, host.AsCopy()) && HeldBy(host.version.status, nc)
      modifies api, host
      ensures api.Valid() && old(api.history) <= api.history && api.tape == Rest(old(api.tape))
      ensures (api.history, reply)
           == Patched(Landed(old(api.history), TurnOf(old(api.tape)).others, api.probing), old(host.AsCopy()),
                      Apply(f, old(host.version.status)), Setter(nc), TurnOf(old(api.tape)).fate)
      ensures host.AsCopy() == if reply == Accepted then Newest(api.history)
                               else Copy(old(host.rv), old(host.version).(status := Apply(f, old(host.version.status))))
      ensures at.Some? ==> Wrote(f, old(api.history), api.history, at.value, old(host.version.status.claim))
      ensures api.own == if at.Some? then old(api.own) + {at.value} else old(api.own)
      ensures reply == Accepted ==>
                && host.AsCopy() == Newest(api.history)
                && host.version.status.claim == old(host.version.status.claim)
                && (old(host.version == api.history[host.rv].version) ==>
                      host.version.status == Apply(f, host.version.status))
      ensures reply == Conflicted ==> at == None
    {
      var orig := host.AsCopy();
      host.version := host.version.(status := Apply(f, host.version.status));
      SetterLawful(api.history, orig, f, nc);
      ghost var before, fate;
      reply, before, fate := CasPatch(host, orig, Setter(nc));
      ExtendsAgain(old(api.history), before, orig.rv);
      at := if api.history == before then None else Some(|before|);
    }

    /** setStatus: retry lost races on a fresh read, while the claim still holds. */
    method SetStatus(host: HostObject, nc: ClaimRef, f: Assignment) returns (r: SetResult, ghost at: Option<nat>, ghost trace: seq<Tried>)
      requires api.Valid() && Faithful(api.history, host.AsCopy()) && HeldBy(host.version.status, nc)
      modifies api, host
      ensures api.Valid() && old(api.history) <= api.history
      // at most one version is written, over one that carried the claim this was
      // issued under, and it differs from that one in the target field only
      ensures at.Some? ==> Wrote(f, old(api.history), api.history, at.value, old(host.version.status.claim))
      ensures api.own == if at.Some? then old(api.own) + {at.value} else old(api.own)
      // success leaves the object at the newest version, with the claim intact
      ensures r == Done ==>
                && host.AsCopy() == Newest(api.history)
                && host.version.status.claim == old(host.version.status.claim)
      // from an object with no unacknowledged edit, the target field has its value
      ensures r == Done && old(host.version == api.history[host.rv].version) ==> Carries(f, host.version.status)
      // a claim that changed hands, and attempts running out, write nothing
      ensures r == ClaimChanged || r == ReadFailed || r == OutOfAttempts ==> at == None
      ensures r == OutOfAttempts ==> host.rv < |api.history| && host.version == api.history[host.rv].version
      // everything, turn by turn: a run of the machine's setter (`SetterIsTheMachines`)
      ensures Turns(trace, nc, f, api.probing) && Concludes(trace, r, 4)
      ensures trace[0] == Tried(old(api.history), old(api.tape), old(host.AsCopy()), None)
      ensures trace[|trace| - 1].history == api.history && trace[|trace| - 1].tape == api.tape
      ensures trace[|trace| - 1].copy == host.AsCopy()
    {
      at := None;
      ghost var clean := host.version == api.history[host.rv].version;
      trace := [Tried(api.history, api.tape, host.AsCopy(), None)];
      var left: nat := ATTEMPTS;
      while left > 0
        invariant api.Valid() && old(api.history) <= api.history && at == None && api.own == old(api.own)
        invariant Faithful(api.history, host.AsCopy()) && host.version.status.claim == old(host.version.status.claim)
        invariant clean || left < ATTEMPTS ==> host.version == api.history[host.rv].version
        invariant left <= ATTEMPTS
        invariant Turns(trace, nc, f, api.probing) && |trace| == ATTEMPTS - left + 1
        invariant trace[0] == Tried(old(api.history), old(api.tape), old(host.AsCopy()), None)
        invariant trace[|trace| - 1] == Tried(api.history, api.tape, host.AsCopy(), None)
      {
        var done;
        done, at := TryOnce(host, nc, f);
        trace := trace + [Tried(api.history, api.tape, host.AsCopy(), done)];
        left := left - 1;
        if done.Some? {
          return done.value, at, trace;
        }
      }
      r := OutOfAttempts;
    }

    /** One turn of the loop: an attempt, and the read that follows a conflict. */
    method TryOnce(host: HostObject, nc: ClaimRef, f: Assignment)
      returns (done: Option<SetResult>, ghost at: Option<nat>)
      requires api.Valid() && Faithful(api.history, host.AsCopy()) && HeldBy(host.version.status, nc)
      modifies api, host
      ensures api.Valid() && old(api.history) <= api.history
      ensures at.Some? ==> Wrote(f, old(api.history), api.history, at.value, old(host.version.status.claim))
      ensures api.own == if at.Some? then old(api.own) + {at.value} else old(api.own)
      ensures Concluded(f, old(api.history), old(host.AsCopy()), api.history, host.AsCopy(), done, at)
      ensures Follows(Tried(old(api.history), old(api.tape), old(host.AsCopy()), None),
                      Tried(api.history, api.tape, host.AsCopy(), done), nc, f, api.probing)
    {
      ghost var start := Tried(api.history, api.tape, host.AsCopy(), None);
      done, at := AttemptAndRead(host, nc, f);
      TurnFollows(start, Tried(api.history, api.tape, host.AsCopy(), done), nc, f, api.probing);
    }

    method AttemptAndRead(host: HostObject, nc: ClaimRef, f: Assignment)
      returns (done: Option<SetResult>, ghost at: Option<nat>)
      requires api.Valid() && Faithful(api.history, host.AsCopy()) && HeldBy(host.version.status, nc)
      modifies api, host
      ensures api.Valid() && old(api.history) <= api.history
      ensures at.Some? ==> Wrote(f, old(api.history), api.history, at.value, old(host.version.status.claim))
      ensures api.own == if at.Some? then old(api.own) + {at.value} else old(api.own)
      ensures Concluded(f, old(api.history), old(host.AsCopy()), api.history, host.AsCopy(), done, at)
      ensures TryOf(old(api.history), old(api.tape), nc, f, old(host.AsCopy()), api.probing)
           == Tried(api.history, api.tape, host.AsCopy(), done)
    {
      var issued := host.version.status.claim;
      var reply;
      reply, at := Attempt(host, nc, f);
      if reply == Accepted {
        return Some(Done), at;
      }
      if reply == Errored {
        return Some(Lost), at;
      }
      var ok, seen := api.Get();
      if !ok {
        return Some(ReadFailed), at;
      }
      if seen.version.status.claim != issued {
        return Some(ClaimChanged), at;
      }
      host.rv, host.version := seen.rv, seen.version;
      done := None;
    }
  }

  /** Version `k` was written since `hist`, over one carrying `claim`, and differs
      from it in the target field only. */
  predicate Wrote(f: Assignment, hist: History, after: History, k: nat, claim: Option<ClaimRef>) {
    && |hist| <= k < |after|
    && StatusAt(after, k - 1).claim == claim
    && OnlyTarget(f, StatusAt(after, k - 1), StatusAt(after, k))
  }

  /** What a turn of the setter's loop leaves in memory, by its verdict. */
  predicate Concluded(f: Assignment, hist: History, was: Copy, after: History, now: Copy, done: Option<SetResult>, at: Option<nat>)
    requires was.rv < |hist|
  {
    && (done == Some(Done) ==>
          && now == Newest(after) && now.version.status.claim == was.version.status.claim
          && (was.version == hist[was.rv].version ==> now.version.status == Apply(f, now.version.status)))
    && done != Some(OutOfAttempts)
    && (done != Some(Done) && done != Some(Lost) ==> at == None)
    && (done == None ==>
          && now.rv < |after| && now.version == after[now.rv].version
          && now.version.status.claim == was.version.status.claim)
  }

  lemma ExtendsAgain(hist: History, after: History, i: nat)
    requires hist <= after && i < |hist|
    ensures after[i] == hist[i]
  {}

  lemma ReleaserLawful(hist: History, c: Copy, healthy: bool, reason: string, nc: ClaimRef)
    requires LawfulHistory(hist) && Faithful(hist, c) && HeldBy(c.version.status, nc)
    ensures var v := hist[c.rv].version;
            var t := Merged(c.version.status, Released(c.version.status, healthy, reason), v.status);
            && Lawful(v, Entry(v.(status := t), Releaser(nc)))
            && ReleaseOf(v.status, t) && HeldBy(v.status, nc) && t.claim == None
  {}

  lemma SetterLawful(hist: History, c: Copy, f: Assignment, nc: ClaimRef)
    requires LawfulHistory(hist) && Faithful(hist, c) && HeldBy(c.version.status, nc)
    ensures var v := hist[c.rv].version;
            var t := Merged(c.version.status, Apply(f, c.version.status), v.status);
            && Lawful(v, Entry(v.(status := t), Setter(nc)))
            && OnlyTarget(f, v.status, t)
            && (c.version.status == v.status ==> t == Apply(f, v.status))
  {}
}
