/**
 The probe reconciler in the form of the code, and what it converges to.

 `Reconcile` and `HandleZombie` assign the in-memory host field by field and write
 between SSH calls.  Under any environment they do exactly what the probe of
 `Protocol` does under the same answers: `Next` is one step of that machine, fed
 with the environment's answer, and each method ends where `Next` leads.
 */
module Reconciler {
  import opened Options
  import opened Records
  import opened Ledger
  import opened Protocol
  import opened Invariant
  import opened HostProvider

  // ----- the environment of one reconcile ----------------------------------------------------------

  datatype Env = Env(
    now: int,                 // when the staleness guard looks at the clock
    probedAt: int,            // when the probe came back
    claim: ClaimLookup,       // what looking the NodeClaim up by name returns
    tokenDeleted: bool,       // whether deleting a bootstrap token succeeds
    lookupFails: bool,        // whether listing Nodes fails
    reachable: bool,          // whether the probe gets through
    leaveSent: bool,          // whether leave gets as far as being sent
    leaveOk: bool,            // whether it then succeeds
    nodeDeleted: bool,        // whether deleting the Node succeeds
    facts: int,
    message: string)

  datatype ClaimLookup = NotFound | LookupFailed | Found(uid: string)

  /** A claim whose NodeClaim is not there is stale, and so is one whose name now
      belongs to another object; an error is no evidence. */
  function VerdictOn(s: Status, found: ClaimLookup): Verdict {
    match found
    case NotFound => Gone
    case LookupFailed => Unknown
    case Found(uid) => if s.claim.Some? && s.claim.value.uid != "" && uid != "" && s.claim.value.uid != uid then Gone else Alive
  }

  /** The world around the probe: the record and the turns its environment will take,
      the versions the probe wrote, the Node, the kubelet, the tokens that exist, and
      where the machine's probe is. */
  datatype Trail = Trail(
    history: History, tape: seq<Turn>, own: set<nat>,
    node: bool, kubelet: bool, tokens: set<string>,
    probe: Probe)

  // ----- the machine's probe under that environment ---------------------------------------------------

  /** The step makes a request on the host record. */
  predicate Asks(p: Probe, env: Env) {
    || p.SavingFacts? || p.Fencing?
    || (p.Patching? && p.next.(facts := env.facts) != p.base.version.status)
  }

  /** What the probe is answered. */
  function Answer(t: Trail, env: Env, fate: Fate): ProbeChoice {
    var found := if env.lookupFails then None else Some(t.node);
    match t.probe
    case Idle => Expel
    case Checking(base) => Looked(VerdictOn(base.version.status, env.claim))
    case Reaping(_) => Reap(env.tokenDeleted)
    case Collecting(_) => Collect(found, env.tokenDeleted)
    case Probing(_, _) => if env.reachable then ProbeAnswers(env.facts, t.kubelet) else ProbeFails(env.message)
    case SavingFacts(_, _) => Write(fate, env.facts)
    case Guarding(_) => NodeLookup(found, env.message)
    case Fencing(_, _) => Write(fate, env.facts)
    case Fenced(base, _) =>
      if env.leaveSent && base.version.status.installed != "" then Expel else Unsent(env.message)
    case Expelling(_, _) => Expelled(env.leaveOk, env.message)
    case DroppingNode(_) => NodeGone(env.nodeDeleted)
    case Patching(_, _, _) => Write(fate, env.facts)
  }

  /** What the outside world feels of a step. */
  function Felt(t: Trail, ch: ProbeChoice, e: Effect): Trail {
    t.(kubelet := t.kubelet && e != Phased(Ended(Leave, true), ""),
       node := t.node && !(t.probe.DroppingNode? && ch == NodeGone(true)),
       tokens := if e.Deleted? && e.ok then t.tokens - {e.token} else t.tokens)
  }

  /** One step of the machine's probe, after others had their turn if it makes a request. */
  function Next(t: Trail, env: Env): Trail {
    if t.probe.Idle? then t
    else
      var asks := Asks(t.probe, env);
      var turn := if asks then TurnOf(t.tape) else QUIET_TURN;
      var hist := Landed(t.history, turn.others, true);
      var ch := Answer(t, env, turn.fate);
      var o := ProbeStep(hist, t.probe, ch, env.probedAt);
      Felt(t, ch, o.effect).(
        history := o.history,
        tape := if asks then Rest(t.tape) else t.tape,
        own := if o.history == hist then t.own else t.own + {|hist|},
        probe := o.next)
  }

  function Iterated<T>(step: T -> T, t: T, n: nat): T {
    if n == 0 then t else step(Iterated(step, t, n - 1))
  }

  lemma {:induction false} IteratedOn<T>(step: T -> T, t: T, m: nat, n: nat)
    ensures Iterated(step, t, m + n) == Iterated(step, Iterated(step, t, m), n)
    decreases n
  {
    if n > 0 {
      IteratedOn(step, t, m, n - 1);
    }
  }

  lemma {:induction false} IteratedStays<T>(step: T -> T, t: T, n: nat)
    requires step(t) == t
    ensures Iterated(step, t, n) == t
  {
    if n > 0 {
      IteratedStays(step, t, n - 1);
    }
  }

  function StepIn(env: Env): Trail -> Trail {
    t => Next(t, env)
  }

  /** So many steps of the probe. */
  function Drive(t: Trail, env: Env, n: nat): Trail {
    Iterated(StepIn(env), t, n)
  }

  ghost predicate Leads(t: Trail, env: Env, u: Trail) {
    exists n: nat :: Drive(t, env, n) == u
  }

  lemma LeadsOn(t: Trail, env: Env, u: Trail, v: Trail)
    requires Leads(t, env, u) && Leads(u, env, v)
    ensures Leads(t, env, v)
  {
    var m: nat :| Drive(t, env, m) == u;
    var n: nat :| Drive(u, env, n) == v;
    IteratedOn(StepIn(env), t, m, n);
    assert Drive(t, env, m + n) == v;
  }

  lemma LeadsNowhere(t: Trail, env: Env)
    ensures Leads(t, env, t)
  {
    assert Drive(t, env, 0) == t;
  }

  lemma LeadsNext(t: Trail, env: Env)
    ensures Leads(t, env, Next(t, env))
  {
    assert Iterated(StepIn(env), t, 0) == t;
    assert Drive(t, env, 1) == Next(t, env);
  }

  /** The machine's probe runs to one end only: what a method is said to lead to is all
      it can have done. */
  lemma LeadsToOneEnd(t: Trail, env: Env, u: Trail, v: Trail)
    requires Leads(t, env, u) && Leads(t, env, v) && u.probe.Idle? && v.probe.Idle?
    ensures u == v
  {
    var m: nat :| Drive(t, env, m) == u;
    var n: nat :| Drive(t, env, n) == v;
    if m <= n {
      IteratedOn(StepIn(env), t, m, n - m);
      IteratedStays(StepIn(env), u, n - m);
    } else {
      IteratedOn(StepIn(env), t, n, m - n);
      IteratedStays(StepIn(env), v, m - n);
    }
  }

  /** One reconcile: a read, and the steps it leads to. */
  function AfterGet(t: Trail, env: Env): Trail {
    var turn := TurnOf(t.tape);
    var hist := Landed(t.history, turn.others, true);
    t.(history := hist, tape := Rest(t.tape),
       probe := if turn.fate == Delivered then AfterRead(View(hist, turn.view), env.now) else Idle)
  }

  // ----- steps without a request -----------------------------------------------------------------------

  lemma QuietMove(t: Trail, env: Env, u: Trail)
    requires !t.probe.Idle? && !Asks(t.probe, env)
    requires var ch := Answer(t, env, Delivered);
             var o := ProbeStep(t.history, t.probe, ch, env.probedAt);
             o.history == t.history && u == Felt(t, ch, o.effect).(probe := o.next)
    ensures Leads(t, env, u)
  {
    assert Landed(t.history, [], true) == t.history;
    LeadsNext(t, env);
  }

  /** Where the guard is after looking for the Node. */
  function AfterNodeLookup(base: Copy, found: Option<bool>, message: string): Probe {
    if base.version.status.claim.Some? || found.None? then Idle
    else if !found.value && base.version.status.installed == "" then
      Patching(base, ParkedBy(base.version.status, message), false)
    else Fencing(base, found.value)
  }

  lemma NodeLookupMove(t: Trail, env: Env)
    requires t.probe.Guarding?
    ensures Leads(t, env, t.(probe := AfterNodeLookup(t.probe.base, if env.lookupFails then None else Some(t.node), env.message)))
  {
    QuietMove(t, env, t.(probe := AfterNodeLookup(t.probe.base, if env.lookupFails then None else Some(t.node), env.message)));
  }

  /** The guard behind its fence, when leave is not sent or fails. */
  lemma LeaveFails(t: Trail, env: Env)
    requires t.probe.Fenced? && (!env.leaveSent || t.probe.base.version.status.installed == "" || !env.leaveOk)
    ensures Leads(t, env, t.(probe := Patching(t.probe.base, ParkedBy(t.probe.base.version.status, env.message), true)))
  {
    var base := t.probe.base;
    var u := t.(probe := Patching(base, ParkedBy(base.version.status, env.message), true));
    if !env.leaveSent || base.version.status.installed == "" {
      QuietMove(t, env, u);
    } else {
      var t1 := t.(probe := Expelling(base, t.probe.node));
      QuietMove(t, env, t1);
      QuietMove(t1, env, u);
      LeadsOn(t, env, t1, u);
    }
  }

  /** And when it succeeds. */
  lemma LeaveSucceeds(t: Trail, env: Env)
    requires t.probe.Fenced? && env.leaveSent && t.probe.base.version.status.installed != "" && env.leaveOk
    ensures Leads(t, env, t.(kubelet := false, probe := AfterLeave(t.probe.base, t.probe.node)))
  {
    var t1 := t.(probe := Expelling(t.probe.base, t.probe.node));
    var u := t.(kubelet := false, probe := AfterLeave(t.probe.base, t.probe.node));
    QuietMove(t, env, t1);
    QuietMove(t1, env, u);
    LeadsOn(t, env, t1, u);
  }

  function AfterLeave(base: Copy, node: bool): Probe {
    if node then DroppingNode(base) else Patching(base, Freed(base.version.status), true)
  }

  lemma NodeGoes(t: Trail, env: Env)
    requires t.probe.DroppingNode?
    ensures Leads(t, env, if env.nodeDeleted then t.(node := false, probe := AfterLeave(t.probe.base, false)) else t.(probe := Idle))
  {
    QuietMove(t, env, if env.nodeDeleted then t.(node := false, probe := AfterLeave(t.probe.base, false)) else t.(probe := Idle));
  }

  /** The probe of a claimed host before it writes. */
  function Tended(t: Trail, env: Env): Trail
    requires t.probe.Checking?
  {
    var base, s := t.probe.base, t.probe.base.version.status;
    var spent := if env.tokenDeleted then t.tokens - {s.token} else t.tokens;
    match VerdictOn(s, env.claim)
    case Unknown => t.(probe := Idle)
    case Gone => t.(tokens := if s.token == "" then t.tokens else spent, probe := Patching(base, StaleDropped(s), false))
    case Alive =>
      if s.token == "" || s.providerID == "" then t.(probe := Patching(base, s, false))
      else if env.lookupFails then t.(probe := Idle)
      else if !t.node then t.(probe := Patching(base, s, false))
      else if !env.tokenDeleted then t.(probe := Idle)
      else t.(tokens := spent, probe := Patching(base, s.(token := ""), false))
  }

  lemma TendMoves(t: Trail, env: Env)
    requires t.probe.Checking?
    ensures Leads(t, env, Tended(t, env))
  {
    var base := t.probe.base;
    var verdict := VerdictOn(base.version.status, env.claim);
    if verdict == Gone {
      var t1 := t.(probe := Reaping(base));
      QuietMove(t, env, t1);
      QuietMove(t1, env, Tended(t, env));
      LeadsOn(t, env, t1, Tended(t, env));
    } else if verdict == Alive && AfterCheck(base).Collecting? {
      var t1 := t.(probe := Collecting(base));
      QuietMove(t, env, t1);
      QuietMove(t1, env, Tended(t, env));
      LeadsOn(t, env, t1, Tended(t, env));
    } else {
      QuietMove(t, env, Tended(t, env));
    }
  }

  function AfterProbe(base: Copy, kubelet: bool, env: Env): Probe {
    var s := Probed(base.version, env.probedAt);
    if !env.reachable then Patching(base, ParkedBy(s, env.message), false)
    else if kubelet then SavingFacts(base, s.(facts := env.facts))
    else Patching(base, s.(facts := env.facts, probeError := "", state := Available), false)
  }

  lemma ProbeMove(t: Trail, env: Env)
    requires t.probe.Probing?
    ensures Leads(t, env, t.(probe := AfterProbe(t.probe.base, t.kubelet, env)))
  {
    QuietMove(t, env, t.(probe := AfterProbe(t.probe.base, t.kubelet, env)));
  }

  // ----- steps with a request -----------------------------------------------------------------------------

  /** What a request of the probe, patching from `base`, leaves stored and owned. */
  function Asked(t: Trail, base: Copy, edited: Status): (Trail, Reply) {
    var turn := TurnOf(t.tape);
    var before := Landed(t.history, turn.others, true);
    var (after, reply) := Patched(before, base, edited, Prober, turn.fate);
    (t.(history := after, tape := Rest(t.tape), own := if after == before then t.own else t.own + {|before|}), reply)
  }

  /** One such step, given what the machine makes of the answer. */
  lemma AskMove(t: Trail, env: Env, before: History, edited: Status, u: Trail, reply: Reply, next: Probe)
    requires Asks(t.probe, env) && before == Landed(t.history, TurnOf(t.tape).others, true)
    requires (u, reply) == Asked(t, t.probe.base, edited)
    requires ProbeStep(before, t.probe, Write(TurnOf(t.tape).fate, env.facts), env.probedAt) == ProbeOutcome(next, u.history, Quiet)
    ensures Leads(t, env, u.(probe := next))
  {
    assert Next(t, env) == u.(probe := next);
    LeadsNext(t, env);
  }

  lemma FenceMove(t: Trail, env: Env, u: Trail, reply: Reply)
    requires t.probe.Fencing?
    requires (u, reply) == Asked(t, t.probe.base, t.probe.base.version.status.(state := Leaving))
    ensures Leads(t, env, u.(probe := if reply == Accepted then Fenced(Newest(u.history), t.probe.node) else Idle))
  {
    AskMove(t, env, Landed(t.history, TurnOf(t.tape).others, true), t.probe.base.version.status.(state := Leaving), u, reply,
            if reply == Accepted then Fenced(Newest(u.history), t.probe.node) else Idle);
  }

  lemma FactsMove(t: Trail, env: Env, u: Trail, reply: Reply)
    requires t.probe.SavingFacts? && (u, reply) == Asked(t, t.probe.base, t.probe.next)
    ensures Leads(t, env, u.(probe := if reply == Accepted then Guarding(Newest(u.history)) else Idle))
  {
    AskMove(t, env, Landed(t.history, TurnOf(t.tape).others, true), t.probe.next, u, reply,
            if reply == Accepted then Guarding(Newest(u.history)) else Idle);
  }

  lemma PatchSkips(t: Trail, env: Env)
    requires t.probe.Patching? && t.probe.next.(facts := env.facts) == t.probe.base.version.status
    ensures Leads(t, env, t.(probe := Idle))
  {
    QuietMove(t, env, t.(probe := Idle));
  }

  lemma PatchAsks(t: Trail, env: Env, u: Trail, reply: Reply)
    requires t.probe.Patching? && t.probe.next.(facts := env.facts) != t.probe.base.version.status
    requires (u, reply) == Asked(t, t.probe.base, t.probe.next.(facts := env.facts))
    ensures Leads(t, env, u.(probe := Idle))
  {
    AskMove(t, env, Landed(t.history, TurnOf(t.tape).others, true), t.probe.next.(facts := env.facts), u, reply, Idle);
  }

  // ----- what the machine keeps ------------------------------------------------------------------------------

  /** A step of `Next` is the machine's own: the probe of a system whose host stores what
      has landed, at the same time, observes the same. */
  lemma NextIsTheMachines(s: Sys, h: HostId, t: Trail, env: Env)
    requires h in s.hosts && !t.probe.Idle? && s.hosts[h].probe == t.probe && s.clock == env.probedAt
    requires s.hosts[h].history == Landed(t.history, (if Asks(t.probe, env) then TurnOf(t.tape) else QUIET_TURN).others, true)
    ensures var fate := (if Asks(t.probe, env) then TurnOf(t.tape) else QUIET_TURN).fate;
            var after := Step(s, Observe(h, Answer(t, env, fate)));
            h in after.hosts && after.hosts[h].history == Next(t, env).history && after.hosts[h].probe == Next(t, env).probe
  {}

  lemma {:induction false} LandedKeepsProbe(hist: History, others: seq<Entry>, p: Probe, now: int)
    requires LawfulHistory(hist) && ProbeOk(hist, p, now)
    ensures LawfulHistory(Landed(hist, others, true)) && ProbeOk(Landed(hist, others, true), p, now)
    decreases |others|
  {
    if others != [] {
      if MayLand(hist, others[0], true) {
        var after := hist + [others[0]];
        ExtendsKeepsLawful(hist, after);
        ExtendsKeepsProbe(hist, after, p, now);
        LandedKeepsProbe(after, others[1..], p, now);
      } else {
        LandedKeepsProbe(hist, others[1..], p, now);
      }
    }
  }

  /** From version `from` on, what the prober wrote is exactly what the probe owns. */
  ghost predicate OwnsItsEntries(hist: History, own: set<nat>, from: nat) {
    forall k :: from <= k < |hist| ==> (hist[k].who == Prober <==> k in own)
  }

  lemma {:induction false} LandedOwned(hist: History, others: seq<Entry>, own: set<nat>, from: nat)
    requires OwnsItsEntries(hist, own, from) && forall k <- own :: k < |hist|
    ensures OwnsItsEntries(Landed(hist, others, true), own, from)
    decreases |others|
  {
    if others != [] {
      LandedOwned(if MayLand(hist, others[0], true) then hist + [others[0]] else hist, others[1..], own, from);
    }
  }

  ghost predicate Sane(t: Trail, env: Env, from: nat) {
    && LawfulHistory(t.history) && ProbeOk(t.history, t.probe, env.probedAt)
    && (forall k <- t.own :: k < |t.history|) && OwnsItsEntries(t.history, t.own, from)
  }

  lemma NextSane(t: Trail, env: Env, from: nat)
    requires Sane(t, env, from) && from <= |t.history|
    ensures Sane(Next(t, env), env, from) && |t.history| <= |Next(t, env).history|
  {
    if !t.probe.Idle? {
      var turn := if Asks(t.probe, env) then TurnOf(t.tape) else QUIET_TURN;
      var hist := Landed(t.history, turn.others, true);
      LandedKeepsProbe(t.history, turn.others, t.probe, env.probedAt);
      LandedOwned(t.history, turn.others, t.own, from);
      var o := ProbeStep(hist, t.probe, Answer(t, env, turn.fate), env.probedAt);
      ProbeStepOk(hist, t.probe, Answer(t, env, turn.fate), env.probedAt);
      ExtendsKeepsLawful(hist, o.history);
      GrewOwned(hist, o.history, t.own, from);
    }
  }

  lemma GrewOwned(hist: History, after: History, own: set<nat>, from: nat)
    requires Extends(hist, after) && (Grew(hist, after) ==> after[|hist|].who == Prober)
    requires OwnsItsEntries(hist, own, from) && (forall k <- own :: k < |hist|) && from <= |hist|
    ensures OwnsItsEntries(after, if after == hist then own else own + {|hist|}, from)
  {
    forall k | from <= k < |hist| ensures after[k] == hist[k] {}
  }

  lemma {:induction false} DriveSane(t: Trail, env: Env, from: nat, n: nat)
    requires Sane(t, env, from) && from <= |t.history|
    ensures Sane(Drive(t, env, n), env, from) && |t.history| <= |Drive(t, env, n).history|
  {
    if n > 0 {
      DriveSane(t, env, from, n - 1);
      NextSane(Drive(t, env, n - 1), env, from);
    }
  }

  lemma GetSane(t: Trail, env: Env)
    requires LawfulHistory(t.history) && (forall k <- t.own :: k < |t.history|) && env.now <= env.probedAt
    ensures Sane(AfterGet(t, env), env, |t.history|) && |t.history| <= |AfterGet(t, env).history|
  {
    var turn := TurnOf(t.tape);
    var hist := Landed(t.history, turn.others, true);
    LandedLawful(t.history, turn.others, true);
    LandedOwned(t.history, turn.others, t.own, |t.history|);
    AfterReadOk(hist, View(hist, turn.view).rv, env.now);
  }

  /** Leave runs and the Node is deleted only on a host stored as Leaving and unclaimed. */
  predicate BehindFence(u: Trail) {
    u.probe.Fenced? || u.probe.Expelling? || u.probe.DroppingNode? ==>
      Current(u.history).status.state == Leaving && Current(u.history).status.claim == None
  }

  lemma SaneIsFenced(u: Trail, env: Env, from: nat)
    requires Sane(u, env, from)
    ensures LawfulHistory(u.history) && OwnsItsEntries(u.history, u.own, from) && BehindFence(u)
  {}

  /** At every moment of every reconcile, whatever the environment does: the store is
      lawful, what the prober wrote is what this reconcile wrote, and leave runs and the
      Node is deleted only while the host is stored as Leaving and unclaimed. */
  lemma GuardActsBehindFence(t: Trail, env: Env, n: nat)
    requires LawfulHistory(t.history) && (forall k <- t.own :: k < |t.history|) && env.now <= env.probedAt
    ensures var u := Drive(AfterGet(t, env), env, n);
            LawfulHistory(u.history) && OwnsItsEntries(u.history, u.own, |t.history|) && BehindFence(u)
  {
    GetSane(t, env);
    DriveSane(AfterGet(t, env), env, |t.history|, n);
    SaneIsFenced(Drive(AfterGet(t, env), env, n), env, |t.history|);
  }

  /** A step only ever adds to the history. */
  lemma NextGrows(t: Trail, env: Env)
    ensures t.history <= Next(t, env).history
  {
    if !t.probe.Idle? {
      var turn := if Asks(t.probe, env) then TurnOf(t.tape) else QUIET_TURN;
      var hist := Landed(t.history, turn.others, true);
      ProbeStepGrows(hist, t.probe, Answer(t, env, turn.fate), env.probedAt);
    }
  }

  lemma ProbeStepGrows(hist: History, p: Probe, ch: ProbeChoice, now: int)
    ensures hist <= ProbeStep(hist, p, ch, now).history
  {}

  lemma {:induction false} DriveGrows(t: Trail, env: Env, n: nat)
    ensures t.history <= Drive(t, env, n).history
  {
    if n > 0 {
      DriveGrows(t, env, n - 1);
      NextGrows(Drive(t, env, n - 1), env);
    }
  }

  /** So does a whole reconcile. */
  lemma ReconcileGrows(t: Trail, env: Env, u: Trail)
    requires Leads(AfterGet(t, env), env, u)
    ensures t.history <= u.history
  {
    var n: nat :| Drive(AfterGet(t, env), env, n) == u;
    DriveGrows(AfterGet(t, env), env, n);
  }

  // ----- nobody else writes ------------------------------------------------------------------------------------

  /** Nobody else writes and every request is answered.  What a read shows is left open:
      it may be as old as it likes. */
  predicate Undisturbed(tape: seq<Turn>) {
    forall i :: 0 <= i < |tape| ==> tape[i].others == [] && tape[i].fate == Delivered
  }

  lemma TurnUndisturbed(tape: seq<Turn>)
    ensures Undisturbed(tape) ==>
              TurnOf(tape).others == [] && TurnOf(tape).fate == Delivered && Undisturbed(Rest(tape))
  {}

  // ----- what a reconcile leaves ---------------------------------------------------------------------------------

  /** Nobody probed this generation within the last two minutes. */
  predicate Due(v: Version, now: int) {
    || v.status.probedAt.None? || v.status.observedGeneration != v.generation
    || now >= v.status.probedAt.value + 120_000_000_000
  }

  /** The claim is nobody's: its NodeClaim is not there, or another has its name. */
  predicate Stale(ref: ClaimRef, found: ClaimLookup) {
    found == NotFound || (found.Found? && ref.uid != "" && found.uid != "" && ref.uid != found.uid)
  }

  /** A claimed host: a stale claim is dropped whole, with its token; a live one's token
      is dropped once the Node is there; without evidence nothing happens. */
  predicate Tidied(env: Env, v: Version, ref: ClaimRef, node: bool, tokens: set<string>, now: Version, tokensNow: set<string>) {
    var s := v.status;
    if Stale(ref, env.claim) then
      && now == v.(status := s.(state := Pending, claim := None, providerID := "", token := "", facts := env.facts))
      && tokensNow == (if s.token != "" && env.tokenDeleted then tokens - {s.token} else tokens)
    else if env.claim == LookupFailed then now == v && tokensNow == tokens
    else if s.token == "" || s.providerID == "" || (!env.lookupFails && !node) then
      now == v.(status := s.(facts := env.facts)) && tokensNow == tokens
    else if env.lookupFails || !env.tokenDeleted then now == v && tokensNow == tokens
    else now == v.(status := s.(token := "", facts := env.facts)) && tokensNow == tokens - {s.token}
  }

  /** Everything but the probe's own observations is as it was. */
  predicate OnlyObserved(v: Version, now: Version) {
    now == v.(status := v.status.(state := now.status.state, probeError := now.status.probeError, facts := now.status.facts))
  }

  /** An unclaimed host with a kubelet: parked with the message unless leave stops it;
      then, its Node deleted as well, opened. */
  predicate DrivenOut(env: Env, v: Version, node: bool, kubelet: bool, now: Version, nodeNow: bool, kubeletNow: bool) {
    && OnlyObserved(v, now)
    && if v.status.installed == "" || !env.leaveSent || !env.leaveOk then
         now.status.state == Unhealthy && now.status.probeError == env.message && nodeNow == node && kubeletNow == kubelet
       else if node && !env.nodeDeleted then
         now.status.state == Leaving && now.status.probeError == v.status.probeError && nodeNow && !kubeletNow
       else now.status.state == Available && now.status.probeError == "" && !nodeNow && !kubeletNow
  }

  predicate Guarded(env: Env, v: Version, node: bool, kubelet: bool, now: Version, nodeNow: bool, kubeletNow: bool) {
    if env.lookupFails then now == v && nodeNow == node && kubeletNow == kubelet
    else DrivenOut(env, v, node, kubelet, now, nodeNow, kubeletNow)
  }

  /** The same behind the fence, where `v` is stored as Leaving. */
  predicate LeftAs(env: Env, v: Version, node: bool, kubelet: bool, now: Version, nodeNow: bool, kubeletNow: bool) {
    var s := v.status;
    if s.installed == "" || !env.leaveSent || !env.leaveOk then
      && now == v.(status := s.(state := Unhealthy, probeError := env.message, facts := env.facts))
      && nodeNow == node && kubeletNow == kubelet
    else
      && !kubeletNow && nodeNow == (node && !env.nodeDeleted)
      && now == v.(status := if nodeNow then s else s.(state := Available, probeError := "", facts := env.facts))
  }

  lemma LeftIsDrivenOut(env: Env, v: Version, w: Version, node: bool, kubelet: bool, now: Version, nodeNow: bool, kubeletNow: bool)
    requires w == v.(status := v.status.(state := Leaving)) && LeftAs(env, w, node, kubelet, now, nodeNow, kubeletNow)
    ensures DrivenOut(env, v, node, kubelet, now, nodeNow, kubeletNow)
  {}

  /** The probe is on record: this generation, at this time in whole seconds. */
  predicate Recorded(v: Version, at: int, now: Status) {
    && now.claim == v.status.claim && now.installed == v.status.installed && now.token == v.status.token
    && now.providerID == v.status.providerID && now.observedGeneration == v.generation
    && now.probedAt.Some? && now.probedAt.value % 1_000_000_000 == 0
    && now.probedAt.value <= at < now.probedAt.value + 1_000_000_000
  }

  /** An unclaimed host that was due: unreachable it is parked, without a kubelet it is
      opened, and with one it goes to the guard. */
  predicate Inspected(env: Env, v: Version, node: bool, kubelet: bool, now: Version, nodeNow: bool, kubeletNow: bool) {
    && now == v.(status := now.status) && Recorded(v, env.probedAt, now.status)
    && if !env.reachable then
         now.status.state == Unhealthy && now.status.probeError == env.message && nodeNow == node && kubeletNow == kubelet
       else if !kubelet then
         now.status.state == Available && now.status.probeError == "" && nodeNow == node && !kubeletNow
       else
         var state := if v.status.state == Maintenance then Pending else v.status.state;
         var saved := v.(status := v.status.(state := state, probedAt := now.status.probedAt,
                                             observedGeneration := v.generation, facts := env.facts));
         Guarded(env, saved, node, kubelet, now, nodeNow, kubeletNow)
  }

  /** What one reconcile that nobody disturbs leaves of a host it read as it is stored. */
  predicate Reconciled(env: Env, v: Version, node: bool, kubelet: bool, tokens: set<string>,
                       now: Version, nodeNow: bool, kubeletNow: bool, tokensNow: set<string>) {
    if v.status.claim.Some? then
      Tidied(env, v, v.status.claim.value, node, tokens, now, tokensNow) && nodeNow == node && kubeletNow == kubelet
    else if v.maintenance then
      && now == v.(status := v.status.(state := Maintenance, facts := env.facts))
      && nodeNow == node && kubeletNow == kubelet && tokensNow == tokens
    else if Due(v, env.now) then
      Inspected(env, v, node, kubelet, now, nodeNow, kubeletNow) && tokensNow == tokens
    else now == v && nodeNow == node && kubeletNow == kubelet && tokensNow == tokens
  }

  // ----- the code ---------------------------------------------------------------------------------------------

  class HostProbe {
    const api: ApiServer
    const provider: Provider
    var node: bool            // a Node advertises the host's address
    var kubelet: bool         // the kubelet runs on the host
    var tokens: set<string>   // bootstrap tokens that exist

    ghost predicate Valid()
      reads this, api
    {
      provider.api == api && api.Valid() && api.probing
    }

    constructor (api: ApiServer, node: bool, kubelet: bool, tokens: set<string>)
      requires api.Valid() && api.probing
      ensures Valid() && this.api == api
      ensures this.node == node && this.kubelet == kubelet && this.tokens == tokens
    {
      this.api, this.node, this.kubelet, this.tokens := api, node, kubelet, tokens;
      provider := new Provider(api);
    }

    /** The world as it is, with the machine's probe in state `p`. */
    ghost function World(p: Probe): Trail
      reads this, api
    {
      Trail(api.history, api.tape, api.own, node, kubelet, tokens, p)
    }

    /** Everything an action may rely on: the object is at the version it came from. */
    ghost predicate At(host: HostObject, orig: Copy)
      reads api, host
    {
      host.rv == orig.rv < |api.history| && orig.version == api.history[orig.rv].version
    }

    /** patchStatus: write the status unless nothing changed. */
    method PatchStatus(orig: Copy, host: HostObject, env: Env, ghost closing: bool)
      requires Valid() && At(host, orig) && Upkeep(orig.version, host.version.status)
      modifies api, host
      ensures Valid() && Leads(old(World(Patching(orig, host.version.status, closing))), env, World(Idle))
      ensures Undisturbed(old(api.tape)) ==> Undisturbed(api.tape)
      ensures Undisturbed(old(api.tape)) && orig.rv == |old(api.history)| - 1 ==>
                Current(api.history) == orig.version.(status := old(host.version.status).(facts := env.facts))
      ensures Undisturbed(old(api.tape)) && orig.rv < |old(api.history)| - 1 ==> api.history == old(api.history)
    {
      ghost var t := World(Patching(orig, host.version.status, closing));
      host.version := host.version.(status := host.version.status.(facts := env.facts));
      if host.version.status == orig.version.status {
        PatchSkips(t, env);
        return;
      }
      WriteStatus(orig, host, env, t);
    }

    /** The write of a status that did change; `t` is the world before the edit. */
    method WriteStatus(orig: Copy, host: HostObject, env: Env, ghost t: Trail)
      requires Valid() && At(host, orig) && Upkeep(orig.version, host.version.status)
      requires t.probe.Patching? && t == World(t.probe) && t.probe.base == orig
      requires t.probe.next.(facts := env.facts) == host.version.status != orig.version.status
      modifies api, host
      ensures Valid() && Leads(t, env, World(Idle))
      ensures Undisturbed(old(api.tape)) ==> Undisturbed(api.tape)
      ensures Undisturbed(old(api.tape)) && orig.rv == |old(api.history)| - 1 ==>
                Current(api.history) == orig.version.(status := old(host.version.status))
      ensures Undisturbed(old(api.tape)) && orig.rv < |old(api.history)| - 1 ==> api.history == old(api.history)
    {
      var ok := PatchAndStay(orig, host);
      PatchAsks(t, env, World(t.probe),
                if ok then Accepted else if TurnOf(t.tape).fate == Delivered then Conflicted else Errored);
    }

    /** A patch whose response the probe goes on from, never from a re-read. */
    method PatchAndStay(orig: Copy, host: HostObject) returns (ok: bool)
      requires Valid() && At(host, orig) && Upkeep(orig.version, host.version.status)
      modifies api, host
      ensures Valid()
      ensures forall p :: (World(p), if ok then Accepted else (if TurnOf(old(api.tape)).fate == Delivered then Conflicted else Errored))
                       == Asked(old(World(p)), orig, old(host.version.status))
      ensures ok ==>
                && host.AsCopy() == Newest(api.history)
                && host.version == orig.version.(status := old(host.version.status))
      ensures Undisturbed(old(api.tape)) ==> Undisturbed(api.tape)
      ensures Undisturbed(old(api.tape)) && orig.rv == |old(api.history)| - 1 ==> ok
      ensures Undisturbed(old(api.tape)) && orig.rv < |old(api.history)| - 1 ==> !ok && api.history == old(api.history)
    {
      TurnUndisturbed(api.tape);
      var reply, before, fate := provider.CasPatch(host, orig, Prober);
      ok := reply == Accepted;
    }

    /** The guard's verdict on a host it cannot free. */
    method Park(host: HostObject, env: Env, ghost closing: bool)
      requires Valid() && At(host, host.AsCopy())
      requires host.version.status.claim == None && !host.version.maintenance
      modifies api, host
      ensures Valid()
      ensures Leads(old(World(Patching(host.AsCopy(), ParkedBy(host.version.status, env.message), closing))), env, World(Idle))
      ensures Undisturbed(old(api.tape)) ==> Undisturbed(api.tape)
      ensures Undisturbed(old(api.tape)) && old(host.rv) == |old(api.history)| - 1 ==>
                Current(api.history) == old(host.version).(status :=
                  old(host.version.status).(state := Unhealthy, probeError := env.message, facts := env.facts))
    {
      var orig := host.AsCopy();
      host.version := host.version.(status := ParkedBy(host.version.status, env.message));
      PatchStatus(orig, host, env, closing);
    }

    /** The guard's verdict on a host it freed. */
    method Reopen(host: HostObject, env: Env)
      requires Valid() && At(host, host.AsCopy())
      requires host.version.status.claim == None && !host.version.maintenance
      modifies api, host
      ensures Valid() && Leads(old(World(Patching(host.AsCopy(), Freed(host.version.status), true))), env, World(Idle))
      ensures Undisturbed(old(api.tape)) ==> Undisturbed(api.tape)
      ensures Undisturbed(old(api.tape)) && old(host.rv) == |old(api.history)| - 1 ==>
                Current(api.history) == old(host.version).(status :=
                  old(host.version.status).(state := Available, probeError := "", facts := env.facts))
    {
      var orig := host.AsCopy();
      host.version := host.version.(status := Freed(host.version.status));
      PatchStatus(orig, host, env, true);
    }

    /** handleZombie: fence the host with Leaving, run leave, delete the Node, reopen. */
    method HandleZombie(host: HostObject, env: Env)
      requires Valid() && At(host, host.AsCopy())
      requires host.version.status.claim == None && !host.version.maintenance
      modifies this`node, this`kubelet, api, host
      ensures Valid() && Leads(old(World(Guarding(host.AsCopy()))), env, World(Idle))
      ensures Undisturbed(old(api.tape)) ==> Undisturbed(api.tape)
      // undisturbed, the host is parked with the message, or left and opened
      ensures Undisturbed(old(api.tape)) && old(host.rv) == |old(api.history)| - 1 ==>
                Guarded(env, old(host.version), old(node), old(kubelet), Current(api.history), node, kubelet)
    {
      var orig := host.AsCopy();
      ghost var t := World(Guarding(orig));
      NodeLookupMove(t, env);
      if env.lookupFails {
        return;
      }
      if !node && host.version.status.installed == "" {
        ghost var t1 := World(Patching(orig, ParkedBy(host.version.status, env.message), false));
        Park(host, env, false);
        LeadsOn(t, env, t1, World(Idle));
        return;
      }
      ghost var t1 := World(Fencing(orig, node));
      FenceAndLeave(host, env);
      LeadsOn(t, env, t1, World(Idle));
    }

    /** The guard writes Leaving, and goes on from the response. */
    method FenceAndLeave(host: HostObject, env: Env)
      requires Valid() && At(host, host.AsCopy())
      requires host.version.status.claim == None && !host.version.maintenance
      modifies this`node, this`kubelet, api, host
      ensures Valid() && Leads(old(World(Fencing(host.AsCopy(), node))), env, World(Idle))
      ensures Undisturbed(old(api.tape)) ==> Undisturbed(api.tape)
      ensures Undisturbed(old(api.tape)) && old(host.rv) == |old(api.history)| - 1 ==>
                DrivenOut(env, old(host.version), old(node), old(kubelet), Current(api.history), node, kubelet)
    {
      var orig := host.AsCopy();
      ghost var t := World(Fencing(orig, node));
      host.version := host.version.(status := host.version.status.(state := Leaving));
      var ok := PatchAndStay(orig, host);
      FenceMove(t, env, World(t.probe),
                if ok then Accepted else if TurnOf(t.tape).fate == Delivered then Conflicted else Errored);
      if ok {
        ghost var t1 := World(Fenced(host.AsCopy(), node));
        LeaveFenced(host, env, orig.version);
        LeadsOn(t, env, t1, World(Idle));
      }
    }

    /** The guard behind its fence, which it wrote over `v`. */
    method LeaveFenced(host: HostObject, env: Env, ghost v: Version)
      requires Valid() && At(host, host.AsCopy())
      requires host.version.status.claim == None && !host.version.maintenance
      requires host.version == v.(status := v.status.(state := Leaving))
      modifies this`node, this`kubelet, api, host
      ensures Valid() && Leads(old(World(Fenced(host.AsCopy(), node))), env, World(Idle))
      ensures Undisturbed(old(api.tape)) ==> Undisturbed(api.tape)
      ensures Undisturbed(old(api.tape)) && old(host.rv) == |old(api.history)| - 1 ==>
                DrivenOut(env, v, old(node), old(kubelet), Current(api.history), node, kubelet)
    {
      ghost var w, hadNode, hadKubelet := host.version, node, kubelet;
      LeaveAndReopen(host, env);
      if LeftAs(env, w, hadNode, hadKubelet, Current(api.history), node, kubelet) {
        LeftIsDrivenOut(env, v, w, hadNode, hadKubelet, Current(api.history), node, kubelet);
      }
    }

    /** Leave, then the Node, then the closing write. */
    method LeaveAndReopen(host: HostObject, env: Env)
      requires Valid() && At(host, host.AsCopy())
      requires host.version.status.claim == None && !host.version.maintenance && host.version.status.state == Leaving
      modifies this`node, this`kubelet, api, host
      ensures Valid() && Leads(old(World(Fenced(host.AsCopy(), node))), env, World(Idle))
      ensures Undisturbed(old(api.tape)) ==> Undisturbed(api.tape)
      ensures Undisturbed(old(api.tape)) && old(host.rv) == |old(api.history)| - 1 ==>
                LeftAs(env, old(host.version), old(node), old(kubelet), Current(api.history), node, kubelet)
    {
      ghost var t := World(Fenced(host.AsCopy(), node));
      if !env.leaveSent || host.version.status.installed == "" || !env.leaveOk {
        LeaveFails(t, env);
        ghost var t1 := World(Patching(host.AsCopy(), ParkedBy(host.version.status, env.message), true));
        Park(host, env, true);
        LeadsOn(t, env, t1, World(Idle));
      } else {
        LeaveSucceeds(t, env);
        kubelet := false;
        ghost var t1 := World(AfterLeave(host.AsCopy(), node));
        DropNodeAndReopen(host, env);
        LeadsOn(t, env, t1, World(Idle));
      }
    }

    /** After a leave that succeeded: the Node, if there is one, then the closing write. */
    method DropNodeAndReopen(host: HostObject, env: Env)
      requires Valid() && At(host, host.AsCopy())
      requires host.version.status.claim == None && !host.version.maintenance && host.version.status.state == Leaving
      modifies this`node, api, host
      ensures Valid() && Leads(old(World(AfterLeave(host.AsCopy(), node))), env, World(Idle))
      ensures Undisturbed(old(api.tape)) ==> Undisturbed(api.tape)
      ensures node == (old(node) && !env.nodeDeleted)
      ensures Undisturbed(old(api.tape)) && old(host.rv) == |old(api.history)| - 1 ==>
                Current(api.history) == old(host.version).(status :=
                  if node then old(host.version.status)
                  else old(host.version.status).(state := Available, probeError := "", facts := env.facts))
    {
      ghost var t := World(AfterLeave(host.AsCopy(), node));
      LeadsNowhere(t, env);
      if node {
        NodeGoes(t, env);
        if !env.nodeDeleted {
          return;
        }
        node := false;
      }
      ghost var t1 := World(AfterLeave(host.AsCopy(), false));
      Reopen(host, env);
      LeadsOn(t, env, t1, World(Idle));
    }

    /** The stale-claim and token-hygiene half of a reconcile. */
    method TendClaimed(orig: Copy, host: HostObject, env: Env)
      requires Valid() && At(host, orig) && host.version == orig.version && orig.version.status.claim.Some?
      modifies this`tokens, api, host
      ensures Valid() && Leads(old(World(Checking(orig))), env, World(Idle))
      ensures Undisturbed(old(api.tape)) ==> Undisturbed(api.tape)
      ensures Undisturbed(old(api.tape)) && orig.rv == |old(api.history)| - 1 ==>
                Tidied(env, orig.version, orig.version.status.claim.value, node, old(tokens), Current(api.history), tokens)
      ensures Undisturbed(old(api.tape)) && orig.rv < |old(api.history)| - 1 ==> api.history == old(api.history)
    {
      var s := host.version.status;
      ghost var t := World(Checking(orig));
      TendMoves(t, env);
      var verdict := VerdictOn(s, env.claim);
      if verdict == Unknown {
        return;
      }
      if verdict == Alive {
        TendToken(orig, host, env);
        return;
      }
      if s.token != "" && env.tokenDeleted {
        tokens := tokens - {s.token};
      }
      host.version := host.version.(status := StaleDropped(s));
      ghost var t1 := World(Patching(orig, host.version.status, false));
      PatchStatus(orig, host, env, false);
      LeadsOn(t, env, t1, World(Idle));
    }

    /** Token hygiene on a host whose claim is alive. */
    method TendToken(orig: Copy, host: HostObject, env: Env)
      requires Valid() && At(host, orig) && host.version == orig.version && orig.version.status.claim.Some?
      requires VerdictOn(orig.version.status, env.claim) == Alive
      modifies this`tokens, api, host
      ensures Valid() && Leads(old(World(Checking(orig))), env, World(Idle))
      ensures Undisturbed(old(api.tape)) ==> Undisturbed(api.tape)
      ensures Undisturbed(old(api.tape)) && orig.rv == |old(api.history)| - 1 ==>
                Tidied(env, orig.version, orig.version.status.claim.value, node, old(tokens), Current(api.history), tokens)
      ensures Undisturbed(old(api.tape)) && orig.rv < |old(api.history)| - 1 ==> api.history == old(api.history)
    {
      var s := host.version.status;
      ghost var t := World(Checking(orig));
      TendMoves(t, env);
      if s.token != "" && s.providerID != "" {
        if env.lookupFails {
          return;
        }
        if node {
          if !env.tokenDeleted {
            return;
          }
          tokens := tokens - {s.token};
          host.version := host.version.(status := s.(token := ""));
        }
      }
      ghost var t1 := World(Patching(orig, host.version.status, false));
      PatchStatus(orig, host, env, false);
      LeadsOn(t, env, t1, World(Idle));
    }

    /** The probing half of a reconcile, once the staleness guard let it through. */
    method ProbeHost(orig: Copy, host: HostObject, env: Env)
      requires Valid() && At(host, orig) && env.now <= env.probedAt && !Recent(orig.version, env.now)
      requires orig.version.status.claim == None && host.version == orig.version.(status := Switched(orig.version))
      requires host.version.status.state != Maintenance
      modifies this`node, this`kubelet, api, host
      ensures Valid() && Leads(old(World(Probing(orig, env.now))), env, World(Idle))
      ensures Undisturbed(old(api.tape)) ==> Undisturbed(api.tape)
      ensures Undisturbed(old(api.tape)) && orig.rv == |old(api.history)| - 1 ==>
                Inspected(env, orig.version, old(node), old(kubelet), Current(api.history), node, kubelet)
      ensures Undisturbed(old(api.tape)) && orig.rv < |old(api.history)| - 1 ==>
                api.history == old(api.history) && node == old(node) && kubelet == old(kubelet)
    {
      AllSound(api.history, orig.rv);
      ProbedKeepsUpkeep(orig.version, env.now, env.probedAt);
      ghost var t := World(Probing(orig, env.now));
      ProbeMove(t, env);
      host.version := host.version.(status := Probed(orig.version, env.probedAt));
      if env.reachable && kubelet {
        host.version := host.version.(status := host.version.status.(facts := env.facts));
        ghost var t1 := World(SavingFacts(orig, host.version.status));
        SaveAndGuard(orig, host, env);
        LeadsOn(t, env, t1, World(Idle));
        return;
      }
      if !env.reachable {
        host.version := host.version.(status := ParkedBy(host.version.status, env.message));
      } else {
        host.version := host.version.(status :=
          host.version.status.(facts := env.facts, probeError := "", state := Available));
      }
      ghost var t1 := World(Patching(orig, host.version.status, false));
      PatchStatus(orig, host, env, false);
      LeadsOn(t, env, t1, World(Idle));
    }

    /** A kubelet was seen: the probe is recorded, and the guard goes on from the response. */
    method SaveAndGuard(orig: Copy, host: HostObject, env: Env)
      requires Valid() && At(host, orig) && Upkeep(orig.version, host.version.status)
      requires orig.version.status.claim == None && host.version.status.claim == None && !orig.version.maintenance
      modifies this`node, this`kubelet, api, host
      ensures Valid() && Leads(old(World(SavingFacts(orig, host.version.status))), env, World(Idle))
      ensures Undisturbed(old(api.tape)) ==> Undisturbed(api.tape)
      ensures Undisturbed(old(api.tape)) && orig.rv == |old(api.history)| - 1 ==>
                Guarded(env, orig.version.(status := old(host.version.status)), old(node), old(kubelet),
                        Current(api.history), node, kubelet)
      ensures Undisturbed(old(api.tape)) && orig.rv < |old(api.history)| - 1 ==>
                api.history == old(api.history) && node == old(node) && kubelet == old(kubelet)
    {
      ghost var t := World(SavingFacts(orig, host.version.status));
      var ok := PatchAndStay(orig, host);
      FactsMove(t, env, World(t.probe),
                if ok then Accepted else if TurnOf(t.tape).fate == Delivered then Conflicted else Errored);
      if ok {
        ghost var t1 := World(Guarding(host.AsCopy()));
        HandleZombie(host, env);
        LeadsOn(t, env, t1, World(Idle));
      }
    }

    /** Reconcile. */
    method Reconcile(env: Env)
      requires Valid() && env.now <= env.probedAt
      modifies this`node, this`kubelet, this`tokens, api
      // whatever the environment does, the world ends up where the machine's probe leads it
      ensures Valid() && Leads(AfterGet(old(World(Idle)), env), env, World(Idle))
      ensures Undisturbed(old(api.tape)) ==> Undisturbed(api.tape)
      // undisturbed and from a current read, this is what becomes of the host
      ensures Undisturbed(old(api.tape)) && TurnOf(old(api.tape)).view == 0 ==>
                Reconciled(env, old(Current(api.history)), old(node), old(kubelet), old(tokens),
                           Current(api.history), node, kubelet, tokens)
      // a read of anything older leads to nothing: neither the record nor the host is touched
      ensures Undisturbed(old(api.tape)) && View(old(api.history), TurnOf(old(api.tape)).view).rv < |old(api.history)| - 1 ==>
                api.history == old(api.history) && node == old(node) && kubelet == old(kubelet)
    {
      TurnUndisturbed(api.tape);
      var read, base := api.Get();
      if read {
        Dispatch(base, env);
      } else {
        LeadsNowhere(World(Idle), env);
      }
    }

    /** What a reconcile does with the version it read. */
    method Dispatch(base: Copy, env: Env)
      requires Valid() && env.now <= env.probedAt
      requires base.rv < |api.history| && base.version == api.history[base.rv].version
      modifies this`node, this`kubelet, this`tokens, api
      ensures Valid() && Leads(old(World(AfterRead(base, env.now))), env, World(Idle))
      ensures Undisturbed(old(api.tape)) ==> Undisturbed(api.tape)
      ensures Undisturbed(old(api.tape)) && base.rv == |old(api.history)| - 1 ==>
                Reconciled(env, base.version, old(node), old(kubelet), old(tokens), Current(api.history), node, kubelet, tokens)
      ensures Undisturbed(old(api.tape)) && base.rv < |old(api.history)| - 1 ==>
                api.history == old(api.history) && node == old(node) && kubelet == old(kubelet)
    {
      AllSound(api.history, base.rv);
      var host := new HostObject(base);
      host.version := host.version.(status := Switched(host.version));
      if host.version.status.state == Maintenance {
        PatchStatus(base, host, env, false);
      } else if InClaimedState(host.version.status) {
        TendClaimed(base, host, env);
      } else {
        ProbeIfDue(base, host, env);
      }
    }

    /** The staleness guard. */
    method ProbeIfDue(orig: Copy, host: HostObject, env: Env)
      requires Valid() && At(host, orig) && env.now <= env.probedAt
      requires orig.version.status.claim == None && host.version == orig.version.(status := Switched(orig.version))
      requires host.version.status.state != Maintenance
      modifies this`node, this`kubelet, api, host
      ensures Valid() && Leads(old(World(if Recent(orig.version, env.now) then Idle else Probing(orig, env.now))), env, World(Idle))
      ensures Undisturbed(old(api.tape)) ==> Undisturbed(api.tape)
      ensures Undisturbed(old(api.tape)) && orig.rv == |old(api.history)| - 1 ==>
                if Due(orig.version, env.now) then
                  Inspected(env, orig.version, old(node), old(kubelet), Current(api.history), node, kubelet)
                else Current(api.history) == orig.version && node == old(node) && kubelet == old(kubelet)
      ensures Undisturbed(old(api.tape)) && orig.rv < |old(api.history)| - 1 ==>
                api.history == old(api.history) && node == old(node) && kubelet == old(kubelet)
    {
      if Recent(orig.version, env.now) {
        LeadsNowhere(World(Idle), env);
      } else {
        ProbeHost(orig, host, env);
      }
    }
  }

  // ----- convergence ----------------------------------------------------------------------------------

  /** One reconcile and the turns its environment takes. */
  datatype Round = Round(env: Env, turns: seq<Turn>)

  /** Nobody else writes, and the clock runs forward. */
  predicate Calm(r: Round) {
    Undisturbed(r.turns) && r.env.now <= r.env.probedAt
  }

  /** The reconcile's own read lags behind what is stored. */
  predicate Lagging(r: Round) {
    TurnOf(r.turns).view > 0
  }

  /** One reconcile under its own environment. */
  method RunRound(p: HostProbe, r: Round)
    requires p.Valid() && Calm(r)
    modifies p, p.api
    ensures p.Valid() && old(p.api.history) <= p.api.history
    ensures !Lagging(r) ==>
              Reconciled(r.env, old(Current(p.api.history)), old(p.node), old(p.kubelet), old(p.tokens),
                         Current(p.api.history), p.node, p.kubelet, p.tokens)
    ensures Lagging(r) && |old(p.api.history)| > 1 ==>
              p.api.history == old(p.api.history) && p.node == old(p.node) && p.kubelet == old(p.kubelet)
  {
    p.api.tape := r.turns;
    ghost var t := p.World(Idle);
    p.Reconcile(r.env);
    ReconcileGrows(t, r.env, p.World(Idle));
  }

  /** Any number of reconciles that read the past leave the record and the host alone. */
  method RunLagging(p: HostProbe, rounds: seq<Round>)
    requires p.Valid() && (forall r <- rounds :: Calm(r) && Lagging(r)) && (rounds != [] ==> |p.api.history| > 1)
    modifies p, p.api
    ensures p.Valid() && p.api.history == old(p.api.history)
    ensures p.node == old(p.node) && p.kubelet == old(p.kubelet)
  {
    for i := 0 to |rounds|
      invariant p.Valid() && p.api.history == old(p.api.history)
      invariant p.node == old(p.node) && p.kubelet == old(p.kubelet)
    {
      RunRound(p, rounds[i]);
    }
  }

  /** Zombie recovery: the NodeClaim of an InUse host vanished, nobody else writes,
      the last probe is an interval old, no maintenance is asked for and leave
      succeeds.  Two reconciles that read what is stored free the host, and its Node and
      kubelet are gone, however often the cache lags behind the reconciler's own writes
      before, between and after them, and whatever it shows while the guard works. */
  method RecoverZombie(p: HostProbe, before: seq<Round>, first: Round, between: seq<Round>, second: Round, after: seq<Round>)
    requires p.Valid()
    requires forall r <- before + between + after :: Calm(r) && Lagging(r)
    requires Calm(first) && !Lagging(first) && Calm(second) && !Lagging(second)
    requires before != [] ==> |p.api.history| > 1
    requires var v := Current(p.api.history);
             && v.status.state == InUse && !v.maintenance && v.status.installed != ""
             && Due(v, second.env.now)
             && (v.status.claim.Some? ==> Stale(v.status.claim.value, first.env.claim))
    requires p.kubelet && second.env.reachable && !second.env.lookupFails
    requires second.env.leaveSent && second.env.leaveOk && second.env.nodeDeleted
    modifies p, p.api
    ensures p.Valid()
    ensures Current(p.api.history).status.state == Available && Current(p.api.history).status.claim == None
    ensures !p.node && !p.kubelet
  {
    AllSound(p.api.history, |p.api.history| - 1);
    RunLagging(p, before);
    RunRound(p, first);
    RunLagging(p, between);
    RunRound(p, second);
    RunLagging(p, after);
  }
}
