/**
 The SSHHost claim protocol as a state machine.

 The pool's records live in the API server; launches (`Create`), teardowns
 (`Delete`), repairs (`Reboot`) and one probe reconciler per host work on
 in-memory copies of them.  Every API request and every end of an SSH phase is
 one event, so that a run is any interleaving of the actors' requests.  An event
 carries what its environment decided: which (possibly old) version a read
 returned, whether a phase succeeded, whether a response was lost.

 `Step` is total: an event that does not fit the state it meets changes nothing.
 */
module Protocol {
  import opened Options
  import opened Records
  import opened Ledger

  type HostId = string
  type CallId = nat

  datatype Phase = Install | Join | Leave | Reboot
  datatype PhaseEvent = Began(phase: Phase) | Ended(phase: Phase, ok: bool)

  // ----- one write ------------------------------------------------------------------

  /** A write is answered, or its answer is lost before or after it took effect. */
  datatype Fate = Delivered | LostBefore | LostAfter
  datatype Reply = Accepted | Conflicted | Errored

  /** Storing a version equal to the stored one does not make a new version. */
  function Land(hist: History, v: Version, who: Writer): History {
    if v == Current(hist) then hist else hist + [Entry(v, who)]
  }

  function Newest(hist: History): Copy {
    Copy(|hist| - 1, Current(hist))
  }

  /** A compare-and-swap on the resourceVersion of `base`, storing `edit` of the
      stored status. */
  function Swap(hist: History, rv: nat, stored: Status, who: Writer, fate: Fate): (r: (History, Reply)) {
    if fate == LostBefore then (hist, Errored)
    else if rv != |hist| - 1 then (hist, if fate == Delivered then Conflicted else Errored)
    else (Land(hist, Current(hist).(status := stored), who),
          if fate == Delivered then Accepted else Errored)
  }

  /** A status patch computed from `base` and its edited status. */
  function Patched(hist: History, base: Copy, edited: Status, who: Writer, fate: Fate): (History, Reply) {
    Swap(hist, base.rv, Merged(base.version.status, edited, Current(hist).status), who, fate)
  }

  // ----- launches, teardowns, repairs --------------------------------------------------

  datatype Kind = Launch | Teardown | Repair

  /** What a field setter writes; `NoToken` clears the recorded token id. */
  datatype Field = Marker | TokenId | Provider | UseState | NoToken

  /** Attempts of a field setter: the steps of client-go's default backoff. */
  const ATTEMPTS: nat := 4

  datatype Pc =
    | Preparing                                          // join: reading configuration
    | ToRun(phase: Phase)                                // about to send a phase script
    | Running(phase: Phase)                              // the script is running on the host
    | Setting(field: Field, left: nat, healthy: bool)    // setStatus, with attempts left
    | Minting                                            // about to create a token
    | Minted                                             // holding an unrecorded token
    | Dropping(healthy: bool)                            // deleteToken: about to revoke
    | Adopting                                           // joined; resolving the providerID
    | Revoking(healthy: bool)                            // release: revoking the recorded token
    | Releasing(healthy: bool)                           // release: about to write

  datatype Call =
    | Seeking(nc: ClaimRef)                              // Create, without a host yet
    | Holding(nc: ClaimRef, kind: Kind, pc: Pc, host: HostId, copy: Copy,
              marker: string, token: string, providerID: string, joinSent: bool)

  datatype CallChoice =
    | Pick(host: HostId, i: nat, hostClass: string, fate: Fate)
    | GiveUp
    | ConfigFails
    | Configured(marker: string)
    | Refused(config: bool)                              // the script was never sent
    | Send
    | Finish(ok: bool)
    | Attempt(fate: Fate, reread: Option<nat>)
    | MintFails
    | Mint(token: string)
    | EnvFails
    | EnvReady
    | Revoke(ok: bool)
    | AdoptFails
    | Adopt(providerID: string)
    | Release(fate: Fate, reason: string)

  /** Whom a token was minted for: the NodeClaim of the launch, and its host. */
  datatype Owner = Owner(nc: ClaimRef, host: HostId)

  datatype Effect =
    | Quiet
    | Phased(event: PhaseEvent, token: string)
    | Created(token: string, owner: Owner)
    | Deleted(token: string, ok: bool)

  datatype Outcome = Outcome(next: Option<Call>, history: History, effect: Effect)

  function Mutated(c: Call, field: Field, s: Status): Status
    requires c.Holding?
  {
    match field
    case Marker => s.(installed := c.marker)
    case TokenId => s.(token := c.token)
    case Provider => s.(providerID := c.providerID)
    case UseState => s.(state := InUse)
    case NoToken => s.(token := "")
  }

  /** Where a call goes when a field setter has succeeded, or failed for good. */
  function AfterSetting(c: Call, field: Field, healthy: bool, ok: bool): Option<Call>
    requires c.Holding?
  {
    match field
    case Marker => Some(c.(pc := if ok then Minting else Revoking(false)))
    case TokenId => Some(c.(pc := if ok then ToRun(Join) else Dropping(false)))
    case Provider => if ok then Some(c.(pc := Setting(UseState, ATTEMPTS, false))) else None
    case UseState => None
    case NoToken => Some(c.(pc := Revoking(healthy)))
  }

  /** setStatus after one attempt was answered; `reread` is the fresh read that
      follows a conflict.  A failed attempt leaves its edit in the copy. */
  function AfterAttempt(c: Call, after: History, reply: Reply, reread: Option<nat>): Option<Call>
    requires c.Holding? && c.pc.Setting?
  {
    var Setting(field, left, healthy) := c.pc;
    var edited := c.copy.version.(status := Mutated(c, field, c.copy.version.status));
    var dirty := c.(copy := c.copy.(version := edited));
    if reply == Accepted then AfterSetting(c.(copy := Newest(after)), field, healthy, true)
    else if reply == Errored || reread.None? || reread.value >= |after| then
      AfterSetting(dirty, field, healthy, false)
    else
      var seen := Copy(reread.value, after[reread.value].version);
      if seen.version.status.claim != c.copy.version.status.claim then
        AfterSetting(dirty, field, healthy, false)
      else if left <= 1 then AfterSetting(c.(copy := seen), field, healthy, false)
      else Some(c.(copy := seen, pc := Setting(field, left - 1, healthy)))
  }

  /** One attempt of setStatus. */
  function SettingStep(hist: History, c: Call, fate: Fate, reread: Option<nat>): Outcome
    requires c.Holding? && c.pc.Setting?
  {
    var edited := Mutated(c, c.pc.field, c.copy.version.status);
    var (after, reply) := Patched(hist, c.copy, edited, Setter(c.nc), fate);
    Outcome(AfterAttempt(c, after, reply, reread), after, Quiet)
  }

  datatype Move = Move(next: Option<Call>, effect: Effect)

  /** A phase script about to be sent. */
  function SendMove(c: Call, ch: CallChoice): Move
    requires c.Holding? && c.pc.ToRun?
  {
    var p := c.pc.phase;
    if ch.Send? then
      Move(Some(c.(pc := Running(p), joinSent := c.joinSent || p == Join)), Phased(Began(p), c.token))
    else if ch.Refused? then
      Move(match p
           case Install => Some(c.(pc := Revoking(ch.config)))
           case Join => Some(c.(pc := Dropping(ch.config)))
           case Leave => Some(c.(pc := Revoking(false)))
           case Reboot => None,
           Quiet)
    else Move(Some(c), Quiet)
  }

  /** A phase script that ran to its end, or was cut off. */
  function FinishMove(c: Call, ok: bool): Move
    requires c.Holding? && c.pc.Running?
  {
    var p := c.pc.phase;
    Move(match p
         case Install => Some(c.(pc := if ok then Setting(Marker, ATTEMPTS, false) else Revoking(false)))
         case Join => Some(c.(pc := if ok then Adopting else Dropping(false)))
         case Leave => Some(c.(pc := Revoking(ok)))
         case Reboot => None,
         Phased(Ended(p, ok), c.token))
  }

  /** The steps of a call that do not write the record. */
  function LocalMove(c: Call, ch: CallChoice): Move
    requires c.Holding?
  {
    var stutter := Move(Some(c), Quiet);
    var s := c.copy.version.status;
    match c.pc
    case Preparing =>
      if ch.ConfigFails? then Move(Some(c.(pc := Revoking(true))), Quiet)
      else if ch.Configured? && ch.marker != "" then
        Move(Some(c.(marker := ch.marker,
                     pc := if s.installed != ch.marker then ToRun(Install) else Minting)),
             Quiet)
      else stutter
    case ToRun(_) => SendMove(c, ch)
    case Running(_) => if ch.Finish? then FinishMove(c, ch.ok) else stutter
    case Minting =>
      if ch.MintFails? then Move(Some(c.(pc := Revoking(false))), Quiet)
      else if ch.Mint? && ch.token != "" then
        Move(Some(c.(token := ch.token, pc := Minted)), Created(ch.token, Owner(c.nc, c.host)))
      else stutter
    case Minted =>
      if ch.EnvFails? then Move(Some(c.(pc := Dropping(false))), Quiet)
      else if ch.EnvReady? then Move(Some(c.(pc := Setting(TokenId, ATTEMPTS, false))), Quiet)
      else stutter
    case Dropping(healthy) =>
      if ch.Revoke? then
        Move(Some(c.(pc := if s.token == "" then Revoking(healthy)
                           else Setting(NoToken, ATTEMPTS, healthy))),
             Deleted(c.token, ch.ok))
      else stutter
    case Adopting =>
      if ch.AdoptFails? then Move(Some(c.(pc := Revoking(false))), Quiet)
      else if ch.Adopt? && ch.providerID != "" then
        Move(Some(c.(providerID := ch.providerID, pc := Setting(Provider, ATTEMPTS, false))), Quiet)
      else stutter
    case Revoking(healthy) =>
      if ch.Revoke? then
        Move(Some(c.(pc := Releasing(healthy))),
             if s.token == "" then Quiet else Deleted(s.token, ch.ok))
      else stutter
    case Setting(_, _, _) => stutter
    case Releasing(_) => stutter
  }

  function HoldingStep(hist: History, c: Call, ch: CallChoice): Outcome
    requires c.Holding?
  {
    if c.pc.Setting? && ch.Attempt? then SettingStep(hist, c, ch.fate, ch.reread)
    else if c.pc.Releasing? && ch.Release? then ReleaseStep(hist, c, ch.fate, ch.reason)
    else
      var move := LocalMove(c, ch);
      Outcome(move.next, hist, move.effect)
  }

  /** Release: one write, never retried; a lost race leaves the host to its new owner. */
  function ReleaseStep(hist: History, c: Call, fate: Fate, reason: string): Outcome
    requires c.Holding? && c.pc.Releasing?
  {
    var edited := Released(c.copy.version.status, c.pc.healthy, reason);
    Outcome(None, Patched(hist, c.copy, edited, Releaser(c.nc), fate).0, Quiet)
  }

  /** Create, trying to claim the version of a host that a listing returned. */
  function SeekingStep(hist: History, c: Call, ch: CallChoice): Outcome
    requires c.Seeking? && ch.Pick?
  {
    if ch.i < |hist| && Claimable(hist[ch.i].version, ch.hostClass) then
      var seen := Copy(ch.i, hist[ch.i].version);
      var (after, reply) :=
        Swap(hist, seen.rv, ClaimedBy(seen.version.status, c.nc),
             Claimer(c.nc, ch.hostClass), ch.fate);
      match reply
      case Accepted => Outcome(Some(Fresh(c.nc, Launch, Preparing, ch.host, Newest(after))), after, Quiet)
      case Conflicted => Outcome(Some(c), after, Quiet)
      case Errored => Outcome(None, after, Quiet)
    else Outcome(Some(c), hist, Quiet)
  }

  function Fresh(nc: ClaimRef, kind: Kind, pc: Pc, host: HostId, copy: Copy): Call {
    Holding(nc, kind, pc, host, copy, "", "", "", false)
  }

  /** A call that starts from a read of a host.  None when the read already ends it. */
  function Opened(nc: ClaimRef, kind: Kind, host: HostId, copy: Copy): Option<Call> {
    var s := copy.version.status;
    if !HeldBy(s, nc) then None
    else
      match kind
      case Launch => Some(Fresh(nc, Launch, Preparing, host, copy))
      case Teardown =>
        Some(Fresh(nc, Teardown, if s.installed != "" then ToRun(Leave) else Revoking(false), host, copy))
      case Repair =>
        if s.installed != "" then Some(Fresh(nc, Repair, ToRun(Reboot), host, copy)) else None
  }

  // ----- the probe reconciler -----------------------------------------------------------

  datatype Probe =
    | Idle
    | Checking(base: Copy)                               // looking the NodeClaim up
    | Reaping(base: Copy)                                // stale claim: revoking its token
    | Collecting(base: Copy)                             // looking for the registered Node
    | Probing(base: Copy, asOf: int)                     // the probe script is running
    | SavingFacts(base: Copy, next: Status)              // kubelet seen: recording the probe
    | Guarding(base: Copy)                               // zombie guard entered
    | Fencing(base: Copy, node: bool)                    // about to write Leaving
    | Fenced(base: Copy, node: bool)                     // Leaving is written
    | Expelling(base: Copy, node: bool)                  // leave is running on the host
    | DroppingNode(base: Copy)                           // about to delete the Node
    | Patching(base: Copy, next: Status, closing: bool)  // patchStatus

  datatype Verdict = Alive | Gone | Unknown

  datatype ProbeChoice =
    | Looked(verdict: Verdict)
    | Reap(ok: bool)
    | Collect(node: Option<bool>, deleted: bool)
    | ProbeFails(error: string)
    | ProbeAnswers(facts: int, kubelet: bool)
    | Write(fate: Fate, facts: int)
    | NodeLookup(node: Option<bool>, message: string)
    | Unsent(message: string)
    | Expel
    | Expelled(ok: bool, message: string)
    | NodeGone(ok: bool)

  datatype ProbeOutcome = ProbeOutcome(next: Probe, history: History, effect: Effect)

  /** The maintenance annotation, mirrored onto the state before anything else. */
  function Switched(v: Version): Status {
    if v.maintenance && v.status.claim == None && v.status.state != Maintenance then
      v.status.(state := Maintenance)
    else if !v.maintenance && v.status.state == Maintenance then
      v.status.(state := Pending)
    else v.status
  }

  /** The staleness guard: this generation was probed less than an interval ago. */
  predicate Recent(v: Version, now: int) {
    && v.status.observedGeneration == v.generation
    && v.status.probedAt.Some?
    && now - v.status.probedAt.value < PROBE_INTERVAL
  }

  /** Times are stored in whole seconds. */
  function Truncated(now: int): int {
    now / SECOND * SECOND
  }

  function Probed(v: Version, now: int): Status {
    Switched(v).(probedAt := Some(Truncated(now)), observedGeneration := v.generation)
  }

  function StaleDropped(s: Status): Status {
    s.(claim := None, providerID := "", token := "", state := Pending)
  }

  /** Token hygiene waits for the providerID: without one the launch is in flight. */
  function AfterCheck(base: Copy): Probe {
    var s := base.version.status;
    if s.token != "" && s.providerID != "" then Collecting(base) else Patching(base, s, false)
  }

  function AfterRead(base: Copy, now: int): Probe {
    var v := base.version;
    var local := Switched(v);
    if local.state == Maintenance then Patching(base, local, false)
    else if InClaimedState(local) then
      if v.status.claim.Some? then Checking(base) else AfterCheck(base)
    else if Recent(v, now) then Idle
    else Probing(base, now)
  }

  function ParkedBy(s: Status, message: string): Status {
    s.(state := Unhealthy, probeError := message)
  }

  function ProbeStep(hist: History, p: Probe, ch: ProbeChoice, now: int): ProbeOutcome {
    var stutter := ProbeOutcome(p, hist, Quiet);
    match p
    case Idle => stutter
    case Checking(base) =>
      if !ch.Looked? then stutter
      else ProbeOutcome(match ch.verdict
                        case Alive => AfterCheck(base)
                        case Gone => Reaping(base)
                        case Unknown => Idle,
                        hist, Quiet)
    case Reaping(base) =>
      if !ch.Reap? then stutter
      else
        var s := base.version.status;
        ProbeOutcome(Patching(base, StaleDropped(s), false), hist,
                     if s.token == "" then Quiet else Deleted(s.token, ch.ok))
    case Collecting(base) =>
      if !ch.Collect? then stutter
      else
        var s := base.version.status;
        if ch.node.None? then ProbeOutcome(Idle, hist, Quiet)
        else if !ch.node.value then ProbeOutcome(Patching(base, s, false), hist, Quiet)
        else ProbeOutcome(if ch.deleted then Patching(base, s.(token := ""), false) else Idle,
                          hist, Deleted(s.token, ch.deleted))
    case Probing(base, _) =>
      var s := Probed(base.version, now);
      if ch.ProbeFails? then
        ProbeOutcome(Patching(base, ParkedBy(s, ch.error), false), hist, Quiet)
      else if ch.ProbeAnswers? then
        ProbeOutcome(if ch.kubelet then SavingFacts(base, s.(facts := ch.facts))
                     else Patching(base, s.(facts := ch.facts, probeError := "", state := Available), false),
                     hist, Quiet)
      else stutter
    case SavingFacts(base, next) =>
      if !ch.Write? then stutter
      else
        var (after, reply) := Patched(hist, base, next, Prober, ch.fate);
        ProbeOutcome(if reply == Accepted then Guarding(Newest(after)) else Idle, after, Quiet)
    case Guarding(base) =>
      if !ch.NodeLookup? then stutter
      else
        var s := base.version.status;
        ProbeOutcome(if s.claim.Some? || ch.node.None? then Idle
                     else if !ch.node.value && s.installed == "" then
                       Patching(base, ParkedBy(s, ch.message), false)
                     else Fencing(base, ch.node.value),
                     hist, Quiet)
    case Fencing(base, node) =>
      if !ch.Write? then stutter
      else
        var (after, reply) :=
          Patched(hist, base, base.version.status.(state := Leaving), Prober, ch.fate);
        ProbeOutcome(if reply == Accepted then Fenced(Newest(after), node) else Idle, after, Quiet)
    case Fenced(base, node) =>
      if ch.Unsent? then
        ProbeOutcome(Patching(base, ParkedBy(base.version.status, ch.message), true), hist, Quiet)
      else if ch.Expel? && base.version.status.installed != "" then
        ProbeOutcome(Expelling(base, node), hist, Phased(Began(Leave), ""))
      else stutter
    case Expelling(base, node) =>
      if !ch.Expelled? then stutter
      else
        ProbeOutcome(if !ch.ok then Patching(base, ParkedBy(base.version.status, ch.message), true)
                     else if node then DroppingNode(base)
                     else Patching(base, Freed(base.version.status), true),
                     hist, Phased(Ended(Leave, ch.ok), ""))
    case DroppingNode(base) =>
      if !ch.NodeGone? then stutter
      else ProbeOutcome(if ch.ok then Patching(base, Freed(base.version.status), true) else Idle,
                        hist, Quiet)
    case Patching(base, next, _) =>
      if !ch.Write? then stutter
      else
        var edited := next.(facts := ch.facts);
        if edited == base.version.status then ProbeOutcome(Idle, hist, Quiet)
        else ProbeOutcome(Idle, Patched(hist, base, edited, Prober, ch.fate).0, Quiet)
  }

  function Freed(s: Status): Status {
    s.(probeError := "", state := Available)
  }

  /** What an operator's edit stores; the API server never lowers a generation. */
  function Edited(v: Version, maintenance: bool, hostClass: string, generation: int): Version {
    Version(v.status, maintenance, hostClass, if generation < v.generation then v.generation else generation)
  }

  // ----- the whole system ------------------------------------------------------------------

  /** `phases` is the trace of mutating phases executed on the host. */
  datatype Host = Host(history: History, probe: Probe, phases: seq<PhaseEvent>)

  /** `claims` are the NodeClaims that exist, `born` those that ever did; `live`
      are the bootstrap tokens that exist, `minted` those that ever did with their owners,
      `undeleted` those whose deletion failed and `joined` those whose join phase
      succeeded. */
  datatype Sys = Sys(
    hosts: map<HostId, Host>,
    calls: map<CallId, Call>,
    claims: set<ClaimRef>, born: set<ClaimRef>,
    live: set<string>, minted: map<string, Owner>, undeleted: set<string>, joined: set<string>,
    clock: int)

  datatype Event =
    | Tick(now: int)
    | ClaimBorn(nc: ClaimRef)
    | ClaimGone(nc: ClaimRef)
    | Edit(host: HostId, maintenance: bool, hostClass: string, generation: int)
    | SeekHost(id: CallId, nc: ClaimRef)                             // Create: ByClaim found nothing
    | Open(id: CallId, nc: ClaimRef, kind: Kind, host: HostId, i: nat)  // a call that read version i
    | Proceed(id: CallId, choice: CallChoice)
    | Reconcile(host: HostId, i: nat)
    | Observe(host: HostId, observation: ProbeChoice)

  function WithEffect(s: Sys, e: Effect): Sys {
    match e
    case Quiet => s
    case Phased(Ended(Join, true), token) => s.(joined := s.joined + {token})
    case Phased(_, _) => s
    case Created(t, owner) => s.(live := s.live + {t}, minted := s.minted[t := owner])
    case Deleted(t, ok) =>
      if ok then s.(live := s.live - {t}) else s.(undeleted := s.undeleted + {t})
  }

  function Traced(phases: seq<PhaseEvent>, e: Effect): seq<PhaseEvent> {
    if e.Phased? then phases + [e.event] else phases
  }

  function WithCall(s: Sys, id: CallId, next: Option<Call>): Sys {
    s.(calls := if next.Some? then s.calls[id := next.value] else s.calls - {id})
  }

  function CallTarget(c: Call, ch: CallChoice): Option<HostId> {
    if c.Holding? then Some(c.host)
    else if ch.Pick? then Some(ch.host)
    else None
  }

  function CallOutcome(hist: History, c: Call, ch: CallChoice): Outcome
    requires c.Seeking? ==> ch.Pick?
  {
    if c.Holding? then HoldingStep(hist, c, ch) else SeekingStep(hist, c, ch)
  }

  /** Token ids are unique: minting one that ever existed does not happen. */
  predicate FreshMint(s: Sys, ch: CallChoice) {
    ch.Mint? ==> ch.token !in s.minted
  }

  function CallStep(s: Sys, id: CallId, ch: CallChoice): Sys {
    if id !in s.calls || !FreshMint(s, ch) then s
    else
      var c := s.calls[id];
      if c.Seeking? && ch.GiveUp? then WithCall(s, id, None)
      else
        var target := CallTarget(c, ch);
        if target.None? || target.value !in s.hosts then s
        else Settled(s, id, target.value, CallOutcome(s.hosts[target.value].history, c, ch))
  }

  function Settled(s: Sys, id: CallId, h: HostId, o: Outcome): Sys
    requires h in s.hosts
  {
    var host := s.hosts[h].(history := o.history, phases := Traced(s.hosts[h].phases, o.effect));
    WithEffect(WithCall(s, id, o.next).(hosts := s.hosts[h := host]), o.effect)
  }

  function Observed(s: Sys, h: HostId, o: ProbeOutcome): Sys
    requires h in s.hosts
  {
    var host := Host(o.history, o.next, Traced(s.hosts[h].phases, o.effect));
    WithEffect(s.(hosts := s.hosts[h := host]), o.effect)
  }

  predicate FreshClaim(s: Sys, nc: ClaimRef) {
    nc !in s.born && nc.uid != "" && forall o <- s.claims :: o.name != nc.name
  }

  function Step(s: Sys, e: Event): Sys {
    match e
    case Tick(now) => if s.clock <= now then s.(clock := now) else s
    case ClaimBorn(nc) =>
      if FreshClaim(s, nc) then s.(claims := s.claims + {nc}, born := s.born + {nc}) else s
    case ClaimGone(nc) => s.(claims := s.claims - {nc})
    case Edit(h, maintenance, hostClass, generation) =>
      if h !in s.hosts then s
      else
        var host := s.hosts[h];
        var v := Edited(Current(host.history), maintenance, hostClass, generation);
        s.(hosts := s.hosts[h := host.(history := Land(host.history, v, Operator))])
    case SeekHost(id, nc) =>
      if id in s.calls then s else WithCall(s, id, Some(Seeking(nc)))
    case Open(id, nc, kind, h, i) =>
      if id in s.calls || h !in s.hosts || i >= |s.hosts[h].history| then s
      else WithCall(s, id, Opened(nc, kind, h, Copy(i, s.hosts[h].history[i].version)))
    case Proceed(id, ch) => CallStep(s, id, ch)
    case Reconcile(h, i) =>
      if h !in s.hosts || !s.hosts[h].probe.Idle? || i >= |s.hosts[h].history| then s
      else
        var host := s.hosts[h];
        s.(hosts := s.hosts[h :=
             host.(probe := AfterRead(Copy(i, host.history[i].version), s.clock))])
    case Observe(h, ch) =>
      if h !in s.hosts then s
      else Observed(s, h, ProbeStep(s.hosts[h].history, s.hosts[h].probe, ch, s.clock))
  }

  /** A pool of newly registered hosts: nothing installed, nothing claimed, nobody working. */
  predicate NewHost(h: Host) {
    && |h.history| == 1 && h.history[0].who == Registered
    && h.probe == Idle && h.phases == []
    && var s := Current(h.history).status;
       && Sound(s) && Dated(Current(h.history)) && s.claim == None && s.installed == "" && s.token == ""
  }

  ghost predicate Initial(s: Sys) {
    && (forall h <- s.hosts :: NewHost(s.hosts[h]))
    && s.calls == map[] && s.claims == {} && s.born == {}
    && s.live == {} && s.minted == map[] && s.undeleted == {} && s.joined == {}
  }

  function Run(s: Sys, events: seq<Event>): Sys {
    if events == [] then s
    else Step(Run(s, events[..|events| - 1]), events[|events| - 1])
  }
}
