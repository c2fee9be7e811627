/**
 What went wrong with a join: the chain of errors, the mark that tells a
 configuration error from a host error, and what had reached the host by then.
 Calls into other packages are inputs: each either succeeds or fails with a text,
 and none of them can produce the mark, which is private to the instance package.
 */
module PhaseErrors {
  import opened Options
  import opened Bytes
  import opened Redact

  // ----- errors ------------------------------------------------------------------------------

  datatype Err = Plain(text: Bytes) | Config(err: Err) | Wrapped(prefix: Bytes, err: Err)

  function ErrText(e: Err): Bytes {
    match e
    case Plain(text) => text
    case Config(inner) => ErrText(inner)
    case Wrapped(prefix, inner) => prefix + ErrText(inner)
  }

  /** A mark anywhere in the chain. */
  predicate IsConfig(e: Err) {
    match e
    case Plain(_) => false
    case Config(_) => true
    case Wrapped(_, inner) => IsConfig(inner)
  }

  datatype ScriptPhase = Install | Join

  function PhasePrefix(phase: ScriptPhase): Bytes {
    match phase
    case Install => "install phase: "
    case Join => "join phase: "
  }

  /** Redaction flattens the chain to one text and puts the mark back; `vs` are the
      values to hide. */
  function RedactPhaseErr(vs: seq<Bytes>, phase: ScriptPhase, e: Err): Err {
    var red := Plain(PhasePrefix(phase) + Redacted(ErrText(e), vs));
    if IsConfig(e) then Config(red) else red
  }

  /** The text of a failed phase as it is published: `outer` is what the callers put in
      front of it. */
  function Published(outer: Bytes, vs: seq<Bytes>, phase: ScriptPhase, e: Err): Bytes {
    ErrText(Wrapped(outer, RedactPhaseErr(vs, phase, e)))
  }

  /** Everything in front of the redacted text. */
  function Front(outer: Bytes, phase: ScriptPhase): Bytes {
    outer + PhasePrefix(phase)
  }

  lemma PublishedText(outer: Bytes, vs: seq<Bytes>, phase: ScriptPhase, e: Err)
    ensures Published(outer, vs, phase, e) == Front(outer, phase) + Redacted(ErrText(e), vs)
  {
    var red := Redacted(ErrText(e), vs);
    assert ErrText(RedactPhaseErr(vs, phase, e)) == PhasePrefix(phase) + red;
    assert outer + (PhasePrefix(phase) + red) == Front(outer, phase) + red;
  }

  /** `v` can begin at the end of `front`: its first `k` bytes are the last ones there. */
  predicate Straddles(front: Bytes, v: Bytes, k: int) {
    0 < k <= |front| && k < |v| && front[|front| - k..] == v[..k]
  }

  /** Neither in `front`, nor begun by it. */
  ghost predicate ClearOf(front: Bytes, v: Bytes) {
    !Occurs(front, v) && forall k :: !Straddles(front, v, k)
  }

  /** Where an occurrence in `front + red` lies. */
  lemma WhereItLies(front: Bytes, red: Bytes, v: Bytes, i: int)
    requires At(front + red, v, i)
    ensures At(red, v, i - |front|) || At(front, v, i) || Straddles(front, v, |front| - i)
  {
    var s, n := front + red, |front|;
    if i >= n {
      assert s[i..i + |v|] == red[i - n..i - n + |v|];
    } else if i + |v| <= n {
      assert s[i..i + |v|] == front[i..i + |v|];
    } else {
      assert front[i..] == s[i..i + |v|][..n - i];
    }
  }

  lemma StaysInFront(front: Bytes, red: Bytes, v: Bytes)
    requires Occurs(front, v) || Occurs(red, v)
    ensures Occurs(front + red, v)
  {
    var s, n := front + red, |front|;
    if i :| At(front, v, i) {
      assert s[i..i + |v|] == front[i..i + |v|];
      assert At(s, v, i);
    } else {
      var i :| At(red, v, i);
      assert s[n + i..n + i + |v|] == red[i..i + |v|];
      assert At(s, v, n + i);
    }
  }

  /** The rest of the value, as a message, is completed by what stands in front of it. */
  lemma RestCompletes(front: Bytes, v: Bytes, k: int)
    requires Straddles(front, v, k) && |v| >= MIN_LENGTH
    ensures Redacted(v[k..], [v]) == v[k..] && Occurs(front + v[k..], v)
  {
    assert !Occurs(v[k..], v);
    AbsentUnchanged(v[k..], v);
    var vs: seq<Bytes> := [v];
    assert vs[1..] == [];
    assert Redacted(v[k..], vs) == Redacted(v[k..], []);
    var i := |front| - k;
    assert (front + v[k..])[i..i + |v|] == front[i..] + v[k..] == v[..k] + v[k..] == v;
    assert At(front + v[k..], v, i);
  }

  lemma OneSecret(v: Bytes) returns (c: Context)
    ensures Ordered(c, [v]) && IsValue(c, v)
  {
    c := Context([], map["a" := v]);
    assert c.secrets["a"] == v;
  }

  /** No published text of the phase shows `v`, whatever failed and whatever else is hidden. */
  ghost predicate NeverPublished(outer: Bytes, phase: ScriptPhase, v: Bytes) {
    forall c, vs, e :: Ordered(c, vs) && IsValue(c, v) ==> !Occurs(Published(outer, vs, phase, e), v)
  }

  /** A text that shows `v`, unless the condition holds. */
  lemma PublishedLeaks(outer: Bytes, phase: ScriptPhase, v: Bytes) returns (c: Context, vs: seq<Bytes>, e: Err)
    requires !(|v| >= MIN_LENGTH && Distinct(v) && ClearOf(Front(outer, phase), v))
    ensures Ordered(c, vs) && IsValue(c, v) && Occurs(Published(outer, vs, phase, e), v)
  {
    var front := Front(outer, phase);
    if |v| < MIN_LENGTH {
      c, vs := ShortStays(v);
      e := Plain(v);
      StaysInFront(front, Redacted(v, vs), v);
    } else if d :| Overlap(v, d) {
      var msg;
      c, msg, vs := OverlapLeaks(v, d);
      e := Plain(msg);
      StaysInFront(front, Redacted(msg, vs), v);
    } else if Occurs(front, v) {
      c := OneSecret(v);
      vs, e := [v], Plain([]);
      StaysInFront(front, Redacted([], vs), v);
    } else {
      var k :| Straddles(front, v, k);
      c := OneSecret(v);
      vs, e := [v], Plain(v[k..]);
      RestCompletes(front, v, k);
    }
    PublishedText(outer, vs, phase, e);
  }

  /** A value is hidden in every published text of a phase exactly when redaction hides it
      and the fixed text in front neither holds nor begins it. */
  lemma PublishedTextHides(outer: Bytes, phase: ScriptPhase, v: Bytes)
    ensures NeverPublished(outer, phase, v)
       <==> |v| >= MIN_LENGTH && Distinct(v) && ClearOf(Front(outer, phase), v)
  {
    if |v| >= MIN_LENGTH && Distinct(v) && ClearOf(Front(outer, phase), v) {
      forall c, vs, e | Ordered(c, vs) && IsValue(c, v) ensures !Occurs(Published(outer, vs, phase, e), v) {
        PublishedText(outer, vs, phase, e);
        ProcessedIsGone(ErrText(e), vs, v);
        forall i | At(Published(outer, vs, phase, e), v, i) ensures false {
          WhereItLies(Front(outer, phase), Redacted(ErrText(e), vs), v, i);
        }
      }
    } else {
      var c, vs, e := PublishedLeaks(outer, phase, v);
    }
  }

  // ----- one phase ------------------------------------------------------------------------------

  /** What a call did: looked at configuration, minted a token, rebuilt the
      environment, wrote to the host record, or handed a script to an executor. */
  datatype Act = Check | Mint | Rebuild | Write | Execute(phase: ScriptPhase, sent: bool)

  /** The executor refuses before anything is sent, or sends the script and reports. */
  datatype Exec = Refused(text: Bytes) | Ran(failure: Option<Bytes>)

  /** The profile's phase and the answers met on the way. */
  datatype PhaseInput = PhaseInput(script: Bytes, templated: bool, sig: Bytes, signers: bool,
                                   parse: Option<Bytes>, verify: Option<Bytes>, render: Option<Bytes>, exec: Exec)

  /** What was done, in order, and the error it ended with.  Taking back the token of
      a join that failed is not shown: `Protocol` has that step. */
  datatype JoinOutcome = JoinOutcome(acts: seq<Act>, err: Option<Err>)

  function Failed(text: Bytes): Option<Err> {
    Some(Config(Plain(text)))
  }

  function RunExecutor(p: PhaseInput, phase: ScriptPhase): JoinOutcome {
    match p.exec
    case Refused(text) => JoinOutcome([Execute(phase, false)], Some(Plain(text)))
    case Ran(None) => JoinOutcome([Execute(phase, true)], None)
    case Ran(Some(text)) => JoinOutcome([Execute(phase, true)], Some(Plain(text)))
  }

  function RunVerifiedPhase(p: PhaseInput, phase: ScriptPhase): JoinOutcome {
    if p.script == [] then JoinOutcome([Check], Failed("no script"))
    else if p.templated then JoinOutcome([Check], Failed("template actions"))
    else if p.sig == [] then JoinOutcome([Check], Failed("no signature"))
    else if p.signers && p.parse.Some? then
      JoinOutcome([Check], Some(Config(Wrapped("trustedSigners: ", Plain(p.parse.value)))))
    else if p.signers && p.verify.Some? then
      JoinOutcome([Check], Some(Config(Wrapped("signature check: ", Plain(p.verify.value)))))
    else RunExecutor(p, phase)
  }

  function RunPhase(verified: bool, p: PhaseInput, phase: ScriptPhase): JoinOutcome {
    if verified then RunVerifiedPhase(p, phase)
    else if p.render.Some? then JoinOutcome([Check], Failed(p.render.value))
    else RunExecutor(p, phase)
  }

  // ----- the join ---------------------------------------------------------------------------------

  /** Every answer a join can meet.  `None` is success. */
  datatype Input = Input(
    verified: bool, getProfile: Option<Bytes>, sshTarget: Option<Bytes>, clusterInfo: Option<Bytes>,
    getSecret: Option<Bytes>, env: Option<Bytes>, installed: bool, install: PhaseInput, setInstalled: Option<Bytes>,
    createToken: Option<Bytes>, rebuildEnv: Option<Bytes>, recordToken: Option<Bytes>, join: PhaseInput,
    secrets: seq<Bytes>, allSecrets: seq<Bytes>)

  function After(acts: seq<Act>, o: JoinOutcome): JoinOutcome {
    JoinOutcome(acts + o.acts, o.err)
  }

  function Redacting(vs: seq<Bytes>, phase: ScriptPhase, o: JoinOutcome): JoinOutcome {
    if o.err.None? then o else o.(err := Some(RedactPhaseErr(vs, phase, o.err.value)))
  }

  /** A configuration read and what its failure is wrapped in. */
  datatype Lookup = Lookup(answer: Option<Bytes>, prefix: Bytes)

  /** Configuration lookups, one after the other: the first to fail is marked. */
  function Reading(lookups: seq<Lookup>, next: JoinOutcome): JoinOutcome {
    if lookups == [] then next
    else if lookups[0].answer.Some? then
      JoinOutcome([Check], Some(Config(Wrapped(lookups[0].prefix, Plain(lookups[0].answer.value)))))
    else After([Check], Reading(lookups[1..], next))
  }

  /** Any other fallible step: failing is not marked. */
  function Doing(act: Act, answer: Option<Bytes>, prefix: Bytes, next: JoinOutcome): JoinOutcome {
    if answer.Some? then JoinOutcome([act], Some(Wrapped(prefix, Plain(answer.value))))
    else After([act], next)
  }

  function Lookups(w: Input): seq<Lookup> {
    [Lookup(w.getProfile, "getting join profile: "), Lookup(w.sshTarget, []), Lookup(w.clusterInfo, []),
     Lookup(w.getSecret, "getting joinSecretRef secret: "), Lookup(w.env, [])]
  }

  function JoinHost(w: Input): JoinOutcome {
    Reading(Lookups(w), InstallThenJoin(w))
  }

  function InstallThenJoin(w: Input): JoinOutcome {
    if w.installed then TokenThenJoin(w)
    else
      var o := Redacting(w.secrets, Install, RunPhase(w.verified, w.install, Install));
      if o.err.Some? then o
      else After(o.acts, Doing(Write, w.setInstalled, [], TokenThenJoin(w)))
  }

  function TokenThenJoin(w: Input): JoinOutcome {
    Doing(Mint, w.createToken, [],
      Doing(Rebuild, w.rebuildEnv, [],
        Doing(Write, w.recordToken, "recording bootstrap token: ",
          Redacting(w.allSecrets, Join, RunPhase(w.verified, w.join, Join)))))
  }

  /** `Create` releases a host whose join failed: healthy, or parked Unhealthy. */
  predicate ReleasedHealthy(o: JoinOutcome) {
    o.err.Some? && IsConfig(o.err.value)
  }

  // ----- theorems -------------------------------------------------------------------------------------

  predicate HandsOverJoin(a: Act) {
    a.Execute? && a.phase.Join?
  }

  /** The error is marked exactly when the last thing done was to look at
      configuration; and nothing follows the handing over of a join script. */
  predicate Classified(o: JoinOutcome) {
    && o.acts != []
    && (forall i :: 0 <= i < |o.acts| - 1 ==> !HandsOverJoin(o.acts[i]))
    && (o.err.Some? ==> (IsConfig(o.err.value) <==> o.acts[|o.acts| - 1].Check?))
  }

  lemma AfterClassified(acts: seq<Act>, o: JoinOutcome)
    requires Classified(o) && forall a <- acts :: !HandsOverJoin(a)
    ensures Classified(After(acts, o))
  {
    assert (acts + o.acts)[|acts + o.acts| - 1] == o.acts[|o.acts| - 1];
  }

  lemma PhaseClassified(vs: seq<Bytes>, verified: bool, p: PhaseInput, phase: ScriptPhase)
    ensures Classified(Redacting(vs, phase, RunPhase(verified, p, phase)))
  {
    assert Classified(RunPhase(verified, p, phase));
  }

  lemma {:induction false} ReadingClassified(lookups: seq<Lookup>, next: JoinOutcome)
    requires Classified(next)
    ensures Classified(Reading(lookups, next))
  {
    if lookups != [] && lookups[0].answer.None? {
      ReadingClassified(lookups[1..], next);
      AfterClassified([Check], Reading(lookups[1..], next));
    }
  }

  lemma DoingClassified(act: Act, answer: Option<Bytes>, prefix: Bytes, next: JoinOutcome)
    requires Classified(next) && (act.Mint? || act.Rebuild? || act.Write?)
    ensures Classified(Doing(act, answer, prefix, next))
  {
    AfterClassified([act], next);
  }

  lemma TokenThenJoinClassified(w: Input)
    ensures Classified(TokenThenJoin(w))
  {
    var run := Redacting(w.allSecrets, Join, RunPhase(w.verified, w.join, Join));
    PhaseClassified(w.allSecrets, w.verified, w.join, Join);
    var record := Doing(Write, w.recordToken, "recording bootstrap token: ", run);
    DoingClassified(Write, w.recordToken, "recording bootstrap token: ", run);
    DoingClassified(Rebuild, w.rebuildEnv, [], record);
    DoingClassified(Mint, w.createToken, [], Doing(Rebuild, w.rebuildEnv, [], record));
  }

  lemma InstallThenJoinClassified(w: Input)
    ensures Classified(InstallThenJoin(w))
  {
    TokenThenJoinClassified(w);
    PhaseClassified(w.secrets, w.verified, w.install, Install);
    DoingClassified(Write, w.setInstalled, [], TokenThenJoin(w));
    AfterClassified(Redacting(w.secrets, Install, RunPhase(w.verified, w.install, Install)).acts,
                    Doing(Write, w.setInstalled, [], TokenThenJoin(w)));
  }

  /** The classification survives both runners, redaction and wrapping, whatever fails. */
  lemma ClassificationIsExact(w: Input)
    ensures Classified(JoinHost(w))
  {
    InstallThenJoinClassified(w);
    ReadingClassified(Lookups(w), InstallThenJoin(w));
  }

  /** A host goes straight back to Available only if no join script was handed over. */
  lemma HealthyOnlyIfJoinUnsent(w: Input)
    requires ReleasedHealthy(JoinHost(w))
    ensures forall a <- JoinHost(w).acts :: !HandsOverJoin(a)
  {
    ClassificationIsExact(w);
  }

  /** A script reached the host. */
  predicate Touched(acts: seq<Act>) {
    exists a <- acts :: a.Execute? && a.sent
  }

  lemma TouchedAfter(acts: seq<Act>, more: seq<Act>)
    ensures Touched(acts + more) <==> Touched(acts) || Touched(more)
  {
    assert forall a :: a in acts + more <==> a in acts || a in more;
  }

  /** A read that fails leaves nothing done; lookups that succeed change nothing. */
  lemma {:induction false} ReadingTouches(lookups: seq<Lookup>, next: JoinOutcome)
    ensures var o := Reading(lookups, next);
      if exists r <- lookups :: r.answer.Some? then !Touched(o.acts)
      else o.err == next.err && (Touched(o.acts) <==> Touched(next.acts))
  {
    if lookups != [] {
      assert lookups == [lookups[0]] + lookups[1..] && lookups[0] in lookups;
      if lookups[0].answer.None? {
        ReadingTouches(lookups[1..], next);
        TouchedAfter([Check], Reading(lookups[1..], next).acts);
      }
    }
  }

  // ----- what the error shows ---------------------------------------------------------------------------

  /** Every answer up to the first script is fine. */
  predicate ReadsFine(w: Input) {
    w.getProfile.None? && w.sshTarget.None? && w.clusterInfo.None? && w.getSecret.None? && w.env.None?
  }

  /** Every answer up to the join script is fine. */
  predicate ReadyToJoin(w: Input) {
    && ReadsFine(w)
    && (w.installed || (RunPhase(w.verified, w.install, Install).err.None? && w.setInstalled.None?))
    && w.createToken.None? && w.rebuildEnv.None? && w.recordToken.None?
  }

  lemma FineReadsGoOn(w: Input)
    requires ReadsFine(w)
    ensures JoinHost(w).err == InstallThenJoin(w).err
  {
    ReadingTouches(Lookups(w), InstallThenJoin(w));
    LookupsFail(w);
  }

  lemma LookupsFail(w: Input)
    ensures (exists r <- Lookups(w) :: r.answer.Some?) <==> !ReadsFine(w)
  {
    var rs := Lookups(w);
    assert rs[0] in rs && rs[1] in rs && rs[2] in rs && rs[3] in rs && rs[4] in rs;
  }

  lemma RedactedErrText(vs: seq<Bytes>, phase: ScriptPhase, o: JoinOutcome)
    requires o.err.Some?
    ensures Redacting(vs, phase, o).err.Some?
    ensures ErrText(Redacting(vs, phase, o).err.value) == PhasePrefix(phase) + Redacted(ErrText(o.err.value), vs)
    ensures IsConfig(Redacting(vs, phase, o).err.value) <==> IsConfig(o.err.value)
  {}

  lemma JoinErrorText(w: Input)
    requires ReadyToJoin(w) && JoinHost(w).err.Some?
    ensures var failed := RunPhase(w.verified, w.join, Join).err;
            failed.Some? && ErrText(JoinHost(w).err.value) == "join phase: " + Redacted(ErrText(failed.value), w.allSecrets)
  {
    FineReadsGoOn(w);
    var run := RunPhase(w.verified, w.join, Join);
    assert TokenThenJoin(w).err == Redacting(w.allSecrets, Join, run).err;
    assert InstallThenJoin(w).err == TokenThenJoin(w).err;
    RedactedErrText(w.allSecrets, Join, run);
  }

  lemma InstallErrorText(w: Input)
    requires ReadsFine(w) && !w.installed && RunPhase(w.verified, w.install, Install).err.Some?
    ensures JoinHost(w).err.Some?
    ensures var failed := RunPhase(w.verified, w.install, Install).err.value;
            ErrText(JoinHost(w).err.value) == "install phase: " + Redacted(ErrText(failed), w.secrets)
  {
    FineReadsGoOn(w);
    RedactedErrText(w.secrets, Install, RunPhase(w.verified, w.install, Install));
  }

  /** Behind a text that neither holds nor begins it, a value stays hidden. */
  lemma HiddenBehind(front: Bytes, msg: Bytes, c: Context, vs: seq<Bytes>, v: Bytes)
    requires Ordered(c, vs) && IsValue(c, v) && |v| >= MIN_LENGTH && Distinct(v) && ClearOf(front, v)
    ensures !Occurs(front + Redacted(msg, vs), v)
  {
    ProcessedIsGone(msg, vs, v);
    forall i | At(front + Redacted(msg, vs), v, i) ensures false {
      WhereItLies(front, Redacted(msg, vs), v, i);
    }
  }

  /** Whatever the join script fails with, the error that `Create` publishes shows no
      value of the context that holds the bootstrap token: `outer` is what the callers
      put before it. */
  lemma JoinErrorHides(w: Input, c: Context, v: Bytes, outer: Bytes)
    requires ReadyToJoin(w) && JoinHost(w).err.Some?
    requires Ordered(c, w.allSecrets) && IsValue(c, v) && |v| >= 8 && Distinct(v) && ClearOf(outer + "join phase: ", v)
    ensures !Occurs(outer + ErrText(JoinHost(w).err.value), v)
  {
    JoinErrorText(w);
    var failed, prefix: Bytes := RunPhase(w.verified, w.join, Join).err.value, "join phase: ";
    HiddenBehind(outer + prefix, ErrText(failed), c, w.allSecrets, v);
    assert outer + (prefix + Redacted(ErrText(failed), w.allSecrets)) == (outer + prefix) + Redacted(ErrText(failed), w.allSecrets);
  }

  /** The same of the install script, and the context before the token is minted. */
  lemma InstallErrorHides(w: Input, c: Context, v: Bytes, outer: Bytes)
    requires ReadsFine(w) && !w.installed && RunPhase(w.verified, w.install, Install).err.Some?
    requires Ordered(c, w.secrets) && IsValue(c, v) && |v| >= 8 && Distinct(v) && ClearOf(outer + "install phase: ", v)
    ensures JoinHost(w).err.Some? && !Occurs(outer + ErrText(JoinHost(w).err.value), v)
  {
    InstallErrorText(w);
    var failed, prefix: Bytes := RunPhase(w.verified, w.install, Install).err.value, "install phase: ";
    HiddenBehind(outer + prefix, ErrText(failed), c, w.secrets, v);
    assert outer + (prefix + Redacted(ErrText(failed), w.secrets)) == (outer + prefix) + Redacted(ErrText(failed), w.secrets);
  }

  // ----- by the answers ------------------------------------------------------------------------------

  /** The phase is refused before its script is handed to an executor. */
  predicate CheckFails(verified: bool, p: PhaseInput) {
    if verified then
      p.script == [] || p.templated || p.sig == [] || (p.signers && (p.parse.Some? || p.verify.Some?))
    else p.render.Some?
  }

  /** One answer a join meets: whether it is about configuration, and whether it fails. */
  datatype Answer = Answer(config: bool, fails: bool)

  function PhaseAnswers(verified: bool, p: PhaseInput): seq<Answer> {
    [Answer(true, CheckFails(verified, p)), Answer(false, p.exec != Ran(None))]
  }

  /** The second environment is built from the same secrets as the first, so it cannot be
      the first to fail; the code does not mark its failure. */
  function TokenAnswers(w: Input): seq<Answer> {
    [Answer(false, w.createToken.Some?)] + ([Answer(false, w.rebuildEnv.Some?)] + ([Answer(false, w.recordToken.Some?)]
    + PhaseAnswers(w.verified, w.join)))
  }

  function InstallAnswers(w: Input): seq<Answer> {
    if w.installed then TokenAnswers(w)
    else PhaseAnswers(w.verified, w.install) + ([Answer(false, w.setInstalled.Some?)] + TokenAnswers(w))
  }

  function LookupAnswers(lookups: seq<Lookup>): seq<Answer> {
    seq(|lookups|, i requires 0 <= i < |lookups| => Answer(true, lookups[i].answer.Some?))
  }

  /** Every answer of a join, in the order it is asked for. */
  function Answers(w: Input): seq<Answer> {
    LookupAnswers(Lookups(w)) + InstallAnswers(w)
  }

  /** Whether the first answer that fails is about configuration. */
  function FirstFailure(answers: seq<Answer>): Option<bool> {
    if answers == [] then None
    else if answers[0].fails then Some(answers[0].config)
    else FirstFailure(answers[1..])
  }

  predicate Agrees(o: JoinOutcome, answers: seq<Answer>) {
    match FirstFailure(answers)
    case None => o.err.None?
    case Some(config) => o.err.Some? && IsConfig(o.err.value) == config
  }

  lemma FirstFailureCons(a: Answer, rest: seq<Answer>)
    ensures FirstFailure([a] + rest) == if a.fails then Some(a.config) else FirstFailure(rest)
  {
    assert ([a] + rest)[1..] == rest;
  }

  lemma DoingAgrees(act: Act, answer: Option<Bytes>, prefix: Bytes, next: JoinOutcome, rest: seq<Answer>)
    requires Agrees(next, rest)
    ensures Agrees(Doing(act, answer, prefix, next), [Answer(false, answer.Some?)] + rest)
  {
    FirstFailureCons(Answer(false, answer.Some?), rest);
    if answer.Some? {
      assert !IsConfig(Plain(answer.value));
    }
  }

  lemma {:induction false} ReadingAgrees(lookups: seq<Lookup>, next: JoinOutcome, rest: seq<Answer>)
    requires Agrees(next, rest)
    ensures Agrees(Reading(lookups, next), LookupAnswers(lookups) + rest)
  {
    if lookups == [] {
      assert LookupAnswers(lookups) + rest == rest;
    } else {
      ReadingAgrees(lookups[1..], next, rest);
      var a := Answer(true, lookups[0].answer.Some?);
      assert LookupAnswers(lookups) + rest == [a] + (LookupAnswers(lookups[1..]) + rest);
      FirstFailureCons(a, LookupAnswers(lookups[1..]) + rest);
    }
  }

  lemma RunPhaseAgrees(vs: seq<Bytes>, verified: bool, p: PhaseInput, phase: ScriptPhase)
    ensures Agrees(Redacting(vs, phase, RunPhase(verified, p, phase)), PhaseAnswers(verified, p))
  {
    var check, exec := Answer(true, CheckFails(verified, p)), Answer(false, p.exec != Ran(None));
    assert PhaseAnswers(verified, p) == [check] + ([exec] + []);
    FirstFailureCons(check, [exec] + []);
    FirstFailureCons(exec, []);
    assert Agrees(RunPhase(verified, p, phase), PhaseAnswers(verified, p));
  }

  lemma TokenAgrees(w: Input)
    ensures Agrees(TokenThenJoin(w), TokenAnswers(w))
  {
    var run := Redacting(w.allSecrets, Join, RunPhase(w.verified, w.join, Join));
    var a1 := PhaseAnswers(w.verified, w.join);
    RunPhaseAgrees(w.allSecrets, w.verified, w.join, Join);
    var record := Doing(Write, w.recordToken, "recording bootstrap token: ", run);
    var a2 := [Answer(false, w.recordToken.Some?)] + a1;
    DoingAgrees(Write, w.recordToken, "recording bootstrap token: ", run, a1);
    DoingAgrees(Rebuild, w.rebuildEnv, [], record, a2);
    DoingAgrees(Mint, w.createToken, [], Doing(Rebuild, w.rebuildEnv, [], record), [Answer(false, w.rebuildEnv.Some?)] + a2);
  }

  lemma PhaseThenAgrees(o: JoinOutcome, next: JoinOutcome, check: Answer, exec: Answer, rest: seq<Answer>)
    requires Agrees(o, [check, exec]) && Agrees(next, rest)
    ensures Agrees(if o.err.Some? then o else After(o.acts, next), [check, exec] + rest)
  {
    assert [check, exec] == [check] + ([exec] + []);
    FirstFailureCons(check, [exec] + []);
    FirstFailureCons(exec, []);
    assert [check, exec] + rest == [check] + ([exec] + rest);
    FirstFailureCons(check, [exec] + rest);
    FirstFailureCons(exec, rest);
  }

  lemma InstallAgrees(w: Input)
    ensures Agrees(InstallThenJoin(w), InstallAnswers(w))
  {
    TokenAgrees(w);
    if !w.installed {
      RunPhaseAgrees(w.secrets, w.verified, w.install, Install);
      DoingAgrees(Write, w.setInstalled, [], TokenThenJoin(w), TokenAnswers(w));
      PhaseThenAgrees(Redacting(w.secrets, Install, RunPhase(w.verified, w.install, Install)),
                      Doing(Write, w.setInstalled, [], TokenThenJoin(w)),
                      Answer(true, CheckFails(w.verified, w.install)), Answer(false, w.install.exec != Ran(None)),
                      [Answer(false, w.setInstalled.Some?)] + TokenAnswers(w));
    }
  }

  /** The classification, by what the join was answered: it fails exactly when an answer
      does, and is marked exactly when the first answer to fail is about configuration. */
  lemma ClassifiedByFirstFailure(w: Input)
    ensures Agrees(JoinHost(w), Answers(w))
  {
    InstallAgrees(w);
    ReadingAgrees(Lookups(w), InstallThenJoin(w), InstallAnswers(w));
  }

  // ----- "never touched" ---------------------------------------------------------------------------------

  /** An install was due and ran, and the join's own check fails after it. */
  predicate InstallRanThenCheckFails(w: Input) {
    && ReadsFine(w)
    && !w.installed && !CheckFails(w.verified, w.install) && w.install.exec == Ran(None) && w.setInstalled.None?
    && w.createToken.None? && w.rebuildEnv.None? && w.recordToken.None? && CheckFails(w.verified, w.join)
  }

  lemma PhaseOutcome(vs: seq<Bytes>, verified: bool, p: PhaseInput, phase: ScriptPhase)
    ensures var o := Redacting(vs, phase, RunPhase(verified, p, phase));
      && (ReleasedHealthy(o) <==> CheckFails(verified, p))
      && (o.err.None? <==> !CheckFails(verified, p) && p.exec == Ran(None))
      && (Touched(o.acts) <==> !CheckFails(verified, p) && p.exec.Ran?)
  {
    var o := RunPhase(verified, p, phase);
    assert o.acts[0] in o.acts && |o.acts| == 1;
  }

  lemma DoingOutcome(act: Act, answer: Option<Bytes>, prefix: Bytes, next: JoinOutcome)
    requires act.Mint? || act.Rebuild? || act.Write?
    ensures var o := Doing(act, answer, prefix, next);
      && (ReleasedHealthy(o) <==> answer.None? && ReleasedHealthy(next))
      && (Touched(o.acts) <==> answer.None? && Touched(next.acts))
  {
    if answer.Some? {
      assert !IsConfig(Plain(answer.value));
    } else {
      TouchedAfter([act], next.acts);
    }
  }

  lemma TokenOutcome(w: Input)
    ensures ReleasedHealthy(TokenThenJoin(w)) <==>
              w.createToken.None? && w.rebuildEnv.None? && w.recordToken.None? && CheckFails(w.verified, w.join)
    ensures ReleasedHealthy(TokenThenJoin(w)) ==> !Touched(TokenThenJoin(w).acts)
  {
    var run := Redacting(w.allSecrets, Join, RunPhase(w.verified, w.join, Join));
    PhaseOutcome(w.allSecrets, w.verified, w.join, Join);
    var record := Doing(Write, w.recordToken, "recording bootstrap token: ", run);
    DoingOutcome(Write, w.recordToken, "recording bootstrap token: ", run);
    DoingOutcome(Rebuild, w.rebuildEnv, [], record);
    DoingOutcome(Mint, w.createToken, [], Doing(Rebuild, w.rebuildEnv, [], record));
  }

  lemma InstallOutcome(w: Input)
    ensures var o := InstallThenJoin(w);
      ReleasedHealthy(o) && Touched(o.acts) <==>
        && !w.installed && !CheckFails(w.verified, w.install) && w.install.exec == Ran(None) && w.setInstalled.None?
        && w.createToken.None? && w.rebuildEnv.None? && w.recordToken.None? && CheckFails(w.verified, w.join)
  {
    TokenOutcome(w);
    var o := Redacting(w.secrets, Install, RunPhase(w.verified, w.install, Install));
    var next := Doing(Write, w.setInstalled, [], TokenThenJoin(w));
    PhaseOutcome(w.secrets, w.verified, w.install, Install);
    DoingOutcome(Write, w.setInstalled, [], TokenThenJoin(w));
    TouchedAfter(o.acts, next.acts);
  }

  /** A host released as healthy was "never touched", but for one case: exactly when an
      install was due and ran, and the join's own check failed after it. */
  lemma HealthyYetTouched(w: Input)
    ensures ReleasedHealthy(JoinHost(w)) && Touched(JoinHost(w).acts) <==> InstallRanThenCheckFails(w)
  {
    InstallOutcome(w);
    ReadingTouches(Lookups(w), InstallThenJoin(w));
    LookupsFail(w);
  }

  /** Such a case: a raw join whose template does not render, behind an install that ran. */
  lemma UnrenderableJoinAfterInstall() returns (w: Input)
    ensures !w.verified && w.join.render.Some? && InstallRanThenCheckFails(w)
    ensures ReleasedHealthy(JoinHost(w)) && Touched(JoinHost(w).acts)
  {
    var install := PhaseInput("i", false, [], false, None, None, None, Ran(None));
    w := Input(false, None, None, None, None, None, false, install, None, None, None, None,
               install.(render := Some("no such field")), [], []);
    HealthyYetTouched(w);
  }
}
