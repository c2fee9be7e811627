/**
 kpssh-shim, the reader of the envelope, and the round trip with its writer.
 */
module Shim {
  import opened Options
  import opened Bytes
  import opened Base64
  import opened Envelope

  // ----- the header loop --------------------------------------------------------------------

  /** The shell variables the header loop assigns. */
  datatype Header = Header(ver: Bytes, phase: Bytes, params64: Bytes, sig64: Bytes, script64: Bytes)

  const NO_HEADER := Header([], [], [], [], [])

  const F_VERSION: Bytes := "kpssh-envelope: "
  const F_PHASE: Bytes := "phase: "
  const F_PARAMS: Bytes := "params-b64: "
  const F_SIG: Bytes := "sig-b64: "
  const F_SCRIPT: Bytes := "script-b64: "

  function OnLine(h: Header, line: Bytes): Header {
    if F_VERSION <= line then h.(ver := line[|F_VERSION|..])
    else if F_PHASE <= line then h.(phase := line[|F_PHASE|..])
    else if F_PARAMS <= line then h.(params64 := line[|F_PARAMS|..])
    else if F_SIG <= line then h.(sig64 := line[|F_SIG|..])
    else if F_SCRIPT <= line then h.(script64 := line[|F_SCRIPT|..])
    else h
  }

  /** What the last line that starts with `field` says after it; order and other lines
      do not matter. */
  function LastField(ls: seq<Bytes>, field: Bytes): Bytes {
    if ls == [] then []
    else if field <= ls[|ls| - 1] then ls[|ls| - 1][|field|..]
    else LastField(ls[..|ls| - 1], field)
  }

  /** No field starts another, so that each line is of one field at most. */
  lemma FieldsApart(line: Bytes)
    ensures F_VERSION <= line ==> !(F_PHASE <= line) && !(F_PARAMS <= line) && !(F_SIG <= line) && !(F_SCRIPT <= line)
    ensures F_PHASE <= line ==> !(F_PARAMS <= line) && !(F_SIG <= line) && !(F_SCRIPT <= line)
    ensures F_PARAMS <= line ==> !(F_SIG <= line) && !(F_SCRIPT <= line)
    ensures F_SIG <= line ==> !(F_SCRIPT <= line)
  {
    FieldBytes();
  }

  lemma FieldBytes()
    ensures |F_VERSION| > 1 && |F_PHASE| > 1 && |F_PARAMS| > 1 && |F_SIG| > 1 && |F_SCRIPT| > 1
    ensures F_VERSION[0] == 'k' && F_PHASE[0] == 'p' && F_PARAMS[0] == 'p' && F_SIG[0] == 's' && F_SCRIPT[0] == 's'
    ensures F_PHASE[1] == 'h' && F_PARAMS[1] == 'a' && F_SIG[1] == 'i' && F_SCRIPT[1] == 'c'
  {}

  /** The header loop keeps, of each field, what its last line says. */
  lemma {:induction false} HeaderIsLastFields(ls: seq<Bytes>)
    ensures OnLines(NO_HEADER, ls)
         == Header(LastField(ls, F_VERSION), LastField(ls, F_PHASE), LastField(ls, F_PARAMS), LastField(ls, F_SIG), LastField(ls, F_SCRIPT))
  {
    if ls != [] {
      var before, l := ls[..|ls| - 1], ls[|ls| - 1];
      HeaderIsLastFields(before);
      OnLinesAppend(NO_HEADER, before, l);
      assert before + [l] == ls;
      FieldsApart(l);
    }
  }

  function OnLines(h: Header, ls: seq<Bytes>): Header
    decreases |ls|
  {
    if ls == [] then h else OnLines(OnLine(h, ls[0]), ls[1..])
  }

  method ReadHeader(wire: Bytes) returns (h: Header)
    ensures h == OnLines(NO_HEADER, Lines(wire))
  {
    h := NO_HEADER;
    var rest := wire;
    while rest != []
      invariant OnLines(h, Lines(rest)) == OnLines(NO_HEADER, Lines(wire))
      decreases |rest|
    {
      var i := IndexOf(rest, NEWLINE);
      h := OnLine(h, DropNul(rest[..i]));
      rest := if i < |rest| then rest[i + 1..] else [];
    }
  }

  // ----- the params loop -------------------------------------------------------------------------

  datatype Exports = BadParam | Exports(env: map<Bytes, Bytes>)

  /** One line of the params file: skipped when empty, else NAME=value. */
  function OnParam(env: map<Bytes, Bytes>, p: Bytes): Exports {
    if p == [] then Exports(env)
    else
      var i := IndexOf(p, '=');
      if i == |p| || !ReaderName(p[..i]) then BadParam
      else Exports(env[p[..i] := p[i + 1..]])
  }

  function OnParams(env: map<Bytes, Bytes>, ls: seq<Bytes>): Exports
    decreases |ls|
  {
    if ls == [] then Exports(env)
    else
      var next := OnParam(env, ls[0]);
      if next.BadParam? then BadParam else OnParams(next.env, ls[1..])
  }

  function NameOf(p: Bytes): Bytes {
    p[..IndexOf(p, '=')]
  }

  /** A line that ends the reading: not empty, and no NAME= with a name the gate lets through. */
  predicate BadLine(p: Bytes) {
    p != [] && ('=' !in p || !ReaderName(NameOf(p)))
  }

  /** What the last line for name `k` assigns to it: everything behind its first `=`. */
  function LastParam(ls: seq<Bytes>, k: Bytes): Option<Bytes> {
    if ls == [] then None
    else
      var p := ls[|ls| - 1];
      if '=' in p && NameOf(p) == k then Some(p[|k| + 1..]) else LastParam(ls[..|ls| - 1], k)
  }

  lemma {:induction false} OnParamsAppend(env: map<Bytes, Bytes>, ls: seq<Bytes>, p: Bytes)
    ensures OnParams(env, ls + [p]) == var r := OnParams(env, ls); if r.BadParam? then BadParam else OnParam(r.env, p)
    decreases |ls|
  {
    if ls == [] {
      assert ls + [p] == [p] && [p][1..] == [];
      assert OnParam(env, p).Exports? ==> OnParams(OnParam(env, p).env, []) == OnParam(env, p);
    } else {
      assert (ls + [p])[1..] == ls[1..] + [p] && (ls + [p])[0] == ls[0];
      var next := OnParam(env, ls[0]);
      if next.Exports? {
        OnParamsAppend(next.env, ls[1..], p);
      }
    }
  }

  lemma OneLineOfParams(env: map<Bytes, Bytes>, p: Bytes)
    ensures OnParam(env, p)
         == if BadLine(p) then BadParam else if p == [] then Exports(env) else Exports(env[NameOf(p) := p[|NameOf(p)| + 1..]])
    ensures '=' in p ==> IndexOf(p, '=') < |p|
  {
    var i := IndexOf(p, '=');
    if i == |p| {
      assert p[..i] == p;
    } else {
      assert p[i] in p;
    }
  }

  /** The params are refused exactly when a line of theirs is bad; otherwise exactly the
      names on them are exported, each with what its last line says. */
  lemma {:induction false} ParamsExact(ls: seq<Bytes>)
    ensures var r := OnParams(map[], ls);
            && (r.BadParam? <==> exists p <- ls :: BadLine(p))
            && (r.Exports? ==> forall k :: (if k in r.env then Some(r.env[k]) else None) == LastParam(ls, k))
  {
    if ls != [] {
      var before, p := ls[..|ls| - 1], ls[|ls| - 1];
      ParamsExact(before);
      OnParamsAppend(map[], before, p);
      assert ls == before + [p];
      var r := OnParams(map[], before);
      if r.Exports? {
        OneLineOfParams(r.env, p);
      }
    }
  }

  method ReadParams(text: Bytes) returns (r: Exports)
    ensures r == OnParams(map[], Lines(text))
  {
    var env: map<Bytes, Bytes> := map[];
    var rest := text;
    while rest != []
      invariant OnParams(env, Lines(rest)) == OnParams(map[], Lines(text))
      decreases |rest|
    {
      var i := IndexOf(rest, NEWLINE);
      var next := OnParam(env, DropNul(rest[..i]));
      if next.BadParam? {
        return BadParam;
      }
      env := next.env;
      rest := if i < |rest| then rest[i + 1..] else [];
    }
    r := Exports(env);
  }

  // ----- the whole shim ------------------------------------------------------------------------------

  datatype Reaction =
    | Exit(code: nat)
    | Facts                                            // probe: fixed, read-only
    | Execute(phase: Bytes, script: Bytes, sig: Bytes, env: map<Bytes, Bytes>)

  /** The shim's checks in their order; `gate` is `ssh-keygen -Y verify`. */
  method CheckAndRun(wire: Bytes, gate: (Bytes, Bytes) -> bool) returns (o: Reaction)
    ensures o == ShimOutcome(OnLines(NO_HEADER, Lines(wire)), gate)
  {
    var h := ReadHeader(wire);
    if h.ver != "1" || h.phase == [] {
      return Exit(4);
    }
    if h.phase == PROBE {
      return Facts;
    }
    if !SignedPhase(h.phase) {
      return Exit(5);
    }
    if h.sig64 == [] || h.script64 == [] {
      return Exit(4);
    }
    var script, sig := Decode(h.script64), Decode(h.sig64);
    if script.Bad? || sig.Bad? {
      return Exit(4);
    }
    if !gate(script.bytes, sig.bytes) {
      return Exit(2);
    }
    if h.params64 == [] {
      return Execute(h.phase, script.bytes, sig.bytes, map[]);
    }
    var params := Decode(h.params64);
    if params.Bad? {
      return Exit(4);
    }
    var exports := ReadParams(params.bytes);
    if exports.BadParam? {
      return Exit(3);
    }
    o := Execute(h.phase, script.bytes, sig.bytes, exports.env);
  }

  function ShimOutcome(h: Header, gate: (Bytes, Bytes) -> bool): Reaction {
    if h.ver != "1" || h.phase == [] then Exit(4)
    else if h.phase == PROBE then Facts
    else if !SignedPhase(h.phase) then Exit(5)
    else if h.sig64 == [] || h.script64 == [] || Decode(h.script64).Bad? || Decode(h.sig64).Bad? then Exit(4)
    else if !gate(Decode(h.script64).bytes, Decode(h.sig64).bytes) then Exit(2)
    else if h.params64 != [] && Decode(h.params64).Bad? then Exit(4)
    else
      var exports := if h.params64 == [] then Exports(map[]) else OnParams(map[], Lines(Decode(h.params64).bytes));
      if exports.BadParam? then Exit(3)
      else Execute(h.phase, Decode(h.script64).bytes, Decode(h.sig64).bytes, exports.env)
  }

  predicate ShimPhase(p: Bytes) {
    p in ["install", "join", "leave", "uninstall", "reboot"]
  }

  /** What the shim makes of the bytes on its standard input, by their fields; everything
      that none of the clauses is about is malformed, Exit(4). */
  ghost predicate Reacts(wire: Bytes, gate: (Bytes, Bytes) -> bool, o: Reaction) {
    var ls := Lines(wire);
    var phase, params := LastField(ls, "phase: "), LastField(ls, "params-b64: ");
    var script, sig := Decode(LastField(ls, "script-b64: ")), Decode(LastField(ls, "sig-b64: "));
    var versioned := LastField(ls, "kpssh-envelope: ") == "1";
    var signed := versioned && ShimPhase(phase) && LastField(ls, "script-b64: ") != [] && LastField(ls, "sig-b64: ") != []
                  && script.Good? && sig.Good?;
    var vetted := signed && gate(script.bytes, sig.bytes);
    var listed := params == [] || Decode(params).Good?;
    var named := params == [] || (Decode(params).Good? && !exists p <- Lines(Decode(params).bytes) :: BadLine(p));
    && (o == Facts <==> versioned && phase == "probe")
    && (o == Exit(5) <==> versioned && phase != [] && phase != "probe" && !ShimPhase(phase))
    && (o == Exit(2) <==> signed && !gate(script.bytes, sig.bytes))
    && (o == Exit(3) <==> vetted && listed && !named)
    && (o.Execute? <==> vetted && named)
    && (o.Execute? ==> o.phase == phase && o.script == script.bytes && o.sig == sig.bytes && EnvIs(params, o.env))
    && (o.Exit? ==> o.code in {2, 3, 4, 5})
  }

  /** Exactly the params are exported. */
  ghost predicate EnvIs(params: Bytes, env: map<Bytes, Bytes>) {
    if params == [] then env == map[]
    else
      && Decode(params).Good?
      && forall k :: (if k in env then Some(env[k]) else None) == LastParam(Lines(Decode(params).bytes), k)
  }

  lemma PhasesAgree(p: Bytes)
    ensures SignedPhase(p) <==> ShimPhase(p)
  {}

  lemma OutcomeReacts(wire: Bytes, gate: (Bytes, Bytes) -> bool)
    ensures Reacts(wire, gate, ShimOutcome(OnLines(NO_HEADER, Lines(wire)), gate))
  {
    var ls := Lines(wire);
    HeaderIsLastFields(ls);
    PhasesAgree(LastField(ls, F_PHASE));
    var params := LastField(ls, F_PARAMS);
    if params != [] && Decode(params).Good? {
      ParamsExact(Lines(Decode(params).bytes));
    }
  }

  /** Nothing is executed that the gate has not passed, whatever the bytes on the wire. */
  lemma OnlyGatedCodeRuns(wire: Bytes, gate: (Bytes, Bytes) -> bool)
    ensures var o := ShimOutcome(OnLines(NO_HEADER, Lines(wire)), gate);
            o.Execute? ==> SignedPhase(o.phase) && gate(o.script, o.sig) && forall k <- o.env :: ReaderName(k)
  {
    var h := OnLines(NO_HEADER, Lines(wire));
    if h.params64 != [] && Decode(h.params64).Good? {
      NamesAreVetted(map[], Lines(Decode(h.params64).bytes));
    }
  }

  lemma {:induction false} NamesAreVetted(env: map<Bytes, Bytes>, ls: seq<Bytes>)
    requires forall k <- env :: ReaderName(k)
    ensures var r := OnParams(env, ls); r.Exports? ==> forall k <- r.env :: ReaderName(k)
    decreases |ls|
  {
    if ls != [] {
      var next := OnParam(env, ls[0]);
      if next.Exports? {
        NamesAreVetted(next.env, ls[1..]);
      }
    }
  }

  // ----- the round trip --------------------------------------------------------------------------------

  predicate OneLine(l: Bytes) {
    NEWLINE !in l && '\0' !in l
  }

  lemma {:induction false} OneLinesStay(ls: seq<Bytes>)
    requires forall l <- ls :: OneLine(l)
    ensures Dropped(ls) == ls
  {
    if ls != [] {
      assert ls[0] in ls && ls == [ls[0]] + ls[1..];
      OneLinesStay(ls[1..]);
    }
  }

  lemma OneLineConcat(a: Bytes, b: Bytes)
    requires OneLine(a) && OneLine(b)
    ensures OneLine(a + b)
  {}

  lemma OneLineHeaders()
    ensures OneLine(H_VERSION + "1")
    ensures OneLine(H_PHASE) && OneLine(H_PARAMS) && OneLine(H_SIG) && OneLine(H_SCRIPT)
  {}

  lemma OneLinePhase(p: Bytes)
    requires ValidPhase(p)
    ensures OneLine(p) && p != []
  {}

  lemma OneLineTexts(e: Envelope)
    requires Acceptable(e)
    ensures OneLine(VersionText()) && OneLine(PhaseText(e.phase)) && OneLine(ParamsText(ParamBlock(e.params)))
    ensures OneLine(SigText(e.sig)) && OneLine(ScriptText(e.script))
  {
    OneLineHeaders();
    OneLinePhase(e.phase);
    OneLineConcat(H_PHASE, e.phase);
    EncodeIsOneLine(ParamBlock(e.params));
    OneLineConcat(H_PARAMS, Encode(ParamBlock(e.params)));
    EncodeIsOneLine(e.sig);
    OneLineConcat(H_SIG, Encode(e.sig));
    EncodeIsOneLine(e.script);
    OneLineConcat(H_SCRIPT, Encode(e.script));
  }

  lemma OneLinesConcat(a: seq<Bytes>, b: seq<Bytes>)
    requires (forall l <- a :: OneLine(l)) && (forall l <- b :: OneLine(l))
    ensures forall l <- a + b :: OneLine(l)
  {
    assert forall l :: l in a + b <==> l in a || l in b;
  }

  lemma WireIsLines(e: Envelope)
    requires Acceptable(e)
    ensures forall l <- WireLines(e) :: OneLine(l)
  {
    OneLineTexts(e);
    var version: seq<Bytes>, phase: seq<Bytes> := [VersionText()], [PhaseText(e.phase)];
    var params := LineIf(e.params != map[], ParamsText(ParamBlock(e.params)));
    var sig, script := LineIf(e.sig != [], SigText(e.sig)), LineIf(e.script != [], ScriptText(e.script));
    OneLinesConcat(version, phase);
    OneLinesConcat(version + phase, params);
    OneLinesConcat(version + phase + params, sig);
    OneLinesConcat(version + phase + params + sig, script);
  }

  lemma IsPrefix(p: Bytes, x: Bytes)
    ensures p <= p + x && (p + x)[|p|..] == x
  {}

  /** The writer and the reader name the fields alike. */
  lemma FieldsAgree()
    ensures H_VERSION == F_VERSION && H_PHASE == F_PHASE && H_PARAMS == F_PARAMS && H_SIG == F_SIG && H_SCRIPT == F_SCRIPT
  {}

  /** No header is taken for another. */
  lemma WrittenLine(h: Header, x: Bytes)
    ensures OnLine(h, H_VERSION + x) == h.(ver := x)
    ensures OnLine(h, H_PHASE + x) == h.(phase := x)
    ensures OnLine(h, H_PARAMS + x) == h.(params64 := x)
    ensures OnLine(h, H_SIG + x) == h.(sig64 := x)
    ensures OnLine(h, H_SCRIPT + x) == h.(script64 := x)
  {
    FieldsAgree();
    IsPrefix(F_VERSION, x);
    IsPrefix(F_PHASE, x);
    IsPrefix(F_PARAMS, x);
    IsPrefix(F_SIG, x);
    IsPrefix(F_SCRIPT, x);
    FieldsApart(F_VERSION + x);
    FieldsApart(F_PHASE + x);
    FieldsApart(F_PARAMS + x);
    FieldsApart(F_SIG + x);
    FieldsApart(F_SCRIPT + x);
  }

  lemma {:induction false} OnLinesAppend(h: Header, ls: seq<Bytes>, l: Bytes)
    ensures OnLines(h, ls + [l]) == OnLine(OnLines(h, ls), l)
    decreases |ls|
  {
    if ls == [] {
      assert ls + [l] == [l] && [l][1..] == [];
    } else {
      assert (ls + [l])[1..] == ls[1..] + [l] && (ls + [l])[0] == ls[0];
      OnLinesAppend(OnLine(h, ls[0]), ls[1..], l);
    }
  }

  /** What the header loop makes of a written envelope. */
  function Written(e: Envelope): Header {
    Header("1", e.phase, if e.params == map[] then [] else Encode(ParamBlock(e.params)), Encode(e.sig), Encode(e.script))
  }

  lemma FirstHeaders(phase: Bytes)
    ensures OnLines(NO_HEADER, [VersionText()] + [PhaseText(phase)]) == NO_HEADER.(ver := "1", phase := phase)
  {
    var l1 := [VersionText()];
    OnLinesAppend(NO_HEADER, [], VersionText());
    assert [] + [VersionText()] == l1;
    WrittenLine(NO_HEADER, "1");
    OnLinesAppend(NO_HEADER, l1, PhaseText(phase));
    WrittenLine(OnLines(NO_HEADER, l1), phase);
  }

  lemma HeadersOfWire(e: Envelope)
    ensures OnLines(NO_HEADER, WireLines(e)) == Written(e)
  {
    var l2: seq<Bytes> := [VersionText()] + [PhaseText(e.phase)];
    FirstHeaders(e.phase);
    var l3 := l2;
    if e.params != map[] {
      var x := Encode(ParamBlock(e.params));
      l3 := l2 + [H_PARAMS + x];
      OnLinesAppend(NO_HEADER, l2, H_PARAMS + x);
      WrittenLine(OnLines(NO_HEADER, l2), x);
    }
    SigAndScript(e, l3);
    assert l3 + (if e.sig != [] then [H_SIG + Encode(e.sig)] else [])
              + (if e.script != [] then [H_SCRIPT + Encode(e.script)] else []) == WireLines(e);
  }

  lemma SigAndScript(e: Envelope, ls: seq<Bytes>)
    ensures var all := ls + (if e.sig != [] then [H_SIG + Encode(e.sig)] else [])
                          + (if e.script != [] then [H_SCRIPT + Encode(e.script)] else []);
            var h := OnLines(NO_HEADER, ls);
            OnLines(NO_HEADER, all) == h.(sig64 := if e.sig == [] then h.sig64 else Encode(e.sig),
                                          script64 := if e.script == [] then h.script64 else Encode(e.script))
  {
    var l4 := ls + (if e.sig != [] then [H_SIG + Encode(e.sig)] else []);
    if e.sig != [] {
      OnLinesAppend(NO_HEADER, ls, H_SIG + Encode(e.sig));
      WrittenLine(OnLines(NO_HEADER, ls), Encode(e.sig));
    } else {
      assert l4 == ls;
    }
    if e.script != [] {
      OnLinesAppend(NO_HEADER, l4, H_SCRIPT + Encode(e.script));
      WrittenLine(OnLines(NO_HEADER, l4), Encode(e.script));
    } else {
      assert l4 + [] == l4;
    }
  }

  // ----- params ------------------------------------------------------------------------------------------

  /** The params as the script sees them: a NUL in a value does not survive the shell. */
  function Received(params: map<Bytes, Bytes>): map<Bytes, Bytes> {
    map k | k in params :: DropNul(params[k])
  }

  lemma NameHasNo(k: Bytes, c: Byte)
    requires WriterName(k) && !Word(c)
    ensures c !in k
  {
    GatesAgree(k);
  }

  lemma OneParam(env: map<Bytes, Bytes>, params: map<Bytes, Bytes>, k: Bytes)
    requires k in params && GoodParam(params, k)
    ensures NEWLINE !in ParamLine(params, k)
    ensures OnParam(env, DropNul(ParamLine(params, k))) == Exports(env[k := DropNul(params[k])])
  {
    GatesAgree(k);
    NameHasNo(k, NEWLINE);
    NameHasNo(k, '=');
    NameHasNo(k, '\0');
    var v := params[k];
    DropNulConcat(k + "=", v);
    DropNulConcat(k, "=");
    assert DropNul("=") == "=" && DropNul(k) == k;
    var p := k + ['='] + DropNul(v);
    assert DropNul(ParamLine(params, k)) == p;
    IndexOfConcat(k, '=', DropNul(v));
    assert p[..|k|] == k && p[|k| + 1..] == DropNul(v);
  }

  /** The part of the params under the given names, as the script sees it. */
  function ReceivedUnder(params: map<Bytes, Bytes>, names: seq<Bytes>): map<Bytes, Bytes> {
    map k | k in names && k in params :: DropNul(params[k])
  }

  lemma ReceivedUnderStep(env: map<Bytes, Bytes>, params: map<Bytes, Bytes>, k: Bytes, rest: seq<Bytes>)
    requires k in params
    ensures env[k := DropNul(params[k])] + ReceivedUnder(params, rest) == env + ReceivedUnder(params, [k] + rest)
  {
  }

  lemma {:induction false} AllParams(env: map<Bytes, Bytes>, params: map<Bytes, Bytes>, names: seq<Bytes>)
    requires forall k <- names :: k in params && GoodParam(params, k)
    ensures OnParams(env, Dropped(ParamLines(params, names))) == Exports(env + ReceivedUnder(params, names))
    decreases |names|
  {
    if names != [] {
      var k: Bytes, rest: seq<Bytes> := names[0], names[1..];
      assert k in names && names == [k] + rest;
      OneParam(env, params, k);
      AllParams(env[k := DropNul(params[k])], params, rest);
      ReceivedUnderStep(env, params, k, rest);
      var ls := Dropped(ParamLines(params, names));
      assert ls[0] == DropNul(ParamLine(params, k)) && ls[1..] == Dropped(ParamLines(params, rest));
    }
  }

  lemma {:induction false} ParamLinesAreLines(params: map<Bytes, Bytes>, names: seq<Bytes>)
    requires forall k <- names :: k in params && GoodParam(params, k)
    ensures forall l <- ParamLines(params, names) :: NEWLINE !in l
  {
    if names != [] {
      assert names[0] in names;
      OneParam(map[], params, names[0]);
      ParamLinesAreLines(params, names[1..]);
    }
  }

  lemma AllParamsReceived(params: map<Bytes, Bytes>, names: seq<Bytes>)
    requires GoodParams(params) && forall k :: k in names <==> k in params
    ensures OnParams(map[], Dropped(ParamLines(params, names))) == Exports(Received(params))
  {
    AllParams(map[], params, names);
    assert map[] + ReceivedUnder(params, names) == Received(params);
  }

  lemma ParamsRoundTrip(params: map<Bytes, Bytes>)
    requires GoodParams(params)
    ensures OnParams(map[], Lines(ParamBlock(params))) == Exports(Received(params))
  {
    var names: seq<Bytes> := SortedKeys(params.Keys);
    ParamLinesAreLines(params, names);
    LinesOfUnlines(ParamLines(params, names));
    AllParamsReceived(params, names);
  }

  lemma WireRoundTrip(e: Envelope)
    requires Acceptable(e)
    ensures OnLines(NO_HEADER, Lines(Wire(e))) == Written(e)
  {
    WireIsLines(e);
    LinesOfUnlines(WireLines(e));
    OneLinesStay(WireLines(e));
    HeadersOfWire(e);
  }

  /** The round trip: the shim recovers exactly the phase, the script bytes, the
      signature bytes and the params the writer was given. */
  lemma EnvelopeRoundTrip(e: Envelope, gate: (Bytes, Bytes) -> bool)
    requires Acceptable(e) && (e.phase != PROBE ==> gate(e.script, e.sig))
    ensures ShimOutcome(OnLines(NO_HEADER, Lines(Wire(e))), gate)
         == if e.phase == PROBE then Facts else Execute(e.phase, e.script, e.sig, Received(e.params))
  {
    WireRoundTrip(e);
    OneLinePhase(e.phase);
    if e.phase != PROBE {
      WrittenCode(e);
      WrittenParams(e);
      PhasesAgree(e.phase);
    }
  }

  /** Script and signature come out of the written headers as they went in. */
  lemma WrittenCode(e: Envelope)
    requires e.script != [] && e.sig != []
    ensures var h := Written(e);
            && h.sig64 != [] && h.script64 != [] && Decode(h.sig64) == Good(e.sig) && Decode(h.script64) == Good(e.script)
  {
    EncodeIsOneLine(e.sig);
    EncodeIsOneLine(e.script);
    RoundTrip(e.sig);
    RoundTrip(e.script);
  }

  /** And so do the params. */
  lemma WrittenParams(e: Envelope)
    requires GoodParams(e.params)
    ensures var p := Written(e).params64;
            if e.params == map[] then p == [] && Received(e.params) == map[]
            else p != [] && Decode(p).Good? && OnParams(map[], Lines(Decode(p).bytes)) == Exports(Received(e.params))
  {
    if e.params != map[] {
      RoundTrip(ParamBlock(e.params));
      ParamsRoundTrip(e.params);
      BlockNotEmpty(e.params);
      EncodeIsOneLine(ParamBlock(e.params));
    } else {
      assert Received(e.params) == map[];
    }
  }

  lemma BlockNotEmpty(params: map<Bytes, Bytes>)
    requires params != map[]
    ensures ParamBlock(params) != []
  {
    var names: seq<Bytes> := SortedKeys(params.Keys);
    assert params.Keys != {};
    assert names != [];
  }

  /** And the params are seen unchanged exactly when no value holds a NUL. */
  lemma ReceivedUnchanged(params: map<Bytes, Bytes>)
    ensures Received(params) == params <==> forall k <- params :: '\0' !in params[k]
  {
    if Received(params) == params {
      forall k <- params ensures '\0' !in params[k] {
        assert Received(params)[k] == DropNul(params[k]);
      }
    }
  }

  /** What the shim does with the bytes on its standard input. */
  method Shim(wire: Bytes, gate: (Bytes, Bytes) -> bool) returns (o: Reaction)
    ensures Reacts(wire, gate, o)
    // whatever they are, only what passed the gate runs, in a signed phase, under vetted names
    ensures o.Execute? ==> SignedPhase(o.phase) && gate(o.script, o.sig) && forall k <- o.env :: ReaderName(k)
    // what the writer was given is what runs
    ensures forall e: Envelope :: Acceptable(e) && wire == Wire(e) && (e.phase != PROBE ==> gate(e.script, e.sig)) ==>
              o == if e.phase == PROBE then Facts else Execute(e.phase, e.script, e.sig, Received(e.params))
    // and a signature that does not verify is refused as such
    ensures forall e: Envelope :: Acceptable(e) && wire == Wire(e) && e.phase != PROBE && !gate(e.script, e.sig) ==>
              o == Exit(2)
  {
    o := CheckAndRun(wire, gate);
    OutcomeReacts(wire, gate);
    OnlyGatedCodeRuns(wire, gate);
    forall e: Envelope | Acceptable(e) && wire == Wire(e)
      ensures (e.phase != PROBE ==> gate(e.script, e.sig)) ==>
                o == if e.phase == PROBE then Facts else Execute(e.phase, e.script, e.sig, Received(e.params))
      ensures e.phase != PROBE && !gate(e.script, e.sig) ==> o == Exit(2)
    {
      if e.phase != PROBE ==> gate(e.script, e.sig) {
        EnvelopeRoundTrip(e, gate);
      } else {
        RefusedBySignature(e, gate);
      }
    }
  }

  lemma RefusedBySignature(e: Envelope, gate: (Bytes, Bytes) -> bool)
    requires Acceptable(e) && e.phase != PROBE && !gate(e.script, e.sig)
    ensures ShimOutcome(OnLines(NO_HEADER, Lines(Wire(e))), gate) == Exit(2)
  {
    WireRoundTrip(e);
    OneLinePhase(e.phase);
    WrittenCode(e);
  }
}
