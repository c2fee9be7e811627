/**
 The verified-execution envelope: the Go writer, the shell reader in kpssh-shim,
 and the round trip between them.
 */
module Envelope {
  import opened Options
  import opened Bytes
  import opened Base64

  /** Params are NAME to value, as the script will see them exported. */
  datatype Envelope = Envelope(phase: Bytes, script: Bytes, sig: Bytes, params: map<Bytes, Bytes>)

  const PROBE: Bytes := "probe"

  predicate SignedPhase(p: Bytes) {
    p in ["install", "join", "leave", "uninstall", "reboot"]
  }

  predicate ValidPhase(p: Bytes) {
    p == PROBE || SignedPhase(p)
  }

  // ----- names ------------------------------------------------------------------------------

  const PREFIX: Bytes := "KPSSH_"

  /** The writer's grammar: ^KPSSH_[A-Za-z0-9_]+$ */
  predicate WriterName(k: Bytes) {
    |k| > |PREFIX| && k[..|PREFIX|] == PREFIX && forall i :: |PREFIX| <= i < |k| ==> Word(k[i])
  }

  /** The reader's two patterns: KPSSH_?* matches, and *[!A-Za-z0-9_]* does not. */
  predicate ReaderName(k: Bytes) {
    |k| >= 7 && k[..6] == "KPSSH_" && !exists i :: 0 <= i < |k| && !Word(k[i])
  }

  /** The two gates agree on every name, and this is what they let through. */
  lemma GatesAgree(k: Bytes)
    ensures WriterName(k) <==> ReaderName(k)
    ensures WriterName(k) <==>
              && |k| > 6 && k[..6] == "KPSSH_"
              && forall i :: 6 <= i < |k| ==> k[i] in UPPER || k[i] in LOWER || k[i] in DECIMAL || k[i] == '_'
  {
    assert forall i :: 0 <= i < |PREFIX| ==> Word(PREFIX[i]);
    if WriterName(k) {
      forall i | 0 <= i < |k| ensures Word(k[i]) {
        if i < |PREFIX| {
          assert k[i] == k[..|PREFIX|][i];
        }
      }
    }
    forall i | 0 <= i < |k| ensures Word(k[i]) <==> k[i] in UPPER || k[i] in LOWER || k[i] in DECIMAL || k[i] == '_' {
      WordBytes(k[i]);
    }
  }

  lemma WordBytes(c: Byte)
    ensures Word(c) <==> c in UPPER || c in LOWER || c in DECIMAL || c == '_'
  {
    UpperBytes(c);
    LowerBytes(c);
    DecimalBytes(c);
  }

  lemma UpperBytes(c: Byte)
    ensures c in UPPER <==> 'A' <= c <= 'Z'
  {
    assert 'A' <= c <= 'Z' ==> UPPER[c as int - 65] == c;
  }

  lemma LowerBytes(c: Byte)
    ensures c in LOWER <==> 'a' <= c <= 'z'
  {
    assert 'a' <= c <= 'z' ==> LOWER[c as int - 97] == c;
  }

  lemma DecimalBytes(c: Byte)
    ensures c in DECIMAL <==> '0' <= c <= '9'
  {
    assert '0' <= c <= '9' ==> DECIMAL[c as int - 48] == c;
  }

  // ----- lines --------------------------------------------------------------------------------

  const NEWLINE: Byte := '\n'

  function Unlines(ls: seq<Bytes>): Bytes {
    if ls == [] then [] else ls[0] + [NEWLINE] + Unlines(ls[1..])
  }

  lemma {:induction false} UnlinesAppend(ls: seq<Bytes>, l: Bytes)
    ensures Unlines(ls + [l]) == Unlines(ls) + l + [NEWLINE]
  {
    if ls == [] {
      assert ls + [l] == [l];
      assert Unlines([l]) == l + [NEWLINE] + Unlines([l][1..]);
    } else {
      assert (ls + [l])[1..] == ls[1..] + [l] && (ls + [l])[0] == ls[0];
      UnlinesAppend(ls[1..], l);
    }
  }

  /** A shell variable cannot hold a NUL byte: `read` drops them. */
  function DropNul(s: Bytes): (r: Bytes)
    ensures r == s <==> '\0' !in s
    ensures |r| <= |s|
  {
    if s == [] then []
    else if s[0] == '\0' then DropNul(s[1..])
    else
      assert s == [s[0]] + s[1..];
      [s[0]] + DropNul(s[1..])
  }

  lemma {:induction false} DropNulConcat(a: Bytes, b: Bytes)
    ensures DropNul(a + b) == DropNul(a) + DropNul(b)
  {
    if a == [] {
      assert a + b == b;
    } else {
      assert (a + b)[1..] == a[1..] + b;
      DropNulConcat(a[1..], b);
    }
  }

  /** `while IFS= read -r line || [ -n "$line" ]`: a last line needs no newline. */
  function Lines(s: Bytes): seq<Bytes>
    decreases |s|
  {
    if s == [] then []
    else
      var i := IndexOf(s, NEWLINE);
      [DropNul(s[..i])] + (if i < |s| then Lines(s[i + 1..]) else [])
  }

  function Dropped(ls: seq<Bytes>): seq<Bytes> {
    if ls == [] then [] else [DropNul(ls[0])] + Dropped(ls[1..])
  }

  lemma FirstLine(l: Bytes, rest: Bytes)
    requires NEWLINE !in l
    ensures Lines(l + [NEWLINE] + rest) == [DropNul(l)] + Lines(rest)
  {
    var s := l + [NEWLINE] + rest;
    IndexOfConcat(l, NEWLINE, rest);
    assert s[..|l|] == l && s[|l| + 1..] == rest;
  }

  /** A last line needs no newline. */
  lemma LastLine(last: Bytes)
    requires NEWLINE !in last && last != []
    ensures Lines(last) == [DropNul(last)]
  {
    IndexOfNone(last, NEWLINE);
    assert last[..|last|] == last;
    assert [DropNul(last)] + [] == [DropNul(last)];
  }

  lemma {:induction false} LinesOfUnlines(ls: seq<Bytes>)
    requires forall l <- ls :: NEWLINE !in l
    ensures Lines(Unlines(ls)) == Dropped(ls)
  {
    if ls != [] {
      FirstLine(ls[0], Unlines(ls[1..]));
      LinesOfUnlines(ls[1..]);
    }
  }

  // ----- the writer -------------------------------------------------------------------------------

  predicate Acceptable(e: Envelope) {
    && e.phase in ["probe", "install", "join", "leave", "uninstall", "reboot"]
    && (e.phase != "probe" ==> e.script != [] && e.sig != [])
    && forall k <- e.params :: WriterName(k) && '\n' !in e.params[k]
  }

  predicate GoodParam(params: map<Bytes, Bytes>, k: Bytes)
    requires k in params
  {
    WriterName(k) && NEWLINE !in params[k]
  }

  predicate GoodParams(params: map<Bytes, Bytes>) {
    forall k <- params :: GoodParam(params, k)
  }

  function ParamLine(params: map<Bytes, Bytes>, k: Bytes): Bytes
    requires k in params
  {
    k + "=" + params[k]
  }

  function ParamLines(params: map<Bytes, Bytes>, names: seq<Bytes>): (ls: seq<Bytes>)
    requires forall k <- names :: k in params
    ensures |ls| == |names|
  {
    if names == [] then [] else [ParamLine(params, names[0])] + ParamLines(params, names[1..])
  }

  function ParamBlock(params: map<Bytes, Bytes>): Bytes {
    Unlines(ParamLines(params, SortedKeys(params.Keys)))
  }

  const H_VERSION: Bytes := "kpssh-envelope: "
  const H_PHASE: Bytes := "phase: "
  const H_PARAMS: Bytes := "params-b64: "
  const H_SIG: Bytes := "sig-b64: "
  const H_SCRIPT: Bytes := "script-b64: "

  function VersionText(): Bytes {
    H_VERSION + "1"
  }

  function PhaseText(phase: Bytes): Bytes {
    H_PHASE + phase
  }

  function ParamsText(block: Bytes): Bytes {
    H_PARAMS + Encode(block)
  }

  function SigText(sig: Bytes): Bytes {
    H_SIG + Encode(sig)
  }

  function ScriptText(script: Bytes): Bytes {
    H_SCRIPT + Encode(script)
  }

  function LineIf(present: bool, l: Bytes): seq<Bytes> {
    if present then [l] else []
  }

  function WireLines(e: Envelope): seq<Bytes> {
    [VersionText()]
    + [PhaseText(e.phase)]
    + LineIf(e.params != map[], ParamsText(ParamBlock(e.params)))
    + LineIf(e.sig != [], SigText(e.sig))
    + LineIf(e.script != [], ScriptText(e.script))
  }

  function Wire(e: Envelope): Bytes {
    Unlines(WireLines(e))
  }

  /** The text on the wire. */
  lemma WireText(e: Envelope)
    ensures Wire(e)
         == "kpssh-envelope: 1" + "\n"
            + ("phase: " + e.phase + "\n")
            + (if e.params == map[] then [] else "params-b64: " + Encode(ParamBlock(e.params)) + "\n")
            + (if e.sig == [] then [] else "sig-b64: " + Encode(e.sig) + "\n")
            + (if e.script == [] then [] else "script-b64: " + Encode(e.script) + "\n")
  {
    var version: seq<Bytes>, phase: seq<Bytes> := [VersionText()], [PhaseText(e.phase)];
    var params := LineIf(e.params != map[], ParamsText(ParamBlock(e.params)));
    var sig, script := LineIf(e.sig != [], SigText(e.sig)), LineIf(e.script != [], ScriptText(e.script));
    FiveParts(version, phase, params, sig, script);
    UnlinesIf(true, VersionText());
    UnlinesIf(true, PhaseText(e.phase));
    UnlinesIf(e.params != map[], ParamsText(ParamBlock(e.params)));
    UnlinesIf(e.sig != [], SigText(e.sig));
    UnlinesIf(e.script != [], ScriptText(e.script));
    VersionLiteral();
  }

  lemma VersionLiteral()
    ensures VersionText() == "kpssh-envelope: 1"
  {}

  lemma FiveParts(a: seq<Bytes>, b: seq<Bytes>, c: seq<Bytes>, d: seq<Bytes>, e: seq<Bytes>)
    ensures Unlines(a + b + c + d + e) == Unlines(a) + Unlines(b) + Unlines(c) + Unlines(d) + Unlines(e)
  {
    UnlinesConcat(a + b + c + d, e);
    UnlinesConcat(a + b + c, d);
    UnlinesConcat(a + b, c);
    UnlinesConcat(a, b);
  }

  lemma UnlinesIf(present: bool, l: Bytes)
    ensures Unlines(LineIf(present, l)) == if present then l + [NEWLINE] else []
  {
    assert [l][1..] == [];
  }

  lemma {:induction false} UnlinesConcat(a: seq<Bytes>, b: seq<Bytes>)
    ensures Unlines(a + b) == Unlines(a) + Unlines(b)
  {
    if a == [] {
      assert a + b == b;
    } else {
      assert (a + b)[1..] == a[1..] + b;
      UnlinesConcat(a[1..], b);
    }
  }

  /** The params block lists the params in the byte order of their names: there is no
      other listing in that order. */
  lemma BlockIsSorted(params: map<Bytes, Bytes>, names: seq<Bytes>)
    requires (forall k :: k in names <==> k in params) && Rising(names)
    ensures ParamBlock(params) == Unlines(ParamLines(params, names))
  {
    RisingIsSorted(names, params.Keys);
  }

  lemma {:induction false} ParamLinesAppend(params: map<Bytes, Bytes>, names: seq<Bytes>, k: Bytes)
    requires (forall n <- names :: n in params) && k in params
    ensures ParamLines(params, names + [k]) == ParamLines(params, names) + [ParamLine(params, k)]
  {
    if names == [] {
      assert names + [k] == [k];
      assert ParamLines(params, [k]) == [ParamLine(params, k)] + ParamLines(params, [k][1..]);
    } else {
      assert (names + [k])[1..] == names[1..] + [k];
      ParamLinesAppend(params, names[1..], k);
    }
  }

  lemma BlockAppend(params: map<Bytes, Bytes>, names: seq<Bytes>, i: nat)
    requires (forall n <- names :: n in params) && i < |names|
    ensures Unlines(ParamLines(params, names[..i + 1]))
         == Unlines(ParamLines(params, names[..i])) + ParamLine(params, names[i]) + [NEWLINE]
  {
    assert names[..i + 1] == names[..i] + [names[i]];
    ParamLinesAppend(params, names[..i], names[i]);
    UnlinesAppend(ParamLines(params, names[..i]), ParamLine(params, names[i]));
  }

  /** The params block, refusing the first bad name or value. */
  method MarshalParams(params: map<Bytes, Bytes>, names: seq<Bytes>) returns (block: Option<Bytes>)
    requires forall k :: k in names <==> k in params
    ensures block == if GoodParams(params) then Some(Unlines(ParamLines(params, names))) else None
  {
    var pb: Bytes := [];
    for i := 0 to |names|
      invariant pb == Unlines(ParamLines(params, names[..i]))
      invariant forall j :: 0 <= j < i ==> GoodParam(params, names[j])
    {
      if !GoodParam(params, names[i]) {
        return None;
      }
      BlockAppend(params, names, i);
      pb := pb + ParamLine(params, names[i]) + [NEWLINE];
    }
    assert names[..|names|] == names;
    block := Some(pb);
  }

  /** Appends a line, when it is there, to the text and to the lines it stands for. */
  method AddLine(b: Bytes, ghost ls: seq<Bytes>, present: bool, l: Bytes) returns (b': Bytes)
    requires b == Unlines(ls)
    ensures b' == Unlines(ls + LineIf(present, l))
  {
    b' := b;
    if present {
      UnlinesAppend(ls, l);
      b' := b' + l + [NEWLINE];
    } else {
      assert ls + LineIf(present, l) == ls;
    }
  }

  /** The lines of an envelope whose params are already a block. */
  method WriteLines(e: Envelope, block: Bytes) returns (b: Bytes)
    requires block == ParamBlock(e.params)
    ensures b == Wire(e)
  {
    ghost var version, phase := [VersionText()], [PhaseText(e.phase)];
    ghost var params := LineIf(e.params != map[], ParamsText(block));
    b := AddLine([], [], true, VersionText());
    b := AddLine(b, [] + version, true, PhaseText(e.phase));
    assert [] + version + phase == version + phase;
    b := AddLine(b, version + phase, e.params != map[], ParamsText(block));
    b := AddLine(b, version + phase + params, e.sig != [], SigText(e.sig));
    b := AddLine(b, version + phase + params + LineIf(e.sig != [], SigText(e.sig)), e.script != [], ScriptText(e.script));
  }

  /** Marshal: every acceptable envelope is written, every other refused. */
  method Marshal(e: Envelope) returns (wire: Option<Bytes>)
    ensures wire == if Acceptable(e) then Some(Wire(e)) else None
  {
    if !ValidPhase(e.phase) || (e.phase != PROBE && (e.script == [] || e.sig == [])) {
      return None;
    }
    var block := MarshalParams(e.params, SortedKeys(e.params.Keys));
    if block.None? {
      return None;
    }
    var b := WriteLines(e, block.value);
    wire := Some(b);
  }
}
