/**
 The export preamble of raw execution: what `Run` feeds to `bash -s`, and how a
 POSIX shell reads it back (sections 2.2.1 and 2.2.2 of the Shell Command
 Language: backslash and single-quote quoting).
 */
module Preamble {
  import opened Options
  import opened Bytes

  const QUOTE: Byte := '\''
  const BACKSLASH: Byte := '\\'
  const NL: Byte := '\n'
  const NUL: Byte := '\0'

  // ----- the writer --------------------------------------------------------------------------

  /** A POSIX shell identifier: ^[A-Za-z_][A-Za-z0-9_]*$ */
  predicate EnvName(k: Bytes) {
    k != [] && !('0' <= k[0] <= '9') && forall c <- k :: Word(c)
  }

  /** What names may be, spelled out. */
  predicate Identifier(k: Bytes) {
    && k != []
    && forall i :: 0 <= i < |k| ==>
         'A' <= k[i] <= 'Z' || 'a' <= k[i] <= 'z' || k[i] == '_' || (i > 0 && '0' <= k[i] <= '9')
  }

  lemma NamesAreIdentifiers(k: Bytes)
    ensures EnvName(k) <==> Identifier(k)
  {
    forall i | 0 <= i < |k| ensures k[i] in k {}
    if Identifier(k) {
      forall c <- k ensures Word(c) {
        var i :| 0 <= i < |k| && k[i] == c;
      }
    }
  }

  /** Every quote becomes quote, backslash-quote, quote. */
  function QuoteBody(s: Bytes): Bytes {
    if s == [] then []
    else (if s[0] == QUOTE then [QUOTE, BACKSLASH, QUOTE, QUOTE] else [s[0]]) + QuoteBody(s[1..])
  }

  function ShellQuote(s: Bytes): Bytes {
    [QUOTE] + QuoteBody(s) + [QUOTE]
  }

  const SET_LINE: Bytes := "set -euo pipefail\n"
  const EXPORT: Bytes := "export"

  function ExportLine(k: Bytes, v: Bytes): Bytes {
    EXPORT + [' '] + (k + ['=']) + ShellQuote(v) + [NL]
  }

  function ExportLines(env: map<Bytes, Bytes>, names: seq<Bytes>): Bytes
    requires forall k <- names :: k in env
  {
    if names == [] then [] else ExportLine(names[0], env[names[0]]) + ExportLines(env, names[1..])
  }

  function Text(env: map<Bytes, Bytes>, names: seq<Bytes>, script: Bytes): Bytes
    requires forall k <- names :: k in env
  {
    SET_LINE + (ExportLines(env, names) + script)
  }

  lemma ExportLinesOne(env: map<Bytes, Bytes>, k: Bytes)
    requires k in env
    ensures ExportLines(env, [k]) == ExportLine(k, env[k])
  {
    var names: seq<Bytes> := [k];
    assert names[1..] == [];
    assert ExportLines(env, names[1..]) == [];
  }

  lemma Regroup(a: Bytes, b: Bytes, c: Bytes, bc: Bytes)
    requires bc == b + c
    ensures a + bc == a + b + c
  {}

  lemma {:induction false} ExportLinesAppend(env: map<Bytes, Bytes>, names: seq<Bytes>, k: Bytes)
    requires (forall n <- names :: n in env) && k in env
    ensures ExportLines(env, names + [k]) == ExportLines(env, names) + ExportLine(k, env[k])
  {
    if names == [] {
      assert names + [k] == [k];
      ExportLinesOne(env, k);
    } else {
      assert (names + [k])[1..] == names[1..] + [k] && (names + [k])[0] == names[0];
      ExportLinesAppend(env, names[1..], k);
      Regroup(ExportLine(names[0], env[names[0]]), ExportLines(env, names[1..]), ExportLine(k, env[k]),
              ExportLines(env, names[1..] + [k]));
    }
  }

  /** One export line per name, in order; refused when a name is not an identifier. */
  method WriteExports(env: map<Bytes, Bytes>, names: seq<Bytes>) returns (r: Option<Bytes>)
    requires forall k <- names :: k in env
    ensures r == if forall k <- names :: EnvName(k) then Some(ExportLines(env, names)) else None
  {
    var sb: Bytes := [];
    for i := 0 to |names|
      invariant sb == ExportLines(env, names[..i])
      invariant forall j :: 0 <= j < i ==> EnvName(names[j])
    {
      if !EnvName(names[i]) {
        return None;
      }
      assert names[..i + 1] == names[..i] + [names[i]];
      ExportLinesAppend(env, names[..i], names[i]);
      sb := sb + ExportLine(names[i], env[names[i]]);
    }
    assert names[..|names|] == names;
    r := Some(sb);
  }

  /** The text `Run` sends. */
  method BuildText(env: map<Bytes, Bytes>, script: Bytes) returns (r: Option<Bytes>)
    ensures r == if forall k <- env :: Identifier(k) then Some(Text(env, SortedKeys(env.Keys), script)) else None
  {
    forall k <- env ensures EnvName(k) <==> Identifier(k) {
      NamesAreIdentifiers(k);
    }
    var names: seq<Bytes> := SortedKeys(env.Keys);
    var lines := WriteExports(env, names);
    if lines.None? {
      return None;
    }
    r := Some(SET_LINE + (lines.value + script));
  }

  // ----- the shell -----------------------------------------------------------------------------

  /** Between words, in a word, inside single quotes, or after a backslash. */
  datatype Mode = Blank | InWord(w: Bytes) | Quoted(w: Bytes) | Escaped(inWord: bool, w: Bytes)

  datatype Lexed = Stuck | Command(words: seq<Bytes>, rest: Bytes)

  /** Bytes that mean themselves outside quotes.  Any other unquoted byte would be
      an operator, an expansion, a pattern or a comment: the reader gives up on it. */
  predicate Plain(c: Byte) {
    Word(c) || c == '-' || c == '=' || c == '.' || c == '/' || c == ':' || c == ','
  }

  function WordsWith(words: seq<Bytes>, mode: Mode): seq<Bytes> {
    if mode.InWord? then words + [mode.w] else words
  }

  function Grown(mode: Mode): Bytes {
    if mode.InWord? then mode.w else []
  }

  /** Reads one simple command, up to and including its newline.  A NUL has no place in
      shell input; that the reader gives up on one is this model's convention. */
  function Lex(s: Bytes, words: seq<Bytes>, mode: Mode): Lexed
    decreases |s|
  {
    if s == [] || s[0] == NUL then Stuck
    else
      var c := s[0];
      match mode
      case Quoted(w) => Lex(s[1..], words, if c == QUOTE then InWord(w) else Quoted(w + [c]))
      case Escaped(inWord, w) =>
        Lex(s[1..], words, if c == NL then (if inWord then InWord(w) else Blank) else InWord(w + [c]))
      case _ =>
        if c == NL then Command(WordsWith(words, mode), s[1..])
        else if c == ' ' || c == '\t' then Lex(s[1..], WordsWith(words, mode), Blank)
        else if c == QUOTE then Lex(s[1..], words, Quoted(Grown(mode)))
        else if c == BACKSLASH then Lex(s[1..], words, Escaped(mode.InWord?, Grown(mode)))
        else if Plain(c) then Lex(s[1..], words, InWord(Grown(mode) + [c]))
        else Stuck
  }

  datatype Program = Unreadable | Program(commands: seq<seq<Bytes>>, rest: Bytes)

  /** The first `n` commands, and the text behind them. */
  function Commands(s: Bytes, n: nat): Program
    decreases n
  {
    if n == 0 then Program([], s)
    else
      var c := Lex(s, [], Blank);
      if c.Stuck? then Unreadable
      else
        var more := Commands(c.rest, n - 1);
        if more.Unreadable? then Unreadable else Program([c.words] + more.commands, more.rest)
  }

  const SET_WORDS: seq<Bytes> := ["set", "-euo", "pipefail"]

  // ----- reading back what was written -------------------------------------------------------------

  lemma LexPlainByte(c: Byte, rest: Bytes, words: seq<Bytes>, mode: Mode)
    requires (mode.Blank? || mode.InWord?) && Plain(c)
    ensures Lex([c] + rest, words, mode) == Lex(rest, words, InWord(Grown(mode) + [c]))
  {
    assert ([c] + rest)[1..] == rest;
  }

  /** Plain bytes grow the word they are in. */
  lemma {:induction false} LexPlain(a: Bytes, rest: Bytes, words: seq<Bytes>, mode: Mode)
    requires (mode.Blank? || mode.InWord?) && a != [] && forall c <- a :: Plain(c)
    ensures Lex(a + rest, words, mode) == Lex(rest, words, InWord(Grown(mode) + a))
    decreases |a|
  {
    var tail: Bytes := a[1..];
    assert a + rest == [a[0]] + (tail + rest) && a[0] in a;
    LexPlainByte(a[0], tail + rest, words, mode);
    if tail == [] {
      assert tail + rest == rest && [a[0]] == a;
    } else {
      LexPlain(tail, rest, words, InWord(Grown(mode) + [a[0]]));
      assert Grown(mode) + [a[0]] + tail == Grown(mode) + a;
    }
  }

  /** Inside quotes, a quoted body and its closing quote read as the body itself. */
  lemma {:induction false} LexBody(v: Bytes, rest: Bytes, words: seq<Bytes>, w: Bytes)
    requires NUL !in v
    ensures Lex(QuoteBody(v) + [QUOTE] + rest, words, Quoted(w)) == Lex(rest, words, InWord(w + v))
  {
    var s := QuoteBody(v) + [QUOTE] + rest;
    if v == [] {
      assert s == [QUOTE] + rest && s[1..] == rest && w + v == w;
    } else if v[0] != QUOTE {
      var tail := QuoteBody(v[1..]) + [QUOTE] + rest;
      assert s == [v[0]] + tail;
      assert s[1..] == tail;
      LexBody(v[1..], rest, words, w + [v[0]]);
      assert w + [v[0]] + v[1..] == w + v;
    } else {
      var tail := QuoteBody(v[1..]) + [QUOTE] + rest;
      assert s == [QUOTE] + ([BACKSLASH] + ([QUOTE] + ([QUOTE] + tail)));
      LexEscapedQuote(tail, words, w);
      LexBody(v[1..], rest, words, w + [QUOTE]);
      assert w + [QUOTE] + v[1..] == w + v;
    }
  }

  lemma LexEscapedQuote(tail: Bytes, words: seq<Bytes>, w: Bytes)
    ensures Lex([QUOTE] + ([BACKSLASH] + ([QUOTE] + ([QUOTE] + tail))), words, Quoted(w))
         == Lex(tail, words, Quoted(w + [QUOTE]))
  {
    var s1 := [QUOTE] + tail;
    var s2 := [QUOTE] + s1;
    var s3 := [BACKSLASH] + s2;
    var s4 := [QUOTE] + s3;
    assert s4[1..] == s3 && s3[1..] == s2 && s2[1..] == s1 && s1[1..] == tail;
    assert Lex(s4, words, Quoted(w)) == Lex(s3, words, InWord(w));
    assert Lex(s3, words, InWord(w)) == Lex(s2, words, Escaped(true, w));
    assert Lex(s2, words, Escaped(true, w)) == Lex(s1, words, InWord(w + [QUOTE]));
    assert Lex(s1, words, InWord(w + [QUOTE])) == Lex(tail, words, Quoted(w + [QUOTE]));
  }

  /** A NUL cannot be read, quoted or not. */
  lemma {:induction false} LexNul(v: Bytes, rest: Bytes, words: seq<Bytes>, w: Bytes)
    requires NUL in v
    ensures Lex(QuoteBody(v) + [QUOTE] + rest, words, Quoted(w)) == Stuck
  {
    var s := QuoteBody(v) + [QUOTE] + rest;
    var tail := QuoteBody(v[1..]) + [QUOTE] + rest;
    assert v == [v[0]] + v[1..];
    if v[0] == QUOTE {
      assert s == [QUOTE] + ([BACKSLASH] + ([QUOTE] + ([QUOTE] + tail)));
      LexEscapedQuote(tail, words, w);
      LexNul(v[1..], rest, words, w + [QUOTE]);
    } else if v[0] != NUL {
      assert s == [v[0]] + tail;
      assert s[1..] == tail;
      LexNul(v[1..], rest, words, w + [v[0]]);
    } else {
      assert s[0] == NUL;
    }
  }

  /** A plain word and the blank behind it. */
  lemma LexWord(a: Bytes, rest: Bytes, words: seq<Bytes>)
    requires a != [] && forall c <- a :: Plain(c)
    ensures Lex(a + ([' '] + rest), words, Blank) == Lex(rest, words + [a], Blank)
  {
    LexPlain(a, [' '] + rest, words, Blank);
    assert [] + a == a && ([' '] + rest)[1..] == rest;
  }

  /** A plain word that a quote continues. */
  lemma LexIntoQuote(a: Bytes, rest: Bytes, words: seq<Bytes>)
    requires a != [] && forall c <- a :: Plain(c)
    ensures Lex(a + ([QUOTE] + rest), words, Blank) == Lex(rest, words, Quoted(a))
  {
    LexPlain(a, [QUOTE] + rest, words, Blank);
    assert [] + a == a && ([QUOTE] + rest)[1..] == rest;
  }

  /** A plain word that ends the command. */
  lemma LexLastWord(a: Bytes, rest: Bytes, words: seq<Bytes>)
    requires a != [] && forall c <- a :: Plain(c)
    ensures Lex(a + ([NL] + rest), words, Blank) == Command(words + [a], rest)
  {
    LexPlain(a, [NL] + rest, words, Blank);
    assert [] + a == a && ([NL] + rest)[1..] == rest;
  }

  lemma ExportLineParts(k: Bytes, v: Bytes, rest: Bytes)
    ensures ExportLine(k, v) + rest
         == EXPORT + ([' '] + ((k + ['=']) + ([QUOTE] + (QuoteBody(v) + [QUOTE] + ([NL] + rest)))))
  {
    var e, n, q := EXPORT, k + ['='], QuoteBody(v);
    assert e + [' '] + n + ([QUOTE] + q + [QUOTE]) + [NL] + rest
        == e + ([' '] + (n + ([QUOTE] + (q + [QUOTE] + ([NL] + rest)))));
  }

  /** Up to the quoted value, an export line reads as two words. */
  lemma LexExportHead(k: Bytes, v: Bytes, rest: Bytes)
    requires EnvName(k)
    ensures Lex(ExportLine(k, v) + rest, [], Blank)
         == Lex(QuoteBody(v) + [QUOTE] + ([NL] + rest), [EXPORT], Quoted(k + ['=']))
  {
    var value := QuoteBody(v) + [QUOTE] + ([NL] + rest);
    ExportLineParts(k, v, rest);
    PlainExport();
    LexWord(EXPORT, (k + ['=']) + ([QUOTE] + value), []);
    assert [] + [EXPORT] == [EXPORT];
    LexIntoQuote(k + ['='], value, [EXPORT]);
  }

  lemma PlainExport()
    ensures EXPORT != [] && forall c <- EXPORT :: Plain(c)
  {}

  lemma LexExport(k: Bytes, v: Bytes, rest: Bytes)
    requires EnvName(k)
    ensures Lex(ExportLine(k, v) + rest, [], Blank)
         == if NUL in v then Stuck else Command([EXPORT, k + ['='] + v], rest)
  {
    LexExportHead(k, v, rest);
    if NUL in v {
      LexNul(v, [NL] + rest, [EXPORT], k + ['=']);
    } else {
      LexBody(v, [NL] + rest, [EXPORT], k + ['=']);
      assert ([NL] + rest)[1..] == rest;
      assert WordsWith([EXPORT], InWord(k + ['='] + v)) == [EXPORT, k + ['='] + v];
    }
  }

  function ExportCommands(env: map<Bytes, Bytes>, names: seq<Bytes>): seq<seq<Bytes>>
    requires forall k <- names :: k in env
  {
    if names == [] then [] else [["export", names[0] + ['='] + env[names[0]]]] + ExportCommands(env, names[1..])
  }

  lemma {:induction false} ReadExports(env: map<Bytes, Bytes>, names: seq<Bytes>, script: Bytes)
    requires forall k <- names :: k in env && EnvName(k)
    ensures Commands(ExportLines(env, names) + script, |names|)
         == if exists k <- names :: NUL in env[k] then Unreadable
            else Program(ExportCommands(env, names), script)
  {
    if names == [] {
      assert ExportLines(env, names) + script == script;
    } else {
      var k: Bytes := names[0];
      assert k in names && names == [k] + names[1..];
      var rest := ExportLines(env, names[1..]) + script;
      assert ExportLines(env, names) + script == ExportLine(k, env[k]) + rest;
      LexExport(k, env[k], rest);
      ReadExports(env, names[1..], script);
    }
  }

  lemma LexThree(a: Bytes, b: Bytes, c: Bytes, rest: Bytes)
    requires a != [] && b != [] && c != []
    requires (forall x <- a :: Plain(x)) && (forall x <- b :: Plain(x)) && (forall x <- c :: Plain(x))
    ensures Lex(a + ([' '] + (b + ([' '] + (c + ([NL] + rest))))), [], Blank) == Command([a, b, c], rest)
  {
    LexWord(a, b + ([' '] + (c + ([NL] + rest))), []);
    assert [] + [a] == [a];
    LexWord(b, c + ([NL] + rest), [a]);
    LexLastWord(c, rest, [a, b]);
    assert [a] + [b] == [a, b] && [a, b] + [c] == [a, b, c];
  }

  lemma LexSet(rest: Bytes)
    ensures Lex(SET_LINE + rest, [], Blank) == Command(SET_WORDS, rest)
  {
    var a: Bytes, b: Bytes, c: Bytes := "set", "-euo", "pipefail";
    assert SET_LINE == a + [' '] + b + [' '] + c + [NL];
    assert SET_LINE + rest == a + ([' '] + (b + ([' '] + (c + ([NL] + rest)))));
    LexThree(a, b, c, rest);
  }

  /** The round trip: after `set`, the shell reads exactly one export per entry, in
      order, with its original value, and then the script, unchanged.  Only a value with
      a NUL, which no shell promises to read, keeps it from doing so. */
  lemma PreambleRoundTrip(env: map<Bytes, Bytes>, script: Bytes)
    requires forall k <- env :: EnvName(k)
    ensures Commands(Text(env, SortedKeys(env.Keys), script), 1 + |env|)
         == if exists k <- env :: NUL in env[k] then Unreadable
            else Program([SET_WORDS] + ExportCommands(env, SortedKeys(env.Keys)), script)
  {
    var names: seq<Bytes> := SortedKeys(env.Keys);
    LexSet(ExportLines(env, names) + script);
    ReadExports(env, names, script);
  }

  /** What a command does to the environment: `export NAME=value` splits at the first '='. */
  function Assigned(env: map<Bytes, Bytes>, command: seq<Bytes>): map<Bytes, Bytes> {
    if |command| != 2 || command[0] != "export" then env
    else
      var word := command[1];
      var i := IndexOf(word, '=');
      if i == |word| then env else env[word[..i] := word[i + 1..]]
  }

  function Executed(env: map<Bytes, Bytes>, commands: seq<seq<Bytes>>): map<Bytes, Bytes>
    decreases |commands|
  {
    if commands == [] then env else Executed(Assigned(env, commands[0]), commands[1..])
  }

  lemma ExportAssigns(start: map<Bytes, Bytes>, k: Bytes, v: Bytes)
    requires EnvName(k)
    ensures Assigned(start, [EXPORT, k + ['='] + v]) == start[k := v]
  {
    var word := k + ['='] + v;
    assert '=' !in k;
    IndexOfConcat(k, '=', v);
    assert word[..|k|] == k && word[|k| + 1..] == v;
  }

  lemma ExecutedStep(start: map<Bytes, Bytes>, command: seq<Bytes>, rest: seq<seq<Bytes>>)
    ensures Executed(start, [command] + rest) == Executed(Assigned(start, command), rest)
  {
    assert ([command] + rest)[1..] == rest;
  }

  /** The part of `env` under the given names. */
  function Restricted(env: map<Bytes, Bytes>, names: seq<Bytes>): map<Bytes, Bytes> {
    map k | k in names && k in env :: env[k]
  }

  lemma RestrictedStep(start: map<Bytes, Bytes>, env: map<Bytes, Bytes>, k: Bytes, rest: seq<Bytes>)
    requires k in env
    ensures start[k := env[k]] + Restricted(env, rest) == start + Restricted(env, [k] + rest)
  {
  }

  lemma {:induction false} ExportsAssign(start: map<Bytes, Bytes>, env: map<Bytes, Bytes>, names: seq<Bytes>)
    requires forall k <- names :: k in env && EnvName(k)
    ensures Executed(start, ExportCommands(env, names)) == start + Restricted(env, names)
    decreases |names|
  {
    if names != [] {
      var k: Bytes, rest: seq<Bytes> := names[0], names[1..];
      assert names == [k] + rest && k in names;
      ExecutedStep(start, [EXPORT, k + ['='] + env[k]], ExportCommands(env, rest));
      ExportAssigns(start, k, env[k]);
      ExportsAssign(start[k := env[k]], env, rest);
      RestrictedStep(start, env, k, rest);
    }
  }

  lemma SetAssignsNothing(start: map<Bytes, Bytes>)
    ensures Assigned(start, SET_WORDS) == start
  {
    assert |SET_WORDS| == 3;
  }

  lemma RestrictedToAll(env: map<Bytes, Bytes>, names: seq<Bytes>)
    requires forall k :: k in names <==> k in env
    ensures Restricted(env, names) == env
  {
  }

  lemma AllAssign(start: map<Bytes, Bytes>, env: map<Bytes, Bytes>, names: seq<Bytes>)
    requires forall k :: k in names <==> k in env
    requires forall k <- names :: EnvName(k)
    ensures Executed(start, [SET_WORDS] + ExportCommands(env, names)) == start + env
  {
    ExecutedStep(start, SET_WORDS, ExportCommands(env, names));
    SetAssignsNothing(start);
    ExportsAssign(start, env, names);
    RestrictedToAll(env, names);
  }

  /** The whole promise of the preamble: a shell started in any environment runs the
      script, unchanged, in that environment overlaid with exactly `env`. */
  lemma ScriptRunsInEnv(start: map<Bytes, Bytes>, env: map<Bytes, Bytes>, script: Bytes)
    requires forall k <- env :: EnvName(k) && NUL !in env[k]
    ensures var program := Commands(Text(env, SortedKeys(env.Keys), script), 1 + |env|);
      program.Program? && program.rest == script && Executed(start, program.commands) == start + env
  {
    var names: seq<Bytes> := SortedKeys(env.Keys);
    PreambleRoundTrip(env, script);
    AllAssign(start, env, names);
  }
}
