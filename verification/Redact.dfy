/**
 Redaction: secrets are cut out of a message by one leftmost replace-all per
 value, longest value first.
 */
module Redact {
  import opened Bytes

  const PLACEHOLDER: Bytes := "[REDACTED]"
  const MIN_LENGTH: nat := 8

  /** What a script's environment was given: a bootstrap token and named secrets. */
  datatype Context = Context(token: Bytes, secrets: map<Bytes, Bytes>)

  ghost predicate Occurs(s: Bytes, p: Bytes) {
    exists i :: At(s, p, i)
  }

  predicate BracketFree(v: Bytes) {
    '[' !in v && ']' !in v
  }

  // ----- replace-all --------------------------------------------------------------------------

  /** `strings.ReplaceAll` for a non-empty pattern: leftmost matches, no overlap. */
  function ReplaceAll(s: Bytes, p: Bytes, r: Bytes): Bytes
    requires p != []
    decreases |s|
  {
    if |s| < |p| then s
    else if p <= s then r + ReplaceAll(s[|p|..], p, r)
    else [s[0]] + ReplaceAll(s[1..], p, r)
  }

  /** The text between the leftmost matches. */
  function Pieces(s: Bytes, p: Bytes): (ps: seq<Bytes>)
    requires p != []
    ensures ps != [] && ps[0] <= s
    decreases |s|
  {
    if |s| < |p| then [s]
    else if p <= s then [[]] + Pieces(s[|p|..], p)
    else
      var ps := Pieces(s[1..], p);
      [[s[0]] + ps[0]] + ps[1..]
  }

  function Join(ps: seq<Bytes>, sep: Bytes): Bytes
    requires ps != []
    decreases |ps|
  {
    if |ps| == 1 then ps[0] else ps[0] + sep + Join(ps[1..], sep)
  }

  /** Replacing is splitting at the pattern and joining with the replacement. */
  lemma {:induction false} ReplaceIsSplitAndJoin(s: Bytes, p: Bytes, r: Bytes)
    requires p != []
    ensures Join(Pieces(s, p), r) == ReplaceAll(s, p, r)
    decreases |s|
  {
    if |s| < |p| {
    } else if p <= s {
      ReplaceIsSplitAndJoin(s[|p|..], p, r);
      JoinEmptyFirst(Pieces(s[|p|..], p), r);
    } else {
      var ps := Pieces(s[1..], p);
      ReplaceIsSplitAndJoin(s[1..], p, r);
      JoinPrepend(s[0], ps, r);
    }
  }

  lemma JoinEmptyFirst(ps: seq<Bytes>, sep: Bytes)
    requires ps != []
    ensures Join([[]] + ps, sep) == sep + Join(ps, sep)
  {
    assert ([[]] + ps)[1..] == ps && [] + sep == sep;
  }

  lemma JoinPrepend(c: Byte, ps: seq<Bytes>, sep: Bytes)
    requires ps != []
    ensures Join([[c] + ps[0]] + ps[1..], sep) == [c] + Join(ps, sep)
  {
    assert ([[c] + ps[0]] + ps[1..])[1..] == ps[1..];
  }

  /** Replacing a pattern by itself changes nothing, so the pieces lose no text. */
  lemma {:induction false} PiecesLoseNothing(s: Bytes, p: Bytes)
    requires p != []
    ensures Join(Pieces(s, p), p) == s
    decreases |s|
  {
    ReplaceIsSplitAndJoin(s, p, p);
    ReplaceBySelf(s, p);
  }

  lemma {:induction false} ReplaceBySelf(s: Bytes, p: Bytes)
    requires p != []
    ensures ReplaceAll(s, p, p) == s
    decreases |s|
  {
    if |s| < |p| {
    } else if p <= s {
      ReplaceBySelf(s[|p|..], p);
      assert s == p + s[|p|..];
    } else {
      ReplaceBySelf(s[1..], p);
    }
  }

  /** No match is missed: a piece never holds the pattern. */
  lemma {:induction false} PiecesHoldNoMatch(s: Bytes, p: Bytes)
    requires p != []
    ensures forall piece <- Pieces(s, p) :: !Occurs(piece, p)
    decreases |s|
  {
    if |s| < |p| {
    } else if p <= s {
      PiecesHoldNoMatch(s[|p|..], p);
    } else {
      var ps := Pieces(s[1..], p);
      PiecesHoldNoMatch(s[1..], p);
      assert ps[0] in ps;
      OccursInPrepended(s[0], ps[0], p);
      PrefixOfPrefix(p, [s[0]] + ps[0], s);
    }
  }

  lemma PrefixOfPrefix(a: Bytes, b: Bytes, c: Bytes)
    requires b <= c
    ensures a <= b ==> a <= c
  {
  }

  /** An occurrence behind a new first byte is at the front or was there before. */
  lemma OccursInPrepended(c: Byte, s: Bytes, p: Bytes)
    ensures Occurs([c] + s, p) ==> p <= [c] + s || Occurs(s, p)
  {
    if i :| At([c] + s, p, i) && i > 0 {
      assert ([c] + s)[i..i + |p|] == s[i - 1..i - 1 + |p|];
      assert At(s, p, i - 1);
    }
  }

  // ----- no value reappears --------------------------------------------------------------------

  /** `v`, shifted by `d` against the placeholder, agrees with it wherever the two overlap. */
  predicate Overlap(v: Bytes, d: int) {
    -|v| < d < |PLACEHOLDER|
    && forall i :: 0 <= i < |PLACEHOLDER| && 0 <= i - d < |v| ==> PLACEHOLDER[i] == v[i - d]
  }

  /** A value the placeholder cannot contribute to. */
  ghost predicate Distinct(v: Bytes) {
    v != [] && forall d :: !Overlap(v, d)
  }

  /** An occurrence that touches a leading placeholder overlaps it. */
  lemma TouchingPlaceholder(v: Bytes, rest: Bytes, i: int)
    requires v != [] && i < |PLACEHOLDER| && At(PLACEHOLDER + rest, v, i)
    ensures Overlap(v, i)
  {
    var s := PLACEHOLDER + rest;
    forall k | 0 <= k < |PLACEHOLDER| && 0 <= k - i < |v| ensures PLACEHOLDER[k] == v[k - i] {
      assert v[k - i] == s[i..i + |v|][k - i] == s[k];
    }
  }

  lemma StartsWithPlaceholder(v: Bytes, n: nat, rest: Bytes)
    requires n < |v| && v[n..] <= PLACEHOLDER + rest
    ensures Overlap(v, 0 - n)
  {
    var s := PLACEHOLDER + rest;
    forall k | 0 <= k < |PLACEHOLDER| && 0 <= k + n < |v| ensures PLACEHOLDER[k] == v[k + n] {
      assert v[k + n] == v[n..][k] == s[k];
    }
  }

  /** A tail of a distinct value at the front of the result was at the front of the message. */
  lemma {:induction false} PrefixIsKept(s: Bytes, p: Bytes, v: Bytes, n: nat)
    requires p != [] && Distinct(v) && n <= |v| && v[n..] <= ReplaceAll(s, p, PLACEHOLDER)
    ensures v[n..] <= s
    decreases |s|
  {
    if n < |v| && |s| >= |p| {
      if p <= s {
        StartsWithPlaceholder(v, n, ReplaceAll(s[|p|..], p, PLACEHOLDER));
      } else {
        PrefixIsKept(s[1..], p, v, n + 1);
      }
    }
  }

  lemma OccursBehindPlaceholder(v: Bytes, rest: Bytes)
    requires Distinct(v)
    ensures Occurs(PLACEHOLDER + rest, v) ==> Occurs(rest, v)
  {
    var s, n := PLACEHOLDER + rest, |PLACEHOLDER|;
    forall i | At(s, v, i) ensures At(rest, v, i - n) {
      if i < n {
        TouchingPlaceholder(v, rest, i);
      } else {
        assert s[i..i + |v|] == rest[i - n..i - n + |v|];
      }
    }
  }

  /** Replacing `p` removes a distinct `v` when `p` is `v`, and never brings one back. */
  lemma {:induction false} StaysAbsent(s: Bytes, p: Bytes, v: Bytes)
    requires p != [] && Distinct(v)
    requires p == v || !Occurs(s, v)
    ensures !Occurs(ReplaceAll(s, p, PLACEHOLDER), v)
    decreases |s|
  {
    if |s| < |p| {
    } else if p <= s {
      var rest := ReplaceAll(s[|p|..], p, PLACEHOLDER);
      SuffixOccurs(s, v, |p|);
      StaysAbsent(s[|p|..], p, v);
      OccursBehindPlaceholder(v, rest);
    } else {
      var rest := ReplaceAll(s[1..], p, PLACEHOLDER);
      SuffixOccurs(s, v, 1);
      StaysAbsent(s[1..], p, v);
      OccursInPrepended(s[0], rest, v);
      assert v <= s ==> At(s, v, 0);
      if v <= [s[0]] + rest {
        PrefixIsKept(s, p, v, 0);
      }
    }
  }

  lemma SuffixOccurs(s: Bytes, v: Bytes, n: nat)
    requires n <= |s|
    ensures Occurs(s[n..], v) ==> Occurs(s, v)
  {
    forall i | At(s[n..], v, i) ensures At(s, v, n + i) {
      assert s[n..][i..i + |v|] == s[n + i..n + i + |v|];
    }
  }

  /** A message without the value is left alone. */
  lemma {:induction false} AbsentUnchanged(s: Bytes, p: Bytes)
    requires p != [] && !Occurs(s, p)
    ensures ReplaceAll(s, p, PLACEHOLDER) == s
    decreases |s|
  {
    if |s| < |p| {
    } else {
      assert !At(s, p, 0);
      SuffixOccurs(s, p, 1);
      AbsentUnchanged(s[1..], p);
    }
  }

  lemma LongOverlap(v: Bytes, d: int)
    requires Overlap(v, d) && |v| >= MIN_LENGTH
    ensures v == PLACEHOLDER[1..9] || !BracketFree(v)
  {
    if d <= 0 {
      assert v[0 - d] == PLACEHOLDER[0];
    } else if d + |v| >= 10 {
      assert v[9 - d] == PLACEHOLDER[9];
    } else {
      assert forall i :: 1 <= i < 9 ==> PLACEHOLDER[i] == v[i - d];
    }
  }

  /** Which bracket-free values are distinct: those of redactable length, but one. */
  lemma LongValuesAreDistinct(v: Bytes)
    requires BracketFree(v) && |v| >= MIN_LENGTH
    ensures Distinct(v) <==> v != PLACEHOLDER[1..9]
  {
    assert Overlap(PLACEHOLDER[1..9], 1);
    forall d | Overlap(v, d) ensures v == PLACEHOLDER[1..9] {
      LongOverlap(v, d);
    }
  }

  // ----- the whole redaction ----------------------------------------------------------------------

  /** The token, and its part behind the first dot. */
  function TokenValues(token: Bytes): seq<Bytes> {
    if token == [] then []
    else if '.' !in token then [token]
    else [token, token[IndexOf(token, '.')..][1..]]
  }

  predicate IsValue(c: Context, v: Bytes) {
    v in TokenValues(c.token) || exists k <- c.secrets :: c.secrets[k] == v
  }

  predicate LongestFirst(vs: seq<Bytes>) {
    forall i, j :: 0 <= i < j < |vs| ==> |vs[i]| >= |vs[j]|
  }

  /** An order in which the values may be processed: ties are in no particular order. */
  ghost predicate Ordered(c: Context, vs: seq<Bytes>) {
    LongestFirst(vs) && forall v :: v in vs <==> IsValue(c, v)
  }

  /** The message after processing the values from left to right; short ones are skipped. */
  function Redacted(msg: Bytes, vs: seq<Bytes>): Bytes
    decreases |vs|
  {
    if vs == [] then msg
    else Redacted(if |vs[0]| < MIN_LENGTH then msg else ReplaceAll(msg, vs[0], PLACEHOLDER), vs[1..])
  }

  lemma {:induction false} RedactedAppend(msg: Bytes, vs: seq<Bytes>, v: Bytes)
    ensures Redacted(msg, vs + [v])
         == var m := Redacted(msg, vs); if |v| < MIN_LENGTH then m else ReplaceAll(m, v, PLACEHOLDER)
    decreases |vs|
  {
    if vs == [] {
      assert [v][1..] == [] && vs + [v] == [v];
    } else {
      var m := if |vs[0]| < MIN_LENGTH then msg else ReplaceAll(msg, vs[0], PLACEHOLDER);
      assert (vs + [v])[0] == vs[0] && (vs + [v])[1..] == vs[1..] + [v];
      RedactedAppend(m, vs[1..], v);
    }
  }

  /** Puts a value in its place. */
  method Insert(vs: seq<Bytes>, v: Bytes) returns (r: seq<Bytes>)
    requires LongestFirst(vs)
    ensures LongestFirst(r) && multiset(r) == multiset(vs) + multiset{v}
  {
    var i := 0;
    while i < |vs| && |vs[i]| >= |v|
      invariant 0 <= i <= |vs|
      invariant forall j :: 0 <= j < i ==> |vs[j]| >= |v|
    {
      i := i + 1;
    }
    assert vs == vs[..i] + vs[i..];
    r := vs[..i] + [v] + vs[i..];
  }

  /** The values sorted by falling length. */
  method SortLongestFirst(vs: seq<Bytes>) returns (r: seq<Bytes>)
    ensures LongestFirst(r) && multiset(r) == multiset(vs)
  {
    r := [];
    for n := 0 to |vs|
      invariant LongestFirst(r) && multiset(r) == multiset(vs[..n])
    {
      assert vs[..n + 1] == vs[..n] + [vs[n]];
      r := Insert(r, vs[n]);
    }
    assert vs[..|vs|] == vs;
  }

  method Redact(c: Context, msg: Bytes) returns (r: Bytes)
    ensures exists vs :: Ordered(c, vs) && r == Redacted(msg, vs)
  {
    var values: seq<Bytes> := TokenValues(c.token);
    var keys := c.secrets.Keys;
    while keys != {}
      invariant keys <= c.secrets.Keys
      invariant forall v :: v in values <==>
        v in TokenValues(c.token) || exists k <- c.secrets.Keys - keys :: c.secrets[k] == v
    {
      var k :| k in keys;
      values := values + [c.secrets[k]];
      keys := keys - {k};
    }
    var vs := SortLongestFirst(values);
    SameElements(vs, values);
    r := msg;
    for i := 0 to |vs|
      invariant r == Redacted(msg, vs[..i])
    {
      assert vs[..i + 1] == vs[..i] + [vs[i]];
      RedactedAppend(msg, vs[..i], vs[i]);
      if |vs[i]| < MIN_LENGTH {
        continue;
      }
      r := ReplaceAll(r, vs[i], PLACEHOLDER);
    }
    assert vs[..|vs|] == vs;
    assert Ordered(c, vs);
  }

  lemma SameElements(a: seq<Bytes>, b: seq<Bytes>)
    requires multiset(a) == multiset(b)
    ensures forall v :: v in a <==> v in b
  {
    assert forall v :: v in a <==> v in multiset(a);
    assert forall v :: v in b <==> v in multiset(b);
  }

  lemma {:induction false} NeverComesBack(msg: Bytes, vs: seq<Bytes>, v: Bytes)
    requires Distinct(v) && !Occurs(msg, v)
    ensures !Occurs(Redacted(msg, vs), v)
    decreases |vs|
  {
    if vs != [] {
      if |vs[0]| >= MIN_LENGTH {
        StaysAbsent(msg, vs[0], v);
        NeverComesBack(ReplaceAll(msg, vs[0], PLACEHOLDER), vs[1..], v);
      } else {
        NeverComesBack(msg, vs[1..], v);
      }
    }
  }

  lemma {:induction false} ProcessedIsGone(msg: Bytes, vs: seq<Bytes>, v: Bytes)
    requires Distinct(v) && |v| >= MIN_LENGTH && v in vs
    ensures !Occurs(Redacted(msg, vs), v)
    decreases |vs|
  {
    var m := if |vs[0]| < MIN_LENGTH then msg else ReplaceAll(msg, vs[0], PLACEHOLDER);
    if vs[0] == v {
      StaysAbsent(msg, v, v);
      NeverComesBack(m, vs[1..], v);
    } else {
      ProcessedIsGone(m, vs[1..], v);
    }
  }

  /** No redacted value survives, nor is one put together again by the other
      replacements; whatever the message, the other values and the order of ties. */
  lemma NoValueSurvives(c: Context, msg: Bytes, vs: seq<Bytes>, v: Bytes)
    requires Ordered(c, vs) && IsValue(c, v)
    requires |v| >= 8 && '[' !in v && ']' !in v && v != "REDACTED"
    ensures !Occurs(Redacted(msg, vs), v)
  {
    assert PLACEHOLDER[1..9] == "REDACTED";
    LongValuesAreDistinct(v);
    ProcessedIsGone(msg, vs, v);
  }

  /** What a value must be like to be hidden for certain. */
  predicate Redactable(v: Bytes) {
    |v| >= 8 && '[' !in v && ']' !in v && v != "REDACTED"
  }

  /** Nothing of what a script was given shows: not the token, not the secret behind its
      dot, and no named secret. */
  lemma NothingShows(id: Bytes, secret: Bytes, named: map<Bytes, Bytes>, msg: Bytes, vs: seq<Bytes>)
    requires '.' !in id && Ordered(Context(id + ['.'] + secret, named), vs)
    ensures Redactable(secret) ==> !Occurs(Redacted(msg, vs), secret)
    ensures Redactable(id + ['.'] + secret) ==> !Occurs(Redacted(msg, vs), id + ['.'] + secret)
    ensures forall k <- named :: Redactable(named[k]) ==> !Occurs(Redacted(msg, vs), named[k])
  {
    var c := Context(id + ['.'] + secret, named);
    DotSplits(id, secret);
    var both := TokenValues(c.token);
    assert both[0] in both && both[1] in both;
    if Redactable(secret) { NoValueSurvives(c, msg, vs, secret); }
    if Redactable(c.token) { NoValueSurvives(c, msg, vs, c.token); }
    forall k <- named | Redactable(named[k]) ensures !Occurs(Redacted(msg, vs), named[k]) {
      NoValueSurvives(c, msg, vs, named[k]);
    }
  }

  lemma DotSplits(id: Bytes, secret: Bytes)
    requires '.' !in id
    ensures TokenValues(id + ['.'] + secret) == [id + ['.'] + secret, secret]
  {
    var token: Bytes := id + ['.'] + secret;
    IndexOfConcat(id, '.', secret);
    assert token[|id|] == '.' && token[|id|..] == ['.'] + secret;
  }

  ghost predicate AlwaysHidden(v: Bytes) {
    forall c, msg, vs :: Ordered(c, vs) && IsValue(c, v) ==> !Occurs(Redacted(msg, vs), v)
  }

  lemma AloneIsReplaced(v: Bytes)
    requires v != []
    ensures ReplaceAll(v, v, PLACEHOLDER) == PLACEHOLDER
  {
    assert v[|v|..] == [] && PLACEHOLDER + [] == PLACEHOLDER;
  }

  // ----- the order matters ----------------------------------------------------------------------------

  lemma {:induction false} PlaceholderStays(vs: seq<Bytes>)
    requires forall w <- vs :: |w| >= MIN_LENGTH ==> !Occurs(PLACEHOLDER, w)
    ensures Redacted(PLACEHOLDER, vs) == PLACEHOLDER
    decreases |vs|
  {
    if vs != [] {
      if |vs[0]| >= MIN_LENGTH {
        AbsentUnchanged(PLACEHOLDER, vs[0]);
      }
      PlaceholderStays(vs[1..]);
    }
  }

  /** A value is never half-redacted: on its own it becomes one placeholder, even
      when other values are contained in it. */
  lemma {:induction false} NeverHalfRedacted(vs: seq<Bytes>, v: Bytes)
    requires LongestFirst(vs) && v in vs && |v| >= MIN_LENGTH
    requires forall w <- vs :: |w| >= MIN_LENGTH ==> !Occurs(PLACEHOLDER, w)
    ensures Redacted(v, vs) == "[REDACTED]"
    decreases |vs|
  {
    if vs[0] == v {
      AloneIsReplaced(v);
      PlaceholderStays(vs[1..]);
    } else {
      assert |vs[0]| >= |v|;
      AbsentUnchanged(v, vs[0]);
      NeverHalfRedacted(vs[1..], v);
    }
  }

  // ----- exactly which values are hidden ---------------------------------------------------------------

  function Repeated(z: Byte, n: nat): Bytes {
    seq(n, _ => z)
  }

  lemma ReplaceHead(w: Bytes, y: Bytes, r: Bytes)
    requires w != []
    ensures ReplaceAll(w + y, w, r) == r + ReplaceAll(y, w, r)
  {
    assert (w + y)[|w|..] == y;
  }

  lemma ReplaceSkips(c: Byte, s: Bytes, w: Bytes, r: Bytes)
    requires w != [] && !(w <= [c] + s)
    ensures ReplaceAll([c] + s, w, r) == [c] + ReplaceAll(s, w, r)
  {
    assert ([c] + s)[1..] == s;
  }

  /** `w` starts nowhere before the end of `x`. */
  ghost predicate StartsLater(x: Bytes, w: Bytes, y: Bytes) {
    forall k :: 0 <= k < |x| ==> !(w <= x[k..] + (w + y))
  }

  /** The first match is replaced where it stands, then what follows it in turn. */
  lemma {:induction false} FirstMatchFirst(x: Bytes, w: Bytes, y: Bytes, r: Bytes)
    requires w != [] && StartsLater(x, w, y)
    ensures ReplaceAll(x + (w + y), w, r) == x + (r + ReplaceAll(y, w, r))
    decreases |x|
  {
    var done := r + ReplaceAll(y, w, r);
    if x == [] {
      assert x + (w + y) == w + y && x + done == done;
      ReplaceHead(w, y, r);
    } else {
      var tail := x[1..];
      assert x[0..] == x && x + (w + y) == [x[0]] + (tail + (w + y));
      assert forall k :: 0 <= k < |tail| ==> tail[k..] == x[k + 1..];
      ReplaceSkips(x[0], tail + (w + y), w, r);
      FirstMatchFirst(tail, w, y, r);
      assert x + done == [x[0]] + (tail + done);
    }
  }

  /** A run of one byte does not start inside `x`, which ends in another. */
  lemma RunStartsLater(x: Bytes, z: Byte, n: nat, y: Bytes)
    requires |x| < n && (x != [] ==> x[|x| - 1] != z)
    ensures StartsLater(x, Repeated(z, n), y)
  {
    var w := Repeated(z, n);
    forall k | 0 <= k < |x| ensures !(w <= x[k..] + (w + y)) {
      assert (x[k..] + (w + y))[|x| - 1 - k] == x[|x| - 1] != w[|x| - 1 - k];
    }
  }

  lemma NotInRun(v: Bytes, x: Bytes, z: Byte, y: Bytes)
    requires |x| + |y| < |v| && v[|x|] != z
    ensures !Occurs(x + (Repeated(z, |v|) + y), v)
  {
    var s := x + (Repeated(z, |v|) + y);
    forall j | 0 <= j <= |s| - |v| ensures !At(s, v, j) {
      assert s[j..j + |v|][|x|] == s[j + |x|] == z;
    }
  }

  /** `v` is what lies left of the placeholder, a part of it, and what lies right of it. */
  lemma OverlapInPlace(v: Bytes, d: int, x: Bytes, y: Bytes)
    requires Overlap(v, d)
    requires x == (if d < 0 then v[..-d] else [])
    requires y == (if d + |v| > |PLACEHOLDER| then v[|PLACEHOLDER| - d..] else [])
    ensures At(x + (PLACEHOLDER + y), v, if d < 0 then 0 else d)
  {
    var s, j := x + (PLACEHOLDER + y), if d < 0 then 0 else d;
    forall k | 0 <= k < |v| ensures s[j..j + |v|][k] == v[k] {
      if 0 <= k + d < |PLACEHOLDER| {
        assert PLACEHOLDER[k + d] == v[k + d - d];
      }
    }
  }

  /** A second value of the same length, all one byte, is replaced after `v` had its
      turn, and leaves `v` behind. */
  lemma OverlapLeaks(v: Bytes, d: int) returns (c: Context, msg: Bytes, vs: seq<Bytes>)
    requires |v| >= MIN_LENGTH && Overlap(v, d)
    ensures Ordered(c, vs) && IsValue(c, v) && Occurs(Redacted(msg, vs), v)
  {
    var x := if d < 0 then v[..-d] else [];
    var y := if d + |v| > |PLACEHOLDER| then v[|PLACEHOLDER| - d..] else [];
    var z: Byte := if x != [] && x[|x| - 1] == '0' then '1' else '0';
    var w: Bytes := Repeated(z, |v|);
    msg, vs := x + (w + y), [v, w];
    c := TwoSecrets(v, w);
    assert v[|x|] == PLACEHOLDER[d + |x|];
    NotInRun(v, x, z, y);
    RunStartsLater(x, z, |v|, y);
    FirstMatchFirst(x, w, y, PLACEHOLDER);
    RedactedPair(msg, v, w);
    OverlapInPlace(v, d, x, y);
  }

  lemma RedactedPair(msg: Bytes, v: Bytes, w: Bytes)
    requires |v| >= MIN_LENGTH && |w| >= MIN_LENGTH && !Occurs(msg, v)
    ensures Redacted(msg, [v, w]) == ReplaceAll(msg, w, PLACEHOLDER)
  {
    AbsentUnchanged(msg, v);
    var both: seq<Bytes>, last: seq<Bytes> := [v, w], [w];
    assert both[1..] == last && last[1..] == [];
    assert Redacted(msg, both) == Redacted(msg, last);
    assert Redacted(msg, last) == Redacted(ReplaceAll(msg, w, PLACEHOLDER), []);
  }

  lemma TwoSecrets(v: Bytes, w: Bytes) returns (c: Context)
    requires |v| == |w|
    ensures Ordered(c, [v, w]) && IsValue(c, v)
  {
    c := Context([], map["a" := v, "b" := w]);
    assert c.secrets["a"] == v && c.secrets["b"] == w;
  }

  lemma ShortStays(v: Bytes) returns (c: Context, vs: seq<Bytes>)
    requires |v| < MIN_LENGTH
    ensures Ordered(c, vs) && IsValue(c, v) && Occurs(Redacted(v, vs), v)
  {
    c, vs := Context([], map["a" := v]), [v];
    assert c.secrets["a"] == v && vs[1..] == [];
    assert Redacted(v, vs) == v && At(v, v, 0);
  }

  /** A value is hidden whatever the message, the other values and the order of ties
      exactly when it is long enough and cannot overlap the placeholder. */
  lemma HiddenExactlyWhenDistinct(v: Bytes)
    ensures AlwaysHidden(v) <==> |v| >= 8 && Distinct(v)
  {
    if |v| < MIN_LENGTH {
      var c, vs := ShortStays(v);
    } else if d :| Overlap(v, d) {
      var c, msg, vs := OverlapLeaks(v, d);
    } else {
      forall c, msg, vs | Ordered(c, vs) && IsValue(c, v) ensures !Occurs(Redacted(msg, vs), v) {
        ProcessedIsGone(msg, vs, v);
      }
    }
  }
}
