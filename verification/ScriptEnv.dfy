/**
 The environment of a phase script: fixed variables, the node class's free-form
 variables and the join secret, each under its own prefix.
 */
module ScriptEnv {
  import opened Options
  import opened Bytes

  const VAR_PREFIX: Bytes := "KPSSH_VAR_"
  const SECRET_PREFIX: Bytes := "KPSSH_SECRET_"

  const FIXED: set<Bytes> := {
    "KPSSH_CLUSTER_ENDPOINT", "KPSSH_CLUSTER_CA_B64", "KPSSH_BOOTSTRAP_TOKEN", "KPSSH_NODE_NAME",
    "KPSSH_PROVIDER_ID", "KPSSH_NODE_LABELS", "KPSSH_TAINTS", "KPSSH_HOST_ADDRESS", "KPSSH_NODE_ADDRESS"
  }

  /** Dashes and dots become underscores, letters become capitals. */
  function Normal(c: Byte): Byte {
    if c == '-' || c == '.' then '_'
    else if 'a' <= c <= 'z' then (c as int - 'a' as int + 'A' as int) as char
    else c
  }

  function NormalKey(k: Bytes): Bytes {
    seq(|k|, i requires 0 <= i < |k| => Normal(k[i]))
  }

  function VarName(k: Bytes): Bytes {
    VAR_PREFIX + k
  }

  function SecretName(k: Bytes): Bytes {
    SECRET_PREFIX + NormalKey(k)
  }

  /** The names, spelled out. */
  lemma NamesAre(k: Bytes)
    ensures VarName(k) == "KPSSH_VAR_" + k
    ensures |SecretName(k)| == 13 + |k| && SecretName(k)[..13] == "KPSSH_SECRET_"
    ensures forall i :: 0 <= i < |k| ==>
              SecretName(k)[13 + i] == if k[i] == '-' || k[i] == '.' then '_'
                                       else if 'a' <= k[i] <= 'z' then ((k[i] as int) - 32) as char else k[i]
  {
    assert |SECRET_PREFIX| == 13;
  }

  /** Bytes that no variable name tells apart: separators, and a letter in either case. */
  predicate Alike(a: Byte, b: Byte) {
    || a == b
    || (a in "-._" && b in "-._")
    || ('a' <= a <= 'z' && b as int == a as int - 32)
    || ('a' <= b <= 'z' && a as int == b as int - 32)
  }

  /** When two secret keys share a variable. */
  lemma ClashExactly(k: Bytes, l: Bytes)
    ensures SecretName(k) == SecretName(l) <==> |k| == |l| && forall i :: 0 <= i < |k| ==> Alike(k[i], l[i])
  {
    assert forall i :: 0 <= i < |k| ==> SecretName(k)[|SECRET_PREFIX| + i] == Normal(k[i]);
    assert forall i :: 0 <= i < |l| ==> SecretName(l)[|SECRET_PREFIX| + i] == Normal(l[i]);
    forall a: Byte, b: Byte ensures Normal(a) == Normal(b) <==> Alike(a, b) {
      AlikeExactly(a, b);
    }
    if |k| == |l| && forall i :: 0 <= i < |k| ==> Alike(k[i], l[i]) {
      assert NormalKey(k) == NormalKey(l);
    }
  }

  lemma AlikeExactly(a: Byte, b: Byte)
    ensures Normal(a) == Normal(b) <==> Alike(a, b)
  {
    var s := "-._";
    assert s[0] == '-' && s[1] == '.' && s[2] == '_';
  }

  /** Two keys that would share a variable. */
  predicate Clash(keys: set<Bytes>) {
    exists k <- keys, l <- keys :: k != l && SecretName(k) == SecretName(l)
  }

  /** The byte behind "KPSSH_" tells the three kinds of name apart. */
  function Kind(name: Bytes): Byte {
    if |name| > 6 then name[6] else ' '
  }

  lemma FixedKind(name: Bytes)
    requires name in FIXED
    ensures Kind(name) != 'V' && Kind(name) != 'S'
  {
  }

  lemma VarKind(k: Bytes)
    ensures Kind(VarName(k)) == 'V'
  {
    assert VarName(k)[6] == VAR_PREFIX[6];
  }

  lemma SecretKind(k: Bytes)
    ensures Kind(SecretName(k)) == 'S'
  {
    assert SecretName(k)[6] == SECRET_PREFIX[6];
  }

  /** What a script's environment is built from. */
  datatype Source = Source(fixed: map<Bytes, Bytes>, vars: map<Bytes, Bytes>, secrets: map<Bytes, Bytes>)

  predicate FixedApart(c: Source) {
    forall n <- c.fixed :: Kind(n) != 'V' && Kind(n) != 'S'
  }

  predicate Named(n: Bytes, c: Source, vars: set<Bytes>, secrets: set<Bytes>) {
    n in c.fixed || (exists k <- vars :: n == VarName(k)) || exists k <- secrets :: n == SecretName(k)
  }

  /** `env` holds the fixed variables, the given vars and the given secrets, each
      with its own value, and nothing else. */
  ghost predicate Holds(env: map<Bytes, Bytes>, c: Source, vars: set<Bytes>, secrets: set<Bytes>)
    requires vars <= c.vars.Keys && secrets <= c.secrets.Keys
  {
    && (forall n <- c.fixed :: n in env && env[n] == c.fixed[n])
    && (forall k <- vars :: VarName(k) in env && env[VarName(k)] == c.vars[k])
    && (forall k <- secrets :: SecretName(k) in env && env[SecretName(k)] == c.secrets[k])
    && (forall n <- env :: Named(n, c, vars, secrets))
  }

  lemma VarNameInjective(k: Bytes, l: Bytes)
    ensures VarName(k) == VarName(l) ==> k == l
  {
    assert VarName(k)[|VAR_PREFIX|..] == k && VarName(l)[|VAR_PREFIX|..] == l;
  }

  lemma HoldsVar(env: map<Bytes, Bytes>, c: Source, vars: set<Bytes>, k: Bytes)
    requires FixedApart(c) && vars <= c.vars.Keys && k in c.vars
    requires Holds(env, c, vars, {})
    ensures Holds(env[VarName(k) := c.vars[k]], c, vars + {k}, {})
  {
    VarKind(k);
    forall l | l in vars ensures VarName(l) == VarName(k) ==> l == k {
      VarNameInjective(l, k);
    }
  }

  lemma HoldsSecret(env: map<Bytes, Bytes>, c: Source, secrets: set<Bytes>, k: Bytes)
    requires FixedApart(c) && secrets <= c.secrets.Keys && k in c.secrets
    requires Holds(env, c, c.vars.Keys, secrets)
    requires forall l <- secrets :: SecretName(l) != SecretName(k)
    ensures Holds(env[SecretName(k) := c.secrets[k]], c, c.vars.Keys, secrets + {k})
  {
    SecretKind(k);
    forall l | l in c.vars ensures VarName(l) != SecretName(k) {
      VarKind(l);
    }
  }

  /** `seen` has the variable of every key handled so far, and no two share one. */
  ghost predicate Seen(seen: map<Bytes, Bytes>, keys: set<Bytes>) {
    !Clash(keys) && forall n :: n in seen <==> exists k <- keys :: n == SecretName(k)
  }

  lemma SeenStep(seen: map<Bytes, Bytes>, keys: set<Bytes>, k: Bytes)
    requires Seen(seen, keys) && SecretName(k) !in seen
    ensures Seen(seen[SecretName(k) := k], keys + {k})
  {
  }

  lemma ClashOnRepeat(seen: map<Bytes, Bytes>, keys: set<Bytes>, all: set<Bytes>, k: Bytes)
    requires Seen(seen, keys) && keys <= all && k in all && k !in keys && SecretName(k) in seen
    ensures Clash(all)
  {
  }

  method AddVars(c: Source) returns (env: map<Bytes, Bytes>)
    requires FixedApart(c)
    ensures Holds(env, c, c.vars.Keys, {})
  {
    env := c.fixed;
    var left := c.vars.Keys;
    while left != {}
      invariant left <= c.vars.Keys && Holds(env, c, c.vars.Keys - left, {})
    {
      var k :| k in left;
      HoldsVar(env, c, c.vars.Keys - left, k);
      assert c.vars.Keys - (left - {k}) == c.vars.Keys - left + {k};
      left := left - {k};
      env := env[VarName(k) := c.vars[k]];
    }
    assert c.vars.Keys - left == c.vars.Keys;
  }

  ghost predicate Progress(env: map<Bytes, Bytes>, seen: map<Bytes, Bytes>, c: Source, keys: set<Bytes>) {
    keys <= c.secrets.Keys && Seen(seen, keys) && Holds(env, c, c.vars.Keys, keys)
  }

  lemma ProgressStep(env: map<Bytes, Bytes>, seen: map<Bytes, Bytes>, c: Source, keys: set<Bytes>, k: Bytes)
    requires FixedApart(c) && Progress(env, seen, c, keys) && k in c.secrets && SecretName(k) !in seen
    ensures Progress(env[SecretName(k) := c.secrets[k]], seen[SecretName(k) := k], c, keys + {k})
  {
    HoldsSecret(env, c, keys, k);
    SeenStep(seen, keys, k);
  }

  function Elements(s: seq<Bytes>): set<Bytes> {
    set k | k in s
  }

  lemma ElementsStep(s: seq<Bytes>, i: nat)
    requires i < |s|
    ensures Elements(s[..i + 1]) == Elements(s[..i]) + {s[i]}
  {
    assert s[..i + 1] == s[..i] + [s[i]];
  }

  method AddSecrets(start: map<Bytes, Bytes>, c: Source, names: seq<Bytes>) returns (r: Option<map<Bytes, Bytes>>)
    requires FixedApart(c) && Holds(start, c, c.vars.Keys, {})
    requires Elements(names) == c.secrets.Keys
    requires forall i, j :: 0 <= i < j < |names| ==> names[i] != names[j]
    ensures r.None? <==> Clash(c.secrets.Keys)
    ensures r.Some? ==> Holds(r.value, c, c.vars.Keys, c.secrets.Keys)
  {
    var env := start;
    var seen: map<Bytes, Bytes> := map[];
    for i := 0 to |names|
      invariant Progress(env, seen, c, Elements(names[..i]))
    {
      var k: Bytes := names[i];
      assert k in Elements(names);
      if SecretName(k) in seen {
        ClashOnRepeat(seen, Elements(names[..i]), c.secrets.Keys, k);
        return None;
      }
      ProgressStep(env, seen, c, Elements(names[..i]), k);
      ElementsStep(names, i);
      seen := seen[SecretName(k) := k];
      env := env[SecretName(k) := c.secrets[k]];
    }
    assert names[..|names|] == names;
    r := Some(env);
  }

  /** What a phase script is told. */
  datatype Context = Context(
    endpoint: Bytes, caCert: Bytes, token: Bytes, nodeName: Bytes, providerID: Bytes, labels: Bytes, taints: Bytes,
    hostAddress: Bytes, nodeAddress: Bytes, vars: map<Bytes, Bytes>, secrets: map<Bytes, Bytes>)

  function Fixed(c: Context): map<Bytes, Bytes> {
    map["KPSSH_CLUSTER_ENDPOINT" := c.endpoint, "KPSSH_CLUSTER_CA_B64" := c.caCert, "KPSSH_BOOTSTRAP_TOKEN" := c.token,
        "KPSSH_NODE_NAME" := c.nodeName, "KPSSH_PROVIDER_ID" := c.providerID, "KPSSH_NODE_LABELS" := c.labels,
        "KPSSH_TAINTS" := c.taints, "KPSSH_HOST_ADDRESS" := c.hostAddress, "KPSSH_NODE_ADDRESS" := c.nodeAddress]
  }

  /** The environment of a phase script: refused exactly when two secret keys share a
      name, and otherwise every fact, variable and secret under its own name. */
  method Env(c: Context) returns (r: Option<map<Bytes, Bytes>>)
    ensures r.None? <==> exists k <- c.secrets, l <- c.secrets :: k != l && SecretName(k) == SecretName(l)
    ensures r.Some? ==> Tells(r.value, c)
    ensures r.Some? ==> Holds(r.value, Source(Fixed(c), c.vars, c.secrets), c.vars.Keys, c.secrets.Keys)
  {
    FixedAre(c);
    r := BuildEnv(Source(Fixed(c), c.vars, c.secrets));
  }

  /** The fixed variables and what they say. */
  predicate Tells(env: map<Bytes, Bytes>, c: Context) {
    && "KPSSH_CLUSTER_ENDPOINT" in env && env["KPSSH_CLUSTER_ENDPOINT"] == c.endpoint
    && "KPSSH_CLUSTER_CA_B64" in env && env["KPSSH_CLUSTER_CA_B64"] == c.caCert
    && "KPSSH_BOOTSTRAP_TOKEN" in env && env["KPSSH_BOOTSTRAP_TOKEN"] == c.token
    && "KPSSH_NODE_NAME" in env && env["KPSSH_NODE_NAME"] == c.nodeName
    && "KPSSH_PROVIDER_ID" in env && env["KPSSH_PROVIDER_ID"] == c.providerID
    && "KPSSH_NODE_LABELS" in env && env["KPSSH_NODE_LABELS"] == c.labels
    && "KPSSH_TAINTS" in env && env["KPSSH_TAINTS"] == c.taints
    && "KPSSH_HOST_ADDRESS" in env && env["KPSSH_HOST_ADDRESS"] == c.hostAddress
    && "KPSSH_NODE_ADDRESS" in env && env["KPSSH_NODE_ADDRESS"] == c.nodeAddress
  }

  lemma FixedAre(c: Context)
    ensures Fixed(c).Keys == FIXED && Tells(Fixed(c), c)
  {}

  /** Nothing is shadowed, and the only refusal is two secret keys sharing a name. */
  method BuildEnv(c: Source) returns (r: Option<map<Bytes, Bytes>>)
    requires c.fixed.Keys == FIXED
    ensures r.None? <==> Clash(c.secrets.Keys)
    ensures r.Some? ==> Holds(r.value, c, c.vars.Keys, c.secrets.Keys)
  {
    forall n | n in c.fixed ensures Kind(n) != 'V' && Kind(n) != 'S' {
      FixedKind(n);
    }
    var env := AddVars(c);
    var names: seq<Bytes> := SortedKeys(c.secrets.Keys);
    assert Elements(names) == c.secrets.Keys;
    r := AddSecrets(env, c, names);
  }
}
