/**
 SSHSIG verification: length-prefixed strings (section 5 of RFC 4251), the
 signature blob and the signed data of OpenSSH's PROTOCOL.sshsig, and what it
 means for `VerifySSHSIG` to accept.  Keys, hashes and signature checks are
 uninterpreted: they are functions the caller supplies.
 */
module SshSig {
  import opened Options
  import opened Bytes

  const TWO_32: int := 0x1_0000_0000

  // ----- strings -------------------------------------------------------------------------

  function Be32(n: int): (r: Bytes)
    requires 0 <= n < TWO_32
    ensures |r| == 4 && ValueBe32(r) == n
  {
    var a := n / 256;
    var b := a / 256;
    [ByteOf(b / 256), ByteOf(b % 256), ByteOf(a % 256), ByteOf(n % 256)]
  }

  function ValueBe32(b: Bytes): (n: int)
    requires |b| == 4
    ensures 0 <= n < TWO_32
  {
    b[0] as int * 0x100_0000 + b[1] as int * 0x1_0000 + b[2] as int * 256 + b[3] as int
  }

  lemma Be32OfValue(b: Bytes)
    requires |b| == 4
    ensures Be32(ValueBe32(b)) == b
  {
    var w, x, y, z := b[0] as int, b[1] as int, b[2] as int, b[3] as int;
    var n := ValueBe32(b);
    assert n / 256 == w * 0x1_0000 + x * 256 + y;
    assert n / 256 / 256 == w * 256 + x;
  }

  /** Length prefixes rise in byte order, which only the big-endian code does. */
  lemma Be32Rises(m: int, n: int)
    requires 0 <= m < n < TWO_32
    ensures Le(Be32(m), Be32(n)) && Be32(m) != Be32(n)
  {
    var a, b := Be32(m), Be32(n);
    assert a != b;
    var i := FirstDifference(a, b);
    if a[i] > b[i] {
      HigherByteWins(b, a, i);
    }
    assert DifferAt(a, b, i);
    LeExactly(a, b);
  }

  lemma {:induction false} FirstDifference(a: Bytes, b: Bytes) returns (i: nat)
    requires |a| == |b| && a != b
    ensures DifferAt(a, b, i)
  {
    if a[0] != b[0] {
      i := 0;
    } else {
      assert a == [a[0]] + a[1..] && b == [b[0]] + b[1..];
      i := FirstDifference(a[1..], b[1..]);
      assert a[..i + 1] == [a[0]] + a[1..][..i] && b[..i + 1] == [b[0]] + b[1..][..i];
      i := i + 1;
    }
  }

  lemma HigherByteWins(a: Bytes, b: Bytes, i: nat)
    requires |a| == |b| == 4 && i < 4 && a[..i] == b[..i] && a[i] < b[i]
    ensures ValueBe32(a) < ValueBe32(b)
  {
    assert forall k :: 0 <= k < i ==> a[k] == a[..i][k] == b[k];
  }

  datatype ReadResult = Truncated | Read(val: Bytes, rest: Bytes)

  function ReadString(b: Bytes): ReadResult {
    if |b| < 4 then Truncated
    else
      var n := ValueBe32(b[..4]);
      if |b| - 4 < n then Truncated else Read(b[4..4 + n], b[4 + n..])
  }

  /** The length is cast to 32 bits, so it wraps at 2^32. */
  function AppendString(dst: Bytes, s: Bytes): Bytes {
    dst + Be32(|s| % TWO_32) + s
  }

  function Str(s: Bytes): Bytes {
    AppendString([], s)
  }

  /** Reading gives back what was appended, exactly below 2^32 bytes. */
  lemma ReadInvertsAppend(s: Bytes, rest: Bytes)
    ensures ReadString(Str(s) + rest) == Read(s, rest) <==> |s| < TWO_32
    ensures |s| < TWO_32 ==> Str(s) == Be32(|s|) + s
  {
    var b := Str(s) + rest;
    assert b[..4] == Be32(|s| % TWO_32);
    if |s| < TWO_32 {
      assert b[4..4 + |s|] == s && b[4 + |s|..] == rest;
    } else {
      assert |s| % TWO_32 < |s|;
    }
  }

  /** Appending gives back what was read. */
  lemma AppendInvertsRead(b: Bytes)
    requires ReadString(b).Read?
    ensures |ReadString(b).val| < TWO_32
    ensures Str(ReadString(b).val) + ReadString(b).rest == b
  {
    var Read(val, rest) := ReadString(b);
    Be32OfValue(b[..4]);
    ReadInvertsAppend(val, []);
    ThreeParts(b, |val|);
  }

  lemma ThreeParts(b: Bytes, n: nat)
    requires 4 + n <= |b|
    ensures b[..4] + b[4..4 + n] + b[4 + n..] == b
  {}

  // ----- the signature blob -----------------------------------------------------------------

  const MAGIC: Bytes := "SSHSIG"

  datatype Fields = Fields(publicKey: Bytes, namespace: Bytes, reserved: Bytes, hashAlgorithm: Bytes, signature: Bytes)

  predicate Sized(f: Fields) {
    && |f.publicKey| < TWO_32 && |f.namespace| < TWO_32 && |f.reserved| < TWO_32
    && |f.hashAlgorithm| < TWO_32 && |f.signature| < TWO_32
  }

  function Build(f: Fields): Bytes {
    MAGIC + Be32(1) + BuildFields(f)
  }

  function BuildFields(f: Fields): Bytes {
    Str(f.publicKey) + (Str(f.namespace) + (Str(f.reserved) + (Str(f.hashAlgorithm) + Str(f.signature))))
  }

  /** The five reads, one after the other; what follows the last field is ignored. */
  function ParseFields(b: Bytes): Option<Fields> {
    var pk := ReadString(b);
    if pk.Truncated? then None else
    var ns := ReadString(pk.rest);
    if ns.Truncated? then None else
    var reserved := ReadString(ns.rest);
    if reserved.Truncated? then None else
    var hash := ReadString(reserved.rest);
    if hash.Truncated? then None else
    var sig := ReadString(hash.rest);
    if sig.Truncated? then None else
    Some(Fields(pk.val, ns.val, reserved.val, hash.val, sig.val))
  }

  function Parse(b: Bytes): Option<Fields> {
    if |b| < 10 || b[..6] != MAGIC || ValueBe32(b[6..10]) != 1 then None
    else ParseFields(b[10..])
  }

  lemma ParseFieldsInvertsBuild(f: Fields, t: Bytes)
    requires Sized(f)
    ensures ParseFields(BuildFields(f) + t) == Some(f)
  {
    var t4 := Str(f.signature) + t;
    var t3 := Str(f.hashAlgorithm) + t4;
    var t2 := Str(f.reserved) + t3;
    var t1 := Str(f.namespace) + t2;
    Regroup(Str(f.publicKey), Str(f.namespace), Str(f.reserved), Str(f.hashAlgorithm), Str(f.signature), t);
    ReadInvertsAppend(f.publicKey, t1);
    ReadInvertsAppend(f.namespace, t2);
    ReadInvertsAppend(f.reserved, t3);
    ReadInvertsAppend(f.hashAlgorithm, t4);
    ReadInvertsAppend(f.signature, t);
  }

  /** The parse undoes the builder, whatever follows. */
  lemma ParseInvertsBuild(f: Fields, t: Bytes)
    requires Sized(f)
    ensures Parse(Build(f) + t) == Some(f)
  {
    var b := Build(f) + t;
    assert b[..6] == MAGIC && b[6..10] == Be32(1);
    assert b[10..] == BuildFields(f) + t;
    ParseFieldsInvertsBuild(f, t);
  }

  lemma Regroup(a: Bytes, b: Bytes, c: Bytes, d: Bytes, e: Bytes, t: Bytes)
    ensures a + (b + (c + (d + e))) + t == a + (b + (c + (d + (e + t))))
  {}

  lemma BuildFieldsInvertsParse(b: Bytes) returns (t: Bytes)
    requires ParseFields(b).Some?
    ensures Sized(ParseFields(b).value) && b == BuildFields(ParseFields(b).value) + t
  {
    var f := ParseFields(b).value;
    var pk := ReadString(b);
    var ns := ReadString(pk.rest);
    var reserved := ReadString(ns.rest);
    var hash := ReadString(reserved.rest);
    AppendInvertsRead(b);
    AppendInvertsRead(pk.rest);
    AppendInvertsRead(ns.rest);
    AppendInvertsRead(reserved.rest);
    AppendInvertsRead(hash.rest);
    t := ReadString(hash.rest).rest;
    Regroup(Str(f.publicKey), Str(f.namespace), Str(f.reserved), Str(f.hashAlgorithm), Str(f.signature), t);
  }

  lemma HeaderOf(b: Bytes)
    requires |b| >= 10 && b[..6] == MAGIC && ValueBe32(b[6..10]) == 1
    ensures b == MAGIC + Be32(1) + b[10..]
    ensures b[..10] == "SSHSIG" + [ByteOf(0), ByteOf(0), ByteOf(0), ByteOf(1)]
  {
    Be32OfValue(b[6..10]);
    assert b[..10] == b[..6] + b[6..10];
  }

  /** And only what the builder makes, with something behind it, parses. */
  lemma BuildInvertsParse(b: Bytes) returns (t: Bytes)
    requires Parse(b).Some?
    ensures Sized(Parse(b).value) && b == Build(Parse(b).value) + t
    ensures |b| >= 10 && b[..10] == "SSHSIG" + [ByteOf(0), ByteOf(0), ByteOf(0), ByteOf(1)]
    ensures var f := Parse(b).value;
            b[10..] == Str(f.publicKey) + (Str(f.namespace) + (Str(f.reserved) + (Str(f.hashAlgorithm) + Str(f.signature)))) + t
  {
    t := BuildFieldsInvertsParse(b[10..]);
    HeaderOf(b);
    Shift(MAGIC + Be32(1), BuildFields(Parse(b).value), t);
  }

  lemma Shift(a: Bytes, b: Bytes, c: Bytes)
    ensures a + (b + c) == a + b + c
  {}

  // ----- the signed data ---------------------------------------------------------------------------

  /** What a signer signs: the reserved field is always empty in it. */
  function SignedBlob(namespace: Bytes, hashAlgorithm: Bytes, digest: Bytes): Bytes {
    AppendString(AppendString(AppendString(AppendString(MAGIC, namespace), []), hashAlgorithm), digest)
  }

  /** The signed data determines namespace, hash algorithm and digest. */
  lemma SignedBlobInjective(n: Bytes, h: Bytes, d: Bytes, n': Bytes, h': Bytes, d': Bytes)
    requires |n| < TWO_32 && |h| < TWO_32 && |d| < TWO_32
    requires |n'| < TWO_32 && |h'| < TWO_32 && |d'| < TWO_32
    requires SignedBlob(n, h, d) == SignedBlob(n', h', d')
    ensures n == n' && h == h' && d == d'
  {
    SignedBlobParts(n, h, d);
    SignedBlobParts(n', h', d');
  }

  lemma SignedBlobLayout(n: Bytes, h: Bytes, d: Bytes)
    ensures var b := SignedBlob(n, h, d);
            |b| >= 6 && b[..6] == "SSHSIG" && b[6..] == Str(n) + (Str([]) + (Str(h) + Str(d)))
  {
    var a: Bytes := MAGIC + Str(n);
    assert AppendString(MAGIC, n) == a;
    assert AppendString(a, []) == a + Str([]);
    assert AppendString(a + Str([]), h) == a + Str([]) + Str(h);
    var b := SignedBlob(n, h, d);
    assert b == a + Str([]) + Str(h) + Str(d);
    assert a + Str([]) + Str(h) + Str(d) == MAGIC + (Str(n) + (Str([]) + (Str(h) + Str(d))));
  }

  lemma SignedBlobParts(n: Bytes, h: Bytes, d: Bytes)
    requires |n| < TWO_32 && |h| < TWO_32 && |d| < TWO_32
    ensures var b := SignedBlob(n, h, d);
            && b[..6] == "SSHSIG"
            && ReadString(b[6..]) == Read(n, Str([]) + (Str(h) + Str(d)))
            && ReadString(Str(h) + Str(d)) == Read(h, Str(d)) && ReadString(Str(d)) == Read(d, [])
            && ReadString(Str([]) + (Str(h) + Str(d))) == Read([], Str(h) + Str(d))
  {
    SignedBlobLayout(n, h, d);
    ReadInvertsAppend(n, Str([]) + (Str(h) + Str(d)));
    ReadInvertsAppend([], Str(h) + Str(d));
    ReadInvertsAppend(h, Str(d));
    assert Str(d) == Str(d) + [];
    ReadInvertsAppend(d, []);
  }

  // ----- verification ----------------------------------------------------------------------------------

  /** A parsed public key, identified by its wire form. */
  datatype Key = Key(wire: Bytes)

  /** The uninterpreted parts: PEM armor, key parsing, hashes, signature checks. */
  datatype Crypto = Crypto(
    dearmor: Bytes -> Option<Bytes>,
    parseKey: Bytes -> Option<Key>,
    sha256: Bytes -> Bytes,
    sha512: Bytes -> Bytes,
    verify: (Key, Bytes, Bytes, Bytes) -> bool)     // key, data, format, blob

  const DEFAULT_NAMESPACE: Bytes := "kpssh"

  predicate PermittedFormat(format: Bytes) {
    format in ["ssh-ed25519", "rsa-sha2-256", "rsa-sha2-512", "ecdsa-sha2-nistp256",
               "ecdsa-sha2-nistp384", "ecdsa-sha2-nistp521", "sk-ssh-ed25519@openssh.com",
               "sk-ecdsa-sha2-nistp256@openssh.com"]
  }

  function Digest(c: Crypto, hashAlgorithm: Bytes, message: Bytes): Option<Bytes> {
    if hashAlgorithm == "sha256" then Some(c.sha256(message))
    else if hashAlgorithm == "sha512" then Some(c.sha512(message))
    else None
  }

  function Wanted(namespace: Bytes): Bytes {
    if namespace == [] then DEFAULT_NAMESPACE else namespace
  }

  /** `sig` holds a permitted format and a signature that verifies over `data`. */
  ghost predicate SignedBy(c: Crypto, key: Key, data: Bytes, sig: Bytes) {
    exists format: Bytes, blob: Bytes, t: Bytes ::
      && |format| < TWO_32 && |blob| < TWO_32 && sig == Str(format) + (Str(blob) + t)
      && PermittedFormat(format) && c.verify(key, data, format, blob)
  }

  /** The blob carries a signature by an allowed key over exactly the signed data
      for this namespace and message. */
  ghost predicate Vouches(c: Crypto, message: Bytes, allowed: seq<Option<Key>>, namespace: Bytes, f: Fields) {
    && f.namespace == (if namespace == [] then "kpssh" else namespace)
    && c.parseKey(f.publicKey).Some?
    && c.parseKey(f.publicKey) in allowed
    && (f.hashAlgorithm == "sha256" || f.hashAlgorithm == "sha512")
    && SignedBy(c, c.parseKey(f.publicKey).value,
                SignedBlob(f.namespace, f.hashAlgorithm,
                           if f.hashAlgorithm == "sha256" then c.sha256(message) else c.sha512(message)),
                f.signature)
  }

  ghost predicate Accepts(c: Crypto, message: Bytes, armored: Bytes, allowed: seq<Option<Key>>, namespace: Bytes) {
    exists f: Fields, t: Bytes ::
      && Sized(f) && c.dearmor(armored) == Some(Build(f) + t)
      && Vouches(c, message, allowed, namespace, f)
  }

  lemma InnerUnique(sig: Bytes, x: Bytes, y: Bytes, t: Bytes)
    requires |x| < TWO_32 && |y| < TWO_32 && sig == Str(x) + (Str(y) + t)
    ensures ReadString(sig) == Read(x, Str(y) + t) && ReadString(Str(y) + t) == Read(y, t)
  {
    ReadInvertsAppend(x, Str(y) + t);
    ReadInvertsAppend(y, t);
  }

  /** The inner signature: format and blob, with anything behind them ignored. */
  method CheckInner(c: Crypto, key: Key, data: Bytes, sig: Bytes) returns (ok: bool)
    ensures ok <==> SignedBy(c, key, data, sig)
  {
    var format := ReadString(sig);
    var blob := if format.Read? then ReadString(format.rest) else Truncated;
    forall x, y, t | |x| < TWO_32 && |y| < TWO_32 && sig == Str(x) + (Str(y) + t)
      ensures format.Read? && format.val == x && blob.Read? && blob.val == y
    {
      InnerUnique(sig, x, y, t);
    }
    if blob.Truncated? {
      return false;
    }
    AppendInvertsRead(sig);
    AppendInvertsRead(format.rest);
    ok := PermittedFormat(format.val) && c.verify(key, data, format.val, blob.val);
  }

  /** The inner formats: only these eight, whatever the key would verify; SHA-1 "ssh-rsa"
      is not among them. */
  lemma OnlyTheseFormats(c: Crypto, key: Key, data: Bytes, format: Bytes, blob: Bytes, t: Bytes)
    requires |format| < TWO_32 && |blob| < TWO_32
    ensures SignedBy(c, key, data, Str(format) + (Str(blob) + t))
       <==> && c.verify(key, data, format, blob)
            && (|| format == "ssh-ed25519" || format == "rsa-sha2-256" || format == "rsa-sha2-512"
                || format == "ecdsa-sha2-nistp256" || format == "ecdsa-sha2-nistp384" || format == "ecdsa-sha2-nistp521"
                || format == "sk-ssh-ed25519@openssh.com" || format == "sk-ecdsa-sha2-nistp256@openssh.com")
  {
    var sig := Str(format) + (Str(blob) + t);
    forall x, y, u | |x| < TWO_32 && |y| < TWO_32 && sig == Str(x) + (Str(y) + u) ensures x == format && y == blob {
      InnerUnique(sig, x, y, u);
      InnerUnique(sig, format, blob, t);
    }
  }

  method Authorized(key: Key, allowed: seq<Option<Key>>) returns (authorized: bool)
    ensures authorized <==> Some(key) in allowed
  {
    authorized := false;
    for i := 0 to |allowed|
      invariant authorized <==> Some(key) in allowed[..i]
    {
      if allowed[i].Some? && allowed[i].value.wire == key.wire {
        authorized := true;
      }
    }
  }

  lemma FieldsUnique(b: Bytes, f: Fields, t: Bytes)
    requires Sized(f) && b == Build(f) + t
    ensures Parse(b) == Some(f)
  {
    ParseInvertsBuild(f, t);
  }

  /** VerifySSHSIG accepts exactly the armored blobs in which an allowed key vouches
      for this message under this namespace. */
  method Verify(c: Crypto, message: Bytes, armored: Bytes, allowed: seq<Option<Key>>, namespace: Bytes)
    returns (ok: bool)
    ensures ok <==> Accepts(c, message, armored, allowed, namespace)
  {
    var b := c.dearmor(armored);
    if allowed == [] || b.None? {
      return false;
    }
    forall f, t | Sized(f) && b.value == Build(f) + t ensures Parse(b.value) == Some(f) {
      FieldsUnique(b.value, f, t);
    }
    var parsed := Parse(b.value);
    if parsed.None? {
      return false;
    }
    ghost var trailing := BuildInvertsParse(b.value);
    ok := CheckFields(c, message, allowed, namespace, parsed.value);
  }

  method CheckFields(c: Crypto, message: Bytes, allowed: seq<Option<Key>>, namespace: Bytes, f: Fields) returns (ok: bool)
    ensures ok <==> Vouches(c, message, allowed, namespace, f)
  {
    var key := c.parseKey(f.publicKey);
    if f.namespace != Wanted(namespace) || key.None? {
      return false;
    }
    var authorized := Authorized(key.value, allowed);
    var digest := Digest(c, f.hashAlgorithm, message);
    if !authorized || digest.None? {
      return false;
    }
    ok := CheckInner(c, key.value, SignedBlob(f.namespace, f.hashAlgorithm, digest.value), f.signature);
  }

  /** Acceptance pins the message down to its digest: if the signature check only
      ever passes for the one piece of data that was signed, then what is accepted
      has that data's namespace, hash algorithm and digest. */
  lemma AcceptedIsWhatWasSigned(c: Crypto, message: Bytes, armored: Bytes, allowed: seq<Option<Key>>,
                                namespace: Bytes, n: Bytes, h: Bytes, d: Bytes)
    requires Accepts(c, message, armored, allowed, namespace)
    requires |n| < TWO_32 && |h| < TWO_32 && |d| < TWO_32 && |namespace| < TWO_32
    requires |c.sha256(message)| < TWO_32 && |c.sha512(message)| < TWO_32
    requires forall k, data, format, blob :: c.verify(k, data, format, blob) ==> data == SignedBlob(n, h, d)
    ensures n == (if namespace == [] then "kpssh" else namespace)
    ensures (h == "sha256" && d == c.sha256(message)) || (h == "sha512" && d == c.sha512(message))
  {
    var f, t :| Sized(f) && c.dearmor(armored) == Some(Build(f) + t) && Vouches(c, message, allowed, namespace, f);
    SignedBlobInjective(Wanted(namespace), f.hashAlgorithm, Digest(c, f.hashAlgorithm, message).value, n, h, d);
  }
}
