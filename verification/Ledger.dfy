/**
 The store's view of one SSHHost: the sequence of versions it has gone through,
 each tagged with the actor that wrote it, and the law every write obeys.

 `Lawful` relates a stored version to the entry written over it.  The actors are
 shown elsewhere to write lawful entries only; here every consequence that needs
 nothing but the law is proved about whole histories.
 */
module Ledger {
  import opened Options
  import opened Records

  const SECOND: int := 1_000_000_000
  const PROBE_INTERVAL: int := 120 * SECOND

  datatype Writer =
    | Registered                                   // the record's first version
    | Operator                                     // annotation, label or spec edit
    | Claimer(nc: ClaimRef, hostClass: string)     // Claim
    | Setter(nc: ClaimRef)                         // setStatus
    | Releaser(nc: ClaimRef)                       // Release
    | Prober                                       // the probe reconciler

  datatype Entry = Entry(version: Version, who: Writer)

  const BLANK_STATUS := Status(Unset, None, "", "", "", None, 0, "", 0)

  /** resourceVersions are positions in the history. */
  type History = h: seq<Entry> | 0 < |h|
    witness [Entry(Version(BLANK_STATUS, false, "default", 1), Registered)]

  function Current(hist: History): Version {
    hist[|hist| - 1].version
  }

  function StatusAt(hist: History, i: nat): Status
    requires i < |hist|
  {
    hist[i].version.status
  }

  // ----- the law ----------------------------------------------------------------

  predicate SameMeta(v: Version, w: Version) {
    w == v.(status := w.status)
  }

  /** One field, and only one the field setters may touch. */
  predicate OneField(s: Status, t: Status) {
    || t == s.(installed := t.installed)
    || t == s.(token := t.token)
    || t == s.(providerID := t.providerID)
    || t == s.(state := InUse)
  }

  /** A release clears the claim and the providerID.  The token record goes too,
      unless the copy the release was computed from had already lost it. */
  predicate ReleaseOf(s: Status, t: Status) {
    && (t.token == "" || t.token == s.token)
    && (|| t == Released(s, true, "").(token := t.token)
        || t == Released(s, false, t.probeError).(token := t.token))
  }

  /** A recorded probe is never closer than the interval to the one it replaces,
      as long as both are of the same generation. */
  predicate Spaced(s: Status, t: Status) {
    || (t.probedAt == s.probedAt && t.observedGeneration == s.observedGeneration)
    || (&& t.probedAt.Some?
        && t.probedAt.value % SECOND == 0
        && (s.probedAt.Some? && s.observedGeneration == t.observedGeneration
            ==> t.probedAt.value - s.probedAt.value >= PROBE_INTERVAL))
  }

  /** The probe's writes on a claimed host: drop a stale claim, drop a spent
      token's id, or record observations. */
  predicate ClaimedUpkeep(s: Status, t: Status) {
    || t == s.(facts := t.facts)
    || (s.providerID != "" && t == s.(token := "", facts := t.facts))
    || t == s.(claim := None, providerID := "", token := "", state := Pending, facts := t.facts)
  }

  /** The probe's writes on an unclaimed host never set a claim, and only make a
      host Available while it carries no maintenance annotation. */
  predicate UnclaimedUpkeep(v: Version, t: Status) {
    var s := v.status;
    && t.claim == None
    && t.installed == s.installed && t.token == s.token && t.providerID == s.providerID
    && !InClaimedState(t)
    && (t.state == Available ==> !v.maintenance)
    && (t.state == Maintenance ==> v.maintenance)
    && (t.observedGeneration == s.observedGeneration || t.observedGeneration == v.generation)
    && Spaced(s, t)
  }

  predicate Upkeep(v: Version, t: Status) {
    if v.status.claim.Some? then ClaimedUpkeep(v.status, t) else UnclaimedUpkeep(v, t)
  }

  predicate Lawful(v: Version, e: Entry) {
    var s, t := v.status, e.version.status;
    match e.who
    case Registered => false
    case Operator => t == s && v.generation <= e.version.generation
    case Claimer(nc, hostClass) =>
      Claimable(v, hostClass) && e.version == v.(status := ClaimedBy(s, nc))
    case Setter(nc) => SameMeta(v, e.version) && HeldBy(s, nc) && OneField(s, t)
    case Releaser(nc) => SameMeta(v, e.version) && HeldBy(s, nc) && ReleaseOf(s, t)
    case Prober => SameMeta(v, e.version) && Upkeep(v, t)
  }

  /** The consistency of a stored status. */
  predicate Sound(s: Status) {
    && (s.claim.Some? <==> InClaimedState(s))
    && (s.providerID != "" ==> s.claim.Some?)
    && (s.probedAt.Some? ==> s.probedAt.value % SECOND == 0)
  }

  /** A status never observed a generation that is yet to come. */
  predicate Dated(v: Version) {
    v.status.observedGeneration <= v.generation
  }

  ghost predicate LawfulHistory(hist: History) {
    && hist[0].who == Registered
    && Sound(StatusAt(hist, 0)) && Dated(hist[0].version)
    && forall i :: 0 < i < |hist| ==> Lawful(hist[i - 1].version, hist[i])
  }

  // ----- consequences, over every lawful history -------------------------------------

  lemma LawfulKeepsSound(v: Version, e: Entry)
    requires Sound(v.status) && Lawful(v, e)
    ensures Sound(e.version.status)
  {}

  /** In every stored version: a claim exactly in the states Claimed and InUse,
      and a providerID only under a claim. */
  lemma {:induction false} AllSound(hist: History, i: nat)
    requires LawfulHistory(hist) && i < |hist|
    ensures Sound(StatusAt(hist, i))
  {
    if i > 0 {
      AllSound(hist, i - 1);
      LawfulKeepsSound(hist[i - 1].version, hist[i]);
    }
  }

  /** A version that changes hands from nobody to `ref` was claimable: Available,
      unclaimed, not annotated for maintenance and of the class asked for; and
      nothing but the state and the claim changes. */
  lemma ClaimsReplaceClaimable(hist: History, i: nat)
    requires LawfulHistory(hist) && 0 < i < |hist|
    requires StatusAt(hist, i).claim.Some?
    requires StatusAt(hist, i).claim != StatusAt(hist, i - 1).claim
    ensures hist[i].who.Claimer?
    ensures var v, wanted := hist[i - 1].version, hist[i].who.hostClass;
            && v.status.state == Available && v.status.claim == None && !v.maintenance
            && (wanted != "" ==> v.hostClass == wanted)
    ensures hist[i].version
         == hist[i - 1].version.(status := StatusAt(hist, i - 1).(state := Claimed, claim := Some(hist[i].who.nc)))
  {
    assert Lawful(hist[i - 1].version, hist[i]);
  }

  /** Ownership passes from one NodeClaim to another only through a version that
      is unclaimed and Available. */
  lemma {:induction false} OwnershipPassesThroughAvailable(hist: History, i: nat, j: nat) returns (k: nat)
    requires LawfulHistory(hist) && i < j < |hist|
    requires StatusAt(hist, i).claim.Some? && StatusAt(hist, j).claim.Some?
    requires StatusAt(hist, i).claim != StatusAt(hist, j).claim
    ensures i < k < j
    ensures StatusAt(hist, k).claim == None && StatusAt(hist, k).state == Available
  {
    if StatusAt(hist, j - 1).claim == StatusAt(hist, j).claim {
      k := OwnershipPassesThroughAvailable(hist, i, j - 1);
    } else {
      ClaimsReplaceClaimable(hist, j);
      k := j - 1;
    }
  }

  /** The fence: a launch or teardown for `nc` writes only over a version nobody
      holds (its claim) or one that `nc` holds.  So whatever a late Delete of a
      dead NodeClaim does, no version held by a successor is ever written over. */
  lemma OnlyOwnRecordsAreWritten(hist: History, i: nat, nc: ClaimRef)
    requires LawfulHistory(hist) && 0 < i < |hist|
    requires hist[i].who == Setter(nc) || hist[i].who == Releaser(nc)
          || (hist[i].who.Claimer? && hist[i].who.nc == nc)
    ensures hist[i].who.Claimer? ==> StatusAt(hist, i - 1).claim == None
    ensures !hist[i].who.Claimer? ==>
              var held := StatusAt(hist, i - 1).claim;
              held.Some? && held.value.name == nc.name
              && (held.value.uid != "" && nc.uid != "" ==> held.value.uid == nc.uid)
    ensures hist[i].who.Releaser? ==> StatusAt(hist, i).claim == None
    ensures hist[i].who.Setter? ==> StatusAt(hist, i).claim == StatusAt(hist, i - 1).claim
  {
    assert Lawful(hist[i - 1].version, hist[i]);
  }

  /** Leaving is a fence: nobody but the probe changes anything about the status
      of a host that is Leaving, and the probe sets no claim on it. */
  lemma LeavingIsAFence(hist: History, i: nat)
    requires LawfulHistory(hist) && 0 < i < |hist|
    requires StatusAt(hist, i - 1).state == Leaving
    ensures StatusAt(hist, i).claim == None
    ensures hist[i].who != Prober ==> StatusAt(hist, i) == StatusAt(hist, i - 1)
  {
    AllSound(hist, i - 1);
    assert Lawful(hist[i - 1].version, hist[i]);
  }

  lemma {:induction false} AllDated(hist: History, i: nat)
    requires LawfulHistory(hist) && i < |hist|
    ensures Dated(hist[i].version)
  {
    if i > 0 {
      AllDated(hist, i - 1);
      assert Lawful(hist[i - 1].version, hist[i]);
    }
  }

  lemma {:induction false} ObservationsRise(hist: History, i: nat, j: nat)
    requires LawfulHistory(hist) && i <= j < |hist|
    ensures StatusAt(hist, i).observedGeneration <= StatusAt(hist, j).observedGeneration
  {
    if i < j {
      ObservationsRise(hist, i, j - 1);
      AllDated(hist, j - 1);
      assert Lawful(hist[j - 1].version, hist[j]);
    }
  }

  /** Recorded probes of one generation are rate limited: if versions `i` and `j`
      record probes of the same generation, these are one probe or at least an
      interval apart. */
  lemma {:induction false} ProbesAreSpaced(hist: History, i: nat, j: nat)
    requires LawfulHistory(hist) && i <= j < |hist|
    requires StatusAt(hist, i).probedAt.Some?
    requires StatusAt(hist, j).observedGeneration == StatusAt(hist, i).observedGeneration
    ensures StatusAt(hist, j).probedAt.Some?
    ensures var a, b := StatusAt(hist, i).probedAt.value, StatusAt(hist, j).probedAt.value;
            a == b || b - a >= PROBE_INTERVAL
  {
    if i < j {
      ObservationsRise(hist, i, j - 1);
      ObservationsRise(hist, j - 1, j);
      ProbesAreSpaced(hist, i, j - 1);
      assert Lawful(hist[j - 1].version, hist[j]);
      assert Spaced(StatusAt(hist, j - 1), StatusAt(hist, j));
    }
  }
}
