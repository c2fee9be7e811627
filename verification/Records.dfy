/**
 The SSHHost record: its status, the stored versions it goes through, and the
 way a controller's in-memory copy is turned into a status write.

 A status patch is a JSON merge patch: only the fields that differ between the
 saved original and the edited copy travel to the API server, which applies them
 to whatever is stored.  `Diff` and `ApplyPatch` model exactly that.
 */
module Records {
  import opened Options

  /** Identity of a NodeClaim, and the shape of `status.claimRef`. */
  datatype ClaimRef = ClaimRef(name: string, uid: string)

  /** `Unset` is the empty state of a record nobody has reconciled yet. */
  datatype HostState =
    Unset | Pending | Available | Claimed | InUse | Unhealthy | Leaving | Maintenance

  /** `facts` stands for every observation the protocol never branches on: host
      key, capacity, architecture and the derived Ready condition. */
  datatype Status = Status(
    state: HostState,
    claim: Option<ClaimRef>,
    installed: string,
    token: string,
    providerID: string,
    probedAt: Option<int>,
    observedGeneration: int,
    probeError: string,
    facts: int)

  /** A stored SSHHost: status, plus what the operator owns. */
  datatype Version = Version(
    status: Status, maintenance: bool, hostClass: string, generation: int)

  /** An SSHHost in a controller's memory, with the resourceVersion it came from. */
  datatype Copy = Copy(rv: nat, version: Version)

  // ----- claims -------------------------------------------------------------

  /** The name-and-UID fence: an empty UID on either side disables the UID half. */
  predicate Matches(ref: ClaimRef, nc: ClaimRef) {
    ref.name == nc.name && (ref.uid == "" || nc.uid == "" || ref.uid == nc.uid)
  }

  predicate HeldBy(s: Status, nc: ClaimRef) {
    s.claim.Some? && Matches(s.claim.value, nc)
  }

  predicate InClaimedState(s: Status) {
    s.state == Claimed || s.state == InUse
  }

  /** What the launch path looks for; the empty class means any class. */
  predicate Claimable(v: Version, hostClass: string) {
    && v.status.state == Available
    && v.status.claim == None
    && !v.maintenance
    && (hostClass == "" || v.hostClass == hostClass)
  }

  function ClaimedBy(s: Status, nc: ClaimRef): Status {
    s.(state := Claimed, claim := Some(nc))
  }

  function Released(s: Status, healthy: bool, reason: string): Status {
    var cleared := s.(claim := None, providerID := "", token := "");
    if healthy then cleared.(state := Available)
    else cleared.(state := Unhealthy, probeError := reason)
  }

  // ----- merge patches --------------------------------------------------------

  datatype Change<T> = Keep | To(value: T)

  datatype Patch = Patch(
    state: Change<HostState>,
    claim: Change<Option<ClaimRef>>,
    installed: Change<string>,
    token: Change<string>,
    providerID: Change<string>,
    probedAt: Change<Option<int>>,
    observedGeneration: Change<int>,
    probeError: Change<string>,
    facts: Change<int>)

  function Changed<T(==)>(a: T, b: T): Change<T> {
    if a == b then Keep else To(b)
  }

  function Or<T>(c: Change<T>, current: T): T {
    if c.Keep? then current else c.value
  }

  function Diff(orig: Status, edited: Status): Patch {
    Patch(
      Changed(orig.state, edited.state),
      Changed(orig.claim, edited.claim),
      Changed(orig.installed, edited.installed),
      Changed(orig.token, edited.token),
      Changed(orig.providerID, edited.providerID),
      Changed(orig.probedAt, edited.probedAt),
      Changed(orig.observedGeneration, edited.observedGeneration),
      Changed(orig.probeError, edited.probeError),
      Changed(orig.facts, edited.facts))
  }

  function ApplyPatch(p: Patch, s: Status): Status {
    Status(
      Or(p.state, s.state),
      Or(p.claim, s.claim),
      Or(p.installed, s.installed),
      Or(p.token, s.token),
      Or(p.providerID, s.providerID),
      Or(p.probedAt, s.probedAt),
      Or(p.observedGeneration, s.observedGeneration),
      Or(p.probeError, s.probeError),
      Or(p.facts, s.facts))
  }

  /** What a merge patch stores.  Over the base it was computed from, it stores
      the edited copy, which is what makes a compare-and-swap of a patch as good
      as one of the whole status. */
  function Merged(orig: Status, edited: Status, stored: Status): (r: Status)
    ensures orig == stored ==> r == edited
    ensures orig == edited ==> r == stored
  {
    ApplyPatch(Diff(orig, edited), stored)
  }

  /** Only the fields that were edited travel; every other keeps what is stored. */
  lemma MergedFieldwise(orig: Status, edited: Status, stored: Status)
    ensures var r := Merged(orig, edited, stored);
            && r.state == (if edited.state == orig.state then stored.state else edited.state)
            && r.claim == (if edited.claim == orig.claim then stored.claim else edited.claim)
            && r.installed == (if edited.installed == orig.installed then stored.installed else edited.installed)
            && r.token == (if edited.token == orig.token then stored.token else edited.token)
            && r.providerID == (if edited.providerID == orig.providerID then stored.providerID else edited.providerID)
            && r.probedAt == (if edited.probedAt == orig.probedAt then stored.probedAt else edited.probedAt)
            && r.observedGeneration
               == (if edited.observedGeneration == orig.observedGeneration then stored.observedGeneration else edited.observedGeneration)
            && r.probeError == (if edited.probeError == orig.probeError then stored.probeError else edited.probeError)
            && r.facts == (if edited.facts == orig.facts then stored.facts else edited.facts)
  {}
}
