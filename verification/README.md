# karpenter-provider-ssh: the claim protocol and its wire formats, verified

karpenter-provider-ssh is a Karpenter provider that runs nodes on a pool of
existing machines over SSH.  Each machine is an `SSHHost` record in the API
server.  Launches (`Create`), teardowns (`Delete`) and repairs (`Reboot`) claim,
edit and release these records; one probe reconciler per host keeps them healthy,
collects bootstrap tokens and drives out kubelets that belong to nobody.  Nothing
is locked: everything rests on compare-and-swap writes made from copies that may
be stale, while the phases run on real machines and cannot be undone.

The project models that protocol and the formats around it in Dafny and proves
what the design promises.  `dafny verify dfyconfig.toml` checks all of it.

## How it is laid out

| files | about |
|---|---|
| `Options`, `Records`, `Ledger` | the host record, merge patches, and the law that every stored version obeys; theorems about any lawful history |
| `Protocol` | the state machine: one event is one API request, one end of a phase, or one move of the environment |
| `Invariant`, `RunTheorems` | the inductive invariant and its consequences in every run: any interleaving, stale reads, lost responses |
| `Outcomes`, `ProbeOutcomes` | what calls and the probe leave stored is what they were answered, in every run |
| `Orderly`, `InstallFirst`, `PhaseTrace` | mutual exclusion of phases, install before everything, properly bracketed traces |
| `AnsweredRuns`, `Stranding` | when a token id is stored without a claim |
| `Tokens`, `TokenTheorems`, `Collection`, `CollectedEarly` | what becomes of a bootstrap token, and exactly when it can be lost or collected too early |
| `Witnesses` | a launch that goes through, and runs that lead to each of the failures below |
| `Candidates` | the hosts a launch may try, in order |
| `HostProvider`, `Reconciler` | the Go methods in imperative form against an arbitrary environment, proved to do exactly what the machine does under the same answers |
| `Bytes`, `Base64`, `Envelope`, `Shim` | the verified-execution envelope: Go writer, shell reader, round trip |
| `SshSig` | SSHSIG encoding and acceptance |
| `ScriptEnv`, `Preamble` | the script environment, and how a POSIX shell reads the export preamble back |
| `Redact`, `PhaseErrors` | redaction of secrets, and the classification of join failures |
| `InstanceTypes` | the shape advertised for a class of hosts |

## Reading the protocol theorems

A run is `Run(s, events)` for an `Initial` pool and any sequence of events.
`Step` is total: an event that does not fit the state changes nothing, so the
theorems quantify over every sequence.  A read may return any version ever
stored; a write may be answered, lost before it took effect or lost after it.
A host's history is the sequence of its stored versions, each with its writer; a
resourceVersion is a position in it.

Three kinds of runs occur.  *Every run* has no side condition.  *Orderly runs*
add karpenter core's side of the contract: calls are serialised per NodeClaim,
the NodeClaim outlives them, they start from a current read of their claim, and a
NodeClaim is reported gone only when it is.  *Tame runs* are orderly and have
every write answered: accepted, or refused as a conflict.

The imperative code runs against a tape of turns: what others land before each
request (anything lawful), which version a read returns, and whether an answer is
lost.  *Undisturbed* means that others land nothing and every answer arrives; reads
may still be old.  `Reconciler.Next` is one step of the machine's probe fed with the answers of
the same environment; it is a function, so "leads to" has one end only
(`LeadsToOneEnd`), and a body that did anything else would not meet its contract.
`Reconciler.Reconciled` says once more, without the machine, what an undisturbed
reconcile leaves of a host.

Contracts name fields, states and constants outright where a definition that the
operation itself uses would otherwise stand on both sides: which state a release
stores, what makes a host claimable, the staleness interval, exit codes, the
alphabet of base64, the names of headers and variables.

## Where the code and its promises part

- A token id can outlive its claim in the store.  In every run it does so exactly
  when a release lands that was computed from a copy which does not show the stored
  id (`TokensClaimedExactly`); a failed launch gets there exactly when the request to
  clear the id is lost before it takes effect (`StrandedExactlyWhenClearIsLost`).
- A launch opened over the record of a token can lose it, and nothing else can
  (`OrphanedExactlyWhenOpenedOver`).
- A token can be collected before its join is sent exactly when it was minted beside
  a providerID that an earlier launch recorded (`SafeExactlyWithoutProvider`).
- A teardown that starts from an old version held by its own NodeClaim sends its
  leave into whatever is running (`StaleTeardownOverlaps`): the current read is
  needed.
- The comments on configuration errors say that the host was never touched.  It was
  touched exactly when an install was due and ran and the join's own check failed
  after it (`HealthyYetTouched`).
- Redaction hides a value from every message exactly when the value has at least
  eight bytes and cannot overlap the placeholder (`HiddenExactlyWhenDistinct`).
- Each of the first four is reached, tamely up to the event that does it, from every
  pool with an Available host (`Witnesses`).
- Length prefixes of strings of 2^32 bytes and more wrap; reading inverts
  appending exactly below that length (`ReadInvertsAppend`).

## Model

| member | source | states |
|---|---|---|
| Records.Merged | pkg/providers/host/host.go:178-181 | a merge patch computed from the stored version stores the edit, and one without edits stores nothing new |
| Records.MergedFieldwise | pkg/providers/host/host.go:178-181 | of a patch exactly the edited fields are stored; every other field keeps what is stored |
| Ledger.AllSound | pkg/apis/v1beta1/sshhost_types.go:26-44 | in every lawful history each version has a claim exactly in the states Claimed and InUse, and a providerID only under a claim |
| Ledger.ClaimsReplaceClaimable | pkg/providers/host/host.go:131-172 | whoever sets a new claim replaced a version whose state was Available, whose claim was None, without maintenance annotation and of the class asked for unless none was, and stored Claimed and its claim over it, nothing else |
| Ledger.OwnershipPassesThroughAvailable | pkg/providers/host/host.go:162-234 | between versions of two owners lies an unclaimed Available version |
| Ledger.OnlyOwnRecordsAreWritten | pkg/providers/host/host.go:83-92 | setters and releasers write only over versions their NodeClaim holds, by name and UID |
| Ledger.LeavingIsAFence | pkg/controllers/hostprobe.go:311-358 | the entry after a Leaving version has no claim, and only the probe changes its status |
| Ledger.ProbesAreSpaced | pkg/controllers/hostprobe.go:183-202 | in any lawful history, two versions that observed the same generation record one probe, or probes at least the interval apart |
| Invariant.StepInv | pkg/providers/instance/instance.go:134-201 | every event of every actor keeps the inductive invariant: all histories lawful, every copy faithful to the version it came from, the fence up while the guard is inside |
| Invariant.RunInv | pkg/providers/instance/instance.go:444-506 | the invariant holds after any sequence of events from a new pool |
| Invariant.CallOutcomeOk | pkg/providers/instance/instance.go:311-438 | one step of a launch, teardown or repair adds at most one lawful entry, under its own name, whatever it read |
| Invariant.ProbeStepOk | pkg/controllers/hostprobe.go:104-234 | one step of the probe adds at most one lawful entry, whatever it read |
| RunTheorems.StoreIsAlwaysSound | pkg/providers/host/host.go:162-254 | in every run each stored version has a claim exactly in Claimed and InUse, and a providerID only under a claim |
| RunTheorems.ClaimsAreFair | pkg/providers/instance/instance.go:143-165 | in every run a claim replaces only a version that is Available, unclaimed, not annotated for maintenance and, if a class was asked for, of that class |
| RunTheorems.OwnersAreSeparated | pkg/providers/host/host.go:131-172 | in every run ownership passes only through an unclaimed Available version |
| RunTheorems.SuccessorsAreSafe | pkg/providers/instance/instance.go:444-483 | in every run no write of a call for one NodeClaim replaces a version held by another |
| RunTheorems.FenceHolds | pkg/controllers/hostprobe.go:311-358 | while the guard is inside, the host is stored as Leaving and unclaimed, and no event of anybody claims it |
| RunTheorems.ProbesAreAlwaysSpaced | pkg/controllers/hostprobe.go:183-233 | in every run with a monotone clock, two stored versions that observed the same generation record one probe, or probes at least the interval apart |
| RunTheorems.StaleTeardownOverlaps | pkg/providers/instance/instance.go:444-470 | in any state in which another call's phase runs on the host, a teardown that reads an older version of its own makes two phases run at once |
| Outcomes.RunTells | pkg/providers/instance/instance.go:166-201 | in every run, where a call stands tells its trace: on the way out it is healthy exactly if the latest answer about its configuration or its script was a configuration error of a launch or the end of a leave that went well, and it counts its join as sent exactly if it sent it |
| Outcomes.ReleasedAsItEnded | pkg/providers/instance/instance.go:463-478 | in every run the last write of a call stores no claim and no providerID and the state Available exactly if a teardown's own leave ended well, or a launch failed over its configuration; otherwise Unhealthy with the reason; it lands exactly if its copy is current and the request arrives |
| Outcomes.AvailableAgainOnlyIfJoinUnsent | pkg/providers/instance/instance.go:171-178 | in every run a launch about to release its host healthy has no sending of its join script on its trace |
| Outcomes.TeardownEnds | pkg/providers/instance/instance.go:444-483 | from a current read of its own host a teardown runs leave, revokes the recorded token and stores claim None, no token, and Available if and only if leave ended well, otherwise Unhealthy with the reason |
| Outcomes.UninstalledTeardownEnds | pkg/providers/instance/instance.go:463-478 | without an install marker no leave runs and the host is stored Unhealthy with the reason |
| Outcomes.RepairEnds | pkg/providers/instance/instance.go:490-506 | a repair starts exactly on a host with an install marker, runs reboot and nothing else, and writes nothing |
| Outcomes.OpensExactly | pkg/providers/host/host.go:83-92 | a call starts exactly on a host claimed under its NodeClaim's name and, where both sides know one, its UID |
| Outcomes.ClaimSucceedsExactly | pkg/providers/host/host.go:131-172 | a claim that is answered lands, and the launch goes on from it, exactly if the version read is the stored one, Available, unclaimed, not annotated and of the class asked for; otherwise nothing is written and the launch looks on |
| Outcomes.CallsEndOnly | pkg/providers/instance/instance.go:166-201 | a call that holds a host ends only at its release, at the last setters of a launch, or as a repair |
| ProbeOutcomes.RunTells | pkg/controllers/hostprobe.go:182-234 | in every run, where the probe stands tells what its reconcile found, and what it is about to store reports it |
| ProbeOutcomes.FindingsAreStored | pkg/controllers/hostprobe.go:191-233 | the landing write that ends a reconcile stores Available without error exactly after a probe without kubelet or a leave that ended well, and Unhealthy with the message exactly after a failed probe, an unaccounted kubelet, or a leave not sent or failed |
| ProbeOutcomes.OpenedOnlyWhenFound | pkg/controllers/hostprobe.go:282-359 | in every run and whatever the event, an entry of the prober makes a host Available only after a probe that answered without a kubelet or after the guard's leave ended well, and Unhealthy only after one of those failures, with its message |
| PhaseTrace.PhasesAreBracketed | pkg/providers/instance/instance.go:260-270 | in every orderly run the trace of phases on a host is properly bracketed, and the phase it is inside of is exactly the one running there |
| Witnesses.LaunchGoesThrough | pkg/providers/instance/instance.go:134-201 | from any state with an Available host at rest a launch that is answered well installs unless that marker is recorded, mints, joins, and leaves the host InUse under its claim with marker, token id and providerID, the token existing, joined and its own |
| Candidates.ListAvailable | pkg/providers/host/host.go:131-159 | exactly the hosts that are Available, unclaimed, not annotated and of the class asked for, by age and then by name |
| Candidates.OneOrder | pkg/providers/host/host.go:152-158 | hosts of different names have one such order, however they are listed |
| Orderly.RunOrder | pkg/providers/instance/instance.go:134-142 | in orderly runs a call's stored claim is its own as long as it lives, and no claim is stored twice |
| Orderly.PhasesNeverOverlap | pkg/providers/instance/instance.go:260-270 | in every orderly run at most one of install, join, leave and reboot runs on a host, the guard's leave included |
| Orderly.OneHostPerNodeClaim | pkg/providers/host/host.go:309-320 | in every orderly run a NodeClaim holds at most one host, and its calls work on that one |
| InstallFirst.InstallComesFirst | pkg/providers/instance/leave.go:91-138 | in every run a join, leave or reboot on a host is preceded by a successful install on it |
| AnsweredRuns.TokenOnlyUnderClaim | pkg/providers/host/host.go:222-254 | with every write answered, a token id is stored only under a claim |
| Stranding.ReleaseStrands | pkg/providers/host/host.go:222-234 | a release strands a token id exactly when it lands from a copy without the id over a record that has one |
| Stranding.TokensClaimedExactly | pkg/providers/host/host.go:183-234 | in every run, a host's token ids are stored only under claims if and only if no release landed from a copy that did not show the stored id |
| Stranding.StrandedExactlyWhenClearIsLost | pkg/providers/instance/instance.go:427-438 | after a failed launch tried to clear the id and revoked the token, the release drops the claim and keeps the id exactly when the clearing request was lost before it took effect |
| Tokens.CallOutcomeTokens | pkg/providers/instance/instance.go:374-438 | one step of a call loses no held token, and changes the recorded one only once that is spent or by recording its own in its place |
| Tokens.ProbeStepTokens | pkg/controllers/hostprobe.go:155-181 | one step of the probe makes the record forget only spent tokens |
| Tokens.RunTokens | pkg/providers/instance/instance.go:209-227 | after every tame run each recorded token belongs to the claim and the host of its record, and each launch knows what became of its token |
| TokenTheorems.NoTokenIsOrphaned | pkg/providers/instance/instance.go:374-409 | in every tame run in which no launch is opened over the record of it, an existing token is recorded on the host and under the NodeClaim it was minted for, held by the launch that minted it, or failed to be deleted |
| TokenTheorems.ForgottenOnlyOnceDeleted | pkg/providers/instance/instance.go:220-227 | in such runs an event that changes a recorded id leaves that token deleted, or its deletion tried |
| Collection.CollectedAfterJoin | pkg/controllers/hostprobe.go:155-181 | in every tame run in which it was not minted beside a recorded providerID, the probe collects a token only once its join has succeeded |
| CollectedEarly.CollectedBeforeJoin | pkg/controllers/hostprobe.go:161-166 | a token minted beside a recorded providerID has a tame continuation in which the probe is about to collect it and its join has not succeeded |
| CollectedEarly.SafeExactlyWithoutProvider | pkg/providers/instance/instance.go:374-389 | in tame runs a freshly minted token is never collected before its join if and only if no providerID was recorded when it was minted |
| Witnesses.StrandedIsReachable | pkg/providers/instance/instance.go:427-438 | from every pool with an Available host a tame run leads to where losing one request strands a token id |
| Witnesses.OpenedOverIsReachable | pkg/providers/instance/instance.go:134-142 | from every such pool a tame run leads to a launch opened over the record of an existing token |
| Witnesses.MintedBesideIsReachable | pkg/controllers/hostprobe.go:155-181 | from every such pool a tame run leads to a token minted beside a recorded providerID |
| Witnesses.OverlapIsReachable | pkg/providers/instance/instance.go:444-470 | from every such pool a tame run leads to where a teardown from an old version makes two phases run at once |
| TokenTheorems.ResumeOrphansRecordedToken | pkg/providers/instance/instance.go:374-395 | a launch opened over the record of an existing token has a tame continuation that leaves the token alive and unaccounted for |
| TokenTheorems.OrphanedExactlyWhenOpenedOver | pkg/providers/instance/instance.go:134-142 | after any tame event an existing token stays accounted for if and only if the event did not open a launch over the record of it |
| HostProvider.ApiServer.Write | pkg/providers/host/host.go:174-181 | a write lands exactly as the machine's swap or patch does, on what is stored once the others had their turn |
| HostProvider.Provider.Claim | pkg/providers/host/host.go:162-172 | succeeds exactly if the version read is still stored when the others had their turn and the answer arrives; success stored Claimed and the claim over exactly that version; a conflict writes nothing |
| HostProvider.Provider.CasPatch | pkg/providers/host/host.go:178-181 | a patch lands or not as a whole, and on success the object is the stored version |
| HostProvider.Provider.Release | pkg/providers/host/host.go:222-234 | a release that lands does so over a version its NodeClaim holds; what an accepted one stored has no claim and no providerID, is Available with the old error text if healthy and otherwise Unhealthy with the reason, and has no token id unless the copy missed it |
| HostProvider.Provider.SetStatus | pkg/providers/host/host.go:192-211 | against any environment it terminates, writes at most once in at most four attempts, over a version carrying the claim it was issued under and in one field only, and writes nothing once the claim changed; success from a clean copy means that field has its value |
| HostProvider.SetterIsTheMachines | pkg/providers/host/host.go:192-211 | every turn of that loop, attempt and re-read, is one step of the machine's setter with one attempt less |
| HostProvider.SetterSucceedsUndisturbed | pkg/providers/host/host.go:192-211 | while nobody else writes and the claim is still its own, the setter succeeds, at the second attempt if its copy was old |
| Reconciler.HostProbe.PatchStatus | pkg/controllers/hostprobe.go:458-472 | against any environment, leaves record, tape, own versions, Node, kubelet and tokens exactly where the machine's patching probe leads; undisturbed, the stored status is the edited one |
| Reconciler.HostProbe.HandleZombie | pkg/controllers/hostprobe.go:282-359 | likewise from the guarding probe; undisturbed, the host is stored Unhealthy with the message if nothing is installed or leave is not sent or fails, stays Leaving if its Node cannot be deleted, and otherwise is Available without error with Node and kubelet gone |
| Reconciler.HostProbe.TendClaimed | pkg/controllers/hostprobe.go:126-181 | likewise from the checking probe; undisturbed, a claim whose NodeClaim is not found, or has another UID, is dropped with providerID and token and the host is Pending; of a live claim only the token goes, once it has a providerID and its Node is there; an error changes nothing |
| Reconciler.HostProbe.ProbeHost | pkg/controllers/hostprobe.go:191-233 | likewise from the probing probe; undisturbed, time and generation are recorded, an unreachable host is Unhealthy with the error, one without kubelet Available without error, and one with a kubelet goes to the guard |
| Reconciler.HostProbe.Reconcile | pkg/controllers/hostprobe.go:104-234 | against any environment, one reconcile ends exactly where the machine's probe leads from the version read; while nobody else writes, a current read leaves record, Node, kubelet and tokens as `Reconciled` says for each case: claimed, annotated, due or not, whatever the cache shows meanwhile; a lagging read changes neither record nor host |
| Reconciler.LeadsToOneEnd | pkg/controllers/hostprobe.go:104-234 | under one environment the machine's probe has one end: the contracts above leave no other outcome |
| Reconciler.NextIsTheMachines | pkg/controllers/hostprobe.go:104-234 | a step of that probe is the system's own step for the same store, time and answer |
| Reconciler.GuardActsBehindFence | pkg/controllers/hostprobe.go:311-358 | at every moment of every reconcile, against any environment, the store is lawful, the prober's entries are the reconcile's own, and leave and Node deletion happen only on a host stored as Leaving and unclaimed |
| Reconciler.RunLagging | pkg/controllers/hostprobe.go:276-281 | any number of reconciles that read the past leave record, Node and kubelet as they are |
| Reconciler.RecoverZombie | pkg/controllers/hostprobe.go:126-153 | while nobody else writes, two reconciles that read what is stored take an InUse host with a vanished NodeClaim to Available and unclaimed, with Node and kubelet gone, with any number of reconciles whose cache lags before, between and after them |
| Bytes.SortedKeys | internal/sshexec/sshexec.go:233-233 | the keys of a map in strictly rising byte order, each once |
| Bytes.LeExactly | internal/sshexec/sshexec.go:233-233 | the byte order: a prefix comes first, and otherwise the first byte that differs decides |
| Base64.RoundTrip | internal/sshexec/envelope.go:124-131 | decoding what was encoded gives the bytes back (section 4 of RFC 4648) |
| Base64.EncodeIsOneLine | internal/sshexec/envelope.go:124-131 | encoded text has no newline, blank or NUL, and is empty only for nothing |
| Base64.DigitsAreTheAlphabet | internal/sshexec/envelope.go:124-131 | the digits are the standard alphabet in its order (section 4 of RFC 4648) |
| Base64.EncodeIsPositional | internal/sshexec/envelope.go:124-131 | every three bytes and their four digits are the same number, missing bytes counting as zero |
| Base64.PaddingIsExact | internal/sshexec/envelope.go:124-131 | the length is four digits for every three bytes begun, padded exactly for the bytes missing of the last three |
| Envelope.GatesAgree | internal/sshexec/envelope.go:77-77 | the writer's name grammar and the reader's two patterns accept the same names: KPSSH_ and at least one letter, digit or underscore |
| Envelope.Marshal | internal/sshexec/envelope.go:101-133 | an envelope is written exactly if its phase is one of the six, a phase other than probe has script and signature, and every param has a good name and a value without newline |
| Envelope.WireText | internal/sshexec/envelope.go:109-132 | the text on the wire, line by line |
| Envelope.BlockIsSorted | internal/sshexec/envelope.go:114-124 | the params block is the one listing of the params in the byte order of their names |
| Shim.ReadHeader | shim/kpssh-shim:69-80 | the read loop computes the fold of the header lines |
| Shim.HeaderIsLastFields | shim/kpssh-shim:69-80 | of each field the header loop keeps what its last line says, whatever the order and whatever else is there |
| Shim.ReadParams | shim/kpssh-shim:135-149 | the read loop computes the fold of the param lines, or refuses |
| Shim.ParamsExact | shim/kpssh-shim:135-149 | params are refused exactly when a line is not empty and has no `=` or no good name; otherwise exactly the names on the lines are exported, with what the last line of each says |
| Shim.Shim | shim/kpssh-shim:69-149 | on any bytes, exactly when each exit code is given, when facts are printed and when a script runs, and under which environment; of a written envelope exactly what the writer was given runs, and one whose signature does not verify is refused |
| Shim.OnlyGatedCodeRuns | shim/kpssh-shim:117-149 | whatever the bytes on the wire, only a signed phase whose script passed the gate runs, under vetted names |
| Shim.WireRoundTrip | shim/kpssh-shim:69-80 | the reader recovers every header the writer wrote |
| Shim.EnvelopeRoundTrip | internal/sshexec/envelope.go:101-133 | the shim executes exactly the phase, script and signature the writer was given, under the params as a shell sees them |
| Shim.ReceivedUnchanged | shim/kpssh-shim:135-149 | the params arrive unchanged exactly when no value holds a NUL |
| SshSig.Be32Rises | internal/sshexec/sshsig.go:57-68 | length prefixes rise in byte order with the lengths: they are big-endian (section 5 of RFC 4251) |
| SshSig.ReadInvertsAppend | internal/sshexec/sshsig.go:53-70 | reading undoes appending exactly for strings below 2^32 bytes, and what is appended is the length and the string |
| SshSig.AppendInvertsRead | internal/sshexec/sshsig.go:53-70 | appending undoes reading |
| SshSig.ParseInvertsBuild | internal/sshexec/sshsig.go:108-135 | the five-field parse undoes the builder, whatever follows |
| SshSig.BuildInvertsParse | internal/sshexec/sshsig.go:108-135 | only what the builder makes parses: the magic, version 1, then public key, namespace, reserved, hash algorithm and signature, and anything behind them |
| SshSig.SignedBlobInjective | internal/sshexec/sshsig.go:168-173 | equal signed data have equal namespace, hash name and digest (section 3 of PROTOCOL.sshsig) |
| SshSig.OnlyTheseFormats | internal/sshexec/sshsig.go:204-213 | an inner signature is accepted exactly if the key verifies it and its format is one of eight; SHA-1 ssh-rsa is none of them |
| SshSig.Verify | internal/sshexec/sshsig.go:97-190 | accepts exactly when the blob is for this namespace, kpssh by default, and an allowed key signed, in a permitted format, the data for it and the sha256 or sha512 digest of this message |
| SshSig.AcceptedIsWhatWasSigned | internal/sshexec/sshsig.go:97-190 | if only one piece of data was ever signed, acceptance fixes namespace, hash algorithm and digest to its |
| ScriptEnv.Env | internal/profile/profile.go:71-106 | refuses exactly when two secret keys share a name; otherwise each of the nine facts, every var and every secret is there under its name and unshadowed, and nothing else |
| ScriptEnv.ClashExactly | internal/profile/profile.go:96-104 | two secret keys share a name exactly if they are as long and differ only in the case of letters and among dash, dot and underscore |
| Preamble.BuildText | internal/sshexec/sshexec.go:227-239 | the text is built exactly when every name is an identifier |
| Preamble.LexBody | internal/sshexec/sshexec.go:278-280 | a quoted body reads back as the value itself (sections 2.2.1 and 2.2.2 of the POSIX Shell Command Language) |
| Preamble.PreambleRoundTrip | internal/sshexec/sshexec.go:227-239 | after `set` the shell reads one export per entry, in order, with its value, then the script, unless a value holds a NUL |
| Preamble.ScriptRunsInEnv | internal/sshexec/sshexec.go:227-239 | from any environment the script runs, unchanged, under that environment overlaid with exactly the given one |
| Redact.ReplaceIsSplitAndJoin | internal/profile/profile.go:138-138 | replace-all is splitting at the pattern and joining with the replacement |
| Redact.PiecesLoseNothing | internal/profile/profile.go:138-138 | the pieces joined with the pattern are the message |
| Redact.PiecesHoldNoMatch | internal/profile/profile.go:138-138 | no piece holds the pattern |
| Redact.SortLongestFirst | internal/profile/profile.go:132-133 | a permutation of the values by falling length |
| Redact.Redact | internal/profile/profile.go:120-141 | the result is the message with the context's values replaced in some longest-first order |
| Redact.NoValueSurvives | internal/profile/profile.go:120-141 | no value of eight bytes or more without brackets, other than the placeholder's word, occurs in the result, seams included |
| Redact.HiddenExactlyWhenDistinct | internal/profile/profile.go:109-141 | a value is hidden from every message, beside any other values, exactly when it is long enough and cannot overlap the placeholder |
| Redact.FirstMatchFirst | internal/profile/profile.go:138-138 | the first match is replaced where it stands, then what follows it in turn |
| Redact.NothingShows | internal/profile/profile.go:120-141 | neither the token nor the secret behind its dot nor any named secret occurs in the result, if it is of eight bytes or more without brackets and not the placeholder's word |
| Redact.NeverHalfRedacted | internal/profile/profile.go:132-140 | a value on its own becomes exactly one placeholder, even when shorter values are contained in it |
| PhaseErrors.ClassifiedByFirstFailure | pkg/providers/instance/instance.go:260-422 | a join fails exactly when one of the answers it meets does, and its error is marked as a configuration error exactly when the first to fail is about configuration, through both runners, redaction and wrapping |
| PhaseErrors.HealthyOnlyIfJoinUnsent | pkg/providers/instance/instance.go:171-178 | a host goes straight back to Available only if no join script was handed to an executor |
| PhaseErrors.HealthyYetTouched | pkg/providers/instance/instance.go:114-119 | a host is released as healthy although a script reached it if and only if all reads answer, an install is due, passes its check and runs, everything up to the join answers, and the join's own check fails |
| PhaseErrors.UnrenderableJoinAfterInstall | pkg/providers/instance/instance.go:359-405 | an input for which that happens |
| PhaseErrors.PublishedTextHides | pkg/providers/instance/instance.go:416-422 | a value occurs in no published text of a phase, under any text put in front of it, if and only if it is long enough, cannot overlap the placeholder, and the text in front neither holds nor begins it |
| PhaseErrors.JoinErrorHides | pkg/providers/instance/instance.go:397-422 | whatever the join script fails with, the error the join returns, and any text put in front of it, shows no value of the context that holds the bootstrap token, if the value is long enough, cannot overlap the placeholder and is neither held nor begun by what stands in front |
| PhaseErrors.InstallErrorHides | pkg/providers/instance/instance.go:359-369 | the same of the install script and the context before the token is minted |
| InstanceTypes.MinCapacity | pkg/providers/instancetype/instancetype.go:200-214 | the loop computes the per-resource minimum over the resources both have |
| InstanceTypes.MeetIsGreatest | pkg/providers/instancetype/instancetype.go:197-214 | a demand fits the minimum exactly when it fits both |
| InstanceTypes.Absorb | pkg/providers/instancetype/instancetype.go:99-122 | counting a host keeps the class described: shape, architecture, mixture and availability |
| InstanceTypes.List | pkg/providers/instancetype/instancetype.go:84-186 | fails exactly when the price does not parse; otherwise a class is listed, once, exactly when its usable hosts show one architecture; a demand fits its shape exactly when every usable host of the class can meet it, pods being the node class's to say, then the host's, then 110; it is available exactly when one of them is free; its price is the rate, 0.02 by default, times its cpu, it reserves what the node class says or the default, and its requirements are exactly the labels of a node on any probed host of the class |
| InstanceTypes.ListingIgnoresOrder | pkg/providers/instancetype/instancetype.go:91-150 | listings of the same hosts in any order hold the same types |

## Left out

- Karpenter core, controller-runtime queues and field indexes: present only as the discipline of orderly runs.
- Deletion of SSHHost records, and a controller that crashes in mid-call: a run may leave a call where it stands for ever, but the call is not forgotten.
- The order in which a launch tries classes (`sortByPrice`) and hosts is not built into the machine: a launch may try any host and any listed version, which covers every order.
- A host's class in the record is the effective one: its label, or "default" without one.
- The attempts of the default backoff are the constant 4 of client-go; waiting times are not modelled.
- Metrics, events, the Ready condition and probe observations: folded into one field that no decision reads.
- SSH dialing, sessions, timeouts and host keys: a phase is a start and an end with an arbitrary result.
- PEM armor, key parsing, hashing and signature checks: functions the caller supplies.  Template rendering: an answer that may fail.
- Invariant.RunInv: says nothing about progress; convergence is stated only by `RecoverZombie`.
- HostProvider.Provider.SetStatus: after a lost response the copy carries an edit the store may not have; the contract then promises only the fence and the single field.
- ScriptEnv.Env: capitals are made of ASCII letters only; Secret keys have no others.
- InstanceTypes.List: prices are real numbers, not floating-point ones.
- Preamble.PreambleRoundTrip: that the reader gives up on a NUL is a convention of the model; the standard leaves NUL in shell input undefined.
- PhaseErrors.ClassifiedByFirstFailure: the second building of the environment counts as an answer that is not about configuration, as the code does not mark its failure; it is built from the same secrets as the first and cannot be the first to fail.
- Shell patterns in the shim are read in the C locale; its temporary files and its re-execution under sudo are not modelled.
- pkg/controllers/nodeclass.go, pkg/controllers/startuptaintgate.go, pkg/cloudprovider/cloudprovider.go, probe output parsing, labels, taints and timeouts: mapping and filtering that would only add easy members.
