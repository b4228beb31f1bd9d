# A verified model of the Hetzner Robot infrastructure provider

The controllers turn bare-metal servers into cluster machines. Many machine objects share a pool
of host objects; each machine claims one host, drives its server through rescue, wipe, image and
configuration, and gives the host back when it is deleted. This project models the decisions of
these controllers in Dafny and proves what they guarantee.

| files | about |
|---|---|
| `Api`, `Common`, `Text` | the API objects, small vocabulary, Go's string functions |
| `Policy`, `Derivations` | the destructive-action gate; provider IDs, back-off, IPv6 addresses |
| `Claims`, `HostReconcile` | the ownership rules, and the host part of the machine controller as imperative code |
| `Ownership`, `OwnershipSteps`, `OwnershipRuns`, `OwnershipLimits` | the ownership protocol with any number of interleaved reconciles |
| `HostController` | the host controller |
| `Provisioning`, `ProvisioningSteps`, `ProvisioningRuns`, `ProvisioningTiming` | the provisioning state machine, what one reconcile means, its runs, and its numbers |
| `Remediation` | the remediation phase machine |
| `Tree`, `Documents`, `Inject`, `FlowYaml` | multi-document YAML, the Talos injections, and a library that meets what they assume |
| `DataUri`, `Ignition` | the Ignition rewrites |
| `UnitFile`, `FlatcarFiles` | a reader of systemd's files, and what the Flatcar additions say to it |
| `Addresses` | the addresses a machine reports, against the ones its kubelet registers |
| `Shell`, `Hardware` | shell quoting, the hardware report, the install disk, the wipe confirmation |

Code that changes things step by step is imperative here too: classes with the source's fields,
loops with invariants. Each such method is tied to a function of its inputs or of the old state,
and the theorems are about these functions and about runs made of them.

## How the protocol is modelled

* A reconcile holds the machine copy it works on and the host copy it read. It takes one step per
  API call, and any other step of the system may happen in between. A reconcile can be lost at any
  point, together with its deferred machine patch.
* The imperative host code is verified against `Cluster.Interfere`, whose contract (`Rely`) is all
  it may assume about others; `OwnershipRuns.OthersMeetRely` proves that every step of the protocol
  meets it.
* In a provisioning run, every API, SSH and Talos call is an arbitrary observation (`Env`). Effects
  on the server go to a log. An `Unsaved` reconcile performs any prefix of its effects and stores
  nothing.

## Assumptions

* A host patch is compare-and-swap on the object's version, as the comment at
  `controllers/hetznerrobotmachine_host.go:107-110` relies on.
  `OwnershipLimits.BlindPatchClaimsTwice` shows that exclusive ownership needs it.
* There is one reconcile at a time per object. The machine patch is atomic, and may be lost.
* A release of a host and the removal of the machine's finalizer are not separated by a lost
  reconcile (`KeepsReleases`), because the recorded-host branch of `resolveHostForDelete` does not
  look at the owner again. `OwnershipLimits.LostReleaseHitsForeignHost` shows what happens then.
* No machine adopts a host that another machine's status records and that only refers to a machine
  that is gone (`NoTakeovers`). It never happens if the machines' provider IDs name different
  servers, and their own in the case of such a record
  (`OwnershipRuns.DistinctServersSuffice`); `OwnershipLimits.SharedServerTakesOver` shows the
  opposite. `OwnershipSteps.StepInvExactly` shows that a lost release and such an adoption are the
  only two kinds of steps that can break the invariant.
* A run starts with nothing in flight and without contradictions between the records: a machine
  owns at most one host, which its spec leads to; a recorded host is owned by the machine that
  records it, or is in use and refers to nobody or to a machine that is gone, and then only one
  machine records it; a host that is not in use refers to nobody. The imperative code in
  `HostReconcile` is verified without the second of these.
* Reads return what is stored. Names of machines and hosts are not empty and not reused while
  something refers to them; labels are fixed for a host name.
* `serverID` is at least 1 and does not change; `hostRef`, `hostSelector` and `osType` do not change.
  A provisioning run sees one server, which is what `OwnershipRuns.OneServer` gives.
* One clock reading in seconds per reconcile; the clock does not go back.
* The YAML library decodes a document into a map or nil, writes each of the five trees the pipeline
  makes as one clean document closed by a newline, and reads it back (`Inject.Survives`).
* Whether an error is permanent is a flag of the error.

## Where the code differs from its documentation

The model follows the code.

* `README.md:173-175` says that the back-off starts at 15 seconds and that rescue is retried 8
  times. The code starts at 30 seconds and has no retry limit but the 30-minute timeout.
* `controllers/hetznerrobotmachine_ignition.go:538-540` says that the encoding covers ':' and '/'.
  It covers '/', but url.PathEscape keeps ':' (and '@', '&', '=', '+', '$').
* `controllers/hetznerrobotmachine_states.go:45` speaks of 5 minutes; the cooldown is 2 minutes.
* `controllers/hetznerrobotremediation_controller.go:152-154` relies on the requeue delay for the
  timeout. Nothing enforces it (`Remediation.TimeoutKeptExactly`, `Remediation.TimeoutNotKept`).
* The failure reason of the error state is cleared again (`ProvisioningTiming.ReasonDroppedExactly`).

## Model

| member | source | states |
|---|---|---|
| OwnershipRuns.Exclusive | controllers/hetznerrobotmachine_host.go:26-138 | at no point of any run, with reconciles interleaved and lost at will, do two machines hold (own, record or work on) the same host |
| OwnershipRuns.ExactlyOnce | controllers/hetznerrobotmachine_host.go:44-102 | at no point of any run does one machine hold two hosts |
| OwnershipRuns.ClaimRecovered | controllers/hetznerrobotmachine_host.go:49-65 | after a claim whose machine patch was lost, the next reconcile works on the very host the machine owns, for recorded, direct and selector machines, whatever else is available |
| OwnershipRuns.NeverStolen | controllers/hetznerrobotmachine_host.go:144-237 | in every run a host passes directly from one machine to another only by an adoption or by the repair of the new owner's own record: no consumerRef, the legacy owner gone, and the provider ID naming the host's own server |
| OwnershipRuns.PatchWrites | controllers/hetznerrobotmachine_host.go:121-237 | in every run a host patch of a machine changes the very host that was read, in exactly the fields its purpose names: Claimed without a dirty reason, Provisioned for adoption and repair, Available with the references cleared, the last owner and the dirty reason for a release |
| OwnershipRuns.BecomesAvailable | controllers/hetznerrobothost_controller.go:57-66 | two undisturbed rounds of the host controller give a newly registered host the finalizer and then make it Available, and change nothing else |
| OwnershipRuns.ActionsAuthorised | controllers/hetznerrobotmachine_controller.go:309-330 | for every rescue activation, reset, wipe and image write of every run there is a gate step of the same reconcile that read that host copy, outside maintenance and either clean-slate compute, or storage with an unexpired release that names this host and Machine; the action is done by the host's owner, or in a delete on a recorded legacy host that no existing machine owned |
| OwnershipRuns.AvailableAgain | controllers/hetznerrobotmachine_host.go:356-374 | a host in use turns Available only by the release of a machine that owns it or has the legacy record of it, is being deleted and passed the gate |
| OwnershipRuns.ReturnToAvailable | controllers/hetznerrobotmachine_controller.go:451-482 | the same over whole runs |
| OwnershipRuns.DeleteNeverClaims | controllers/hetznerrobotmachine_host.go:306-347 | in every run, whatever a reconcile that deletes its machine writes to a host is a release |
| OwnershipRuns.ControlPlaneUntouched | controllers/hetznerrobotmachine_policy.go:36-41 | from any point of a run at which no reconcile is past the gate for a host or holds an older copy of it with another class, and as long as the host is class control-plane: no machine acts on it physically from there on, and once in use it never becomes claimable |
| OwnershipRuns.RegisteredHarmless | controllers/hetznerrobotmachine_policy.go:36-41 | the registration of a host is such a point |
| OwnershipRuns.ClaimStays | controllers/hetznerrobothost_controller.go:102-119 | in every run, a host that a machine owns and that carries the finalizer stays in the store with the finalizer, the same owner and the same server ID until that machine releases it or is removed, whatever anybody does |
| OwnershipRuns.OneServer | controllers/hetznerrobotmachine_controller.go:302-307 | and all that the machine holds in that time is this one host on this one server |
| OwnershipRuns.ProtectedStays | controllers/hetznerrobothost_controller.go:102-119 | no step whatever removes an owned host that has the finalizer, or its finalizer |
| OwnershipRuns.DistinctServersSuffice | controllers/hetznerrobotmachine_host.go:239-283 | if the provider IDs of existing machines name different servers, and a machine with a legacy record to repair names that host's server, no adoption takes a host another machine's legacy record is waiting for, and the invariant holds without assuming that |
| OwnershipRuns.GuardedExactly | controllers/hetznerrobothost_controller.go:57-66 | every step keeps the finalizer on all registered hosts, except exactly an adoption of a host that has none yet |
| OwnershipRuns.OthersMeetRely | controllers/hetznerrobotmachine_host.go:107-110 | every step of everybody else meets the assumption the imperative reconcile code is verified against |
| OwnershipRuns.RunInv | controllers/hetznerrobotmachine_host.go:26-138 | the ownership invariant holds at every point of every run, from starts that include machines with stale legacy records |
| OwnershipSteps.StepInv | controllers/hetznerrobotmachine_host.go:26-138 | the ownership invariant is inductive: each of the 24 kinds of steps keeps it, outside the two cases named by StepInvExactly |
| OwnershipSteps.StepInvExactly | controllers/hetznerrobotmachine_controller.go:475-485 | a step breaks the invariant if and only if it loses a reconcile between its release and its finalizer removal, or adopts a host that another machine's legacy record is waiting for |
| OwnershipLimits.LostReleaseHitsForeignHost | controllers/hetznerrobotmachine_host.go:310-316 | a concrete run: when that patch is lost, the repeated delete resets the server of the next owner |
| OwnershipLimits.BlindPatchClaimsTwice | controllers/hetznerrobotmachine_host.go:107-110 | without compare-and-swap two machines claim one host |
| OwnershipLimits.LegacyHostRepaired | controllers/hetznerrobotmachine_host.go:213-235 | a concrete run in which a provisioned machine takes its recorded host back from a machine that is gone |
| OwnershipLimits.SharedServerTakesOver | controllers/hetznerrobotmachine_host.go:239-283 | a concrete run: when two machines name one server, an adoption takes a host another machine records, and both hold it |
| HostReconcile.ResolveHost | controllers/hetznerrobotmachine_host.go:26-138 | from any store: success records a host this machine owns, an owned protected host is the one returned, the claims stay consistent, and failure without an API error means there is nothing to resolve or a foreign owner; the one write, field by field, repairs the references of its own or its recorded host, or turns an Available, unowned one into a Claimed one of this machine |
| HostReconcile.PickHost | controllers/hetznerrobotmachine_host.go:44-105 | a claim of our own is found before anything else is chosen, and with consistent claims a candidate is proposed only if this machine owns nothing |
| HostReconcile.ClaimCandidate | controllers/hetznerrobotmachine_host.go:111-137 | a successful claim stores the host it read, Available and unowned, with state Claimed, no dirty reason, both references to this machine and all else unchanged, and records it; a failed one writes nothing and has a cause |
| HostReconcile.EnsureHostConsumerRef | controllers/hetznerrobotmachine_host.go:443-464 | for any host just read: a foreign owner is refused without a write, otherwise both references and nothing else are set to this machine; the store then has a claimable host with an owner if and only if that host was free |
| HostReconcile.BlockingHostOwnerRef | controllers/hetznerrobotmachine_host.go:397-431 | no blocking owner if and only if the owner is nobody, this machine, or a legacy owner that a Get reported missing on the same server |
| HostReconcile.ResolveProvisionedAdoptionHost | controllers/hetznerrobotmachine_host.go:239-283 | through a selector the host found is the only matching one on the provider ID's server, and without an API error it fails only if there is none, or more than one |
| HostReconcile.AdoptHost | controllers/hetznerrobotmachine_host.go:184-197 | the adoption stores exactly the checked copy as Provisioned, with both references to this machine and dirty reason and error message cleared, and makes it the only host owned |
| HostReconcile.BackfillProvisionedHostClaim | controllers/hetznerrobotmachine_host.go:144-198 | at most one write, which is a legal adoption; a failure changes nothing and comes from an API error, the provider ID, the search, or a host that may not be adopted |
| HostReconcile.EnsureProvisionedHostStatus | controllers/hetznerrobotmachine_host.go:200-237 | for any recorded host: success means it is Provisioned and refers to this machine, with no error message and all else as read, taken at most from a legacy owner that is gone on the same server; failure means an API error, a missing host, or one that another machine holds |
| HostReconcile.ResolveHostForDelete | controllers/hetznerrobotmachine_host.go:306-347 | writes no host, and a host found through the spec is one this machine has claimed |
| HostReconcile.ReleaseHost | controllers/hetznerrobotmachine_host.go:356-374 | the released host is Available with both references and the error message cleared, the last owner and the dirty reason recorded, and all else as read; failure means an API error or a missing host |
| HostReconcile.FilterByServerID | controllers/hetznerrobotmachine_host.go:265-273 | keeps the hosts on the server, in order |
| Claims.RewritesForeignOwnerExactly | controllers/hetznerrobotmachine_host.go:397-431 | a foreign owner is overwritten if and only if it is a legacy reference to a vanished machine on the same server |
| Claims.AdoptionIsUnambiguous | controllers/hetznerrobotmachine_host.go:265-282 | a selector adoption is accepted only for the one listed host on that server |
| Claims.WithServerIDOnce | controllers/hetznerrobotmachine_host.go:265-282 | two listed hosts on one server make the selector adoption ambiguous |
| Claims.FirstClaimed | controllers/hetznerrobotmachine_host.go:76-90 | finds a claimed host exactly when the listing has one |
| Claims.FirstClaimable | controllers/hetznerrobotmachine_host.go:92-97 | finds a claimable host exactly when the listing has one |
| HostController.HostObject.Reconcile | controllers/hetznerrobothost_controller.go:38-123 | the finalizer goes exactly when a deleted host has no reference left, an unset state becomes Available exactly when the finalizer was there, missing addresses become what the Robot API reports, stored ones stay |
| HostController.CompletedAddresses | controllers/hetznerrobothost_controller.go:83-90 | a network completed from the Robot API gives the same ::1 address in every derivation |
| Policy.AuthorizeDestructiveProvisioning | controllers/hetznerrobotmachine_policy.go:58-98 | succeeds if and only if the gate formula holds: no maintenance, and clean-slate compute or released storage |
| Policy.AuthorizeByClass | controllers/hetznerrobotmachine_policy.go:17-56 | without releases only clean-slate compute hosts pass |
| Policy.FindActiveHostRelease | controllers/hetznerrobotmachine_policy.go:100-132 | finds a release if and only if an unexpired one for this host and Machine identity exists |
| Policy.AuthorizeAutomatedHardwareReset | controllers/hetznerrobotmachine_policy.go:134-172 | succeeds if and only if the host is clean-slate compute and not in maintenance |
| Provisioning.RobotMachine.Reconcile | controllers/hetznerrobotmachine_controller.go:121-204 | one reconcile in place has exactly the specified state and effects: finalizer, timeout, back-off, error classes |
| Provisioning.RobotMachine.ReconcileNormal | controllers/hetznerrobotmachine_controller.go:261-390 | exactly the specified outcome: gate, then client, then the handler of the stage |
| Provisioning.RobotMachine.ReconcileDelete | controllers/hetznerrobotmachine_controller.go:392-488 | exactly the specified outcome: drain, gate, rescue and reset, release, finalizer |
| Provisioning.RobotMachine.StateActivateRescue | controllers/hetznerrobotmachine_states.go:35-84 | exactly the specified outcome: the stage and the reset time change only after a successful activation and reset outside the cooldown |
| Provisioning.RobotMachine.StateCheckRescueActive | controllers/hetznerrobotmachine_states.go:89-181 | exactly the specified outcome: verified rescue, reactivation, or a Talos disk wiped first |
| Provisioning.RobotMachine.DetectHardware | controllers/hetznerrobotmachine_states.go:227-273 | hardware detection and disk choice, with the identity recorded even if a later step fails |
| Provisioning.RobotMachine.PrepareDisks | controllers/hetznerrobotmachine_states.go:274-286 | the wipe succeeds only if every reported disk was confirmed |
| Provisioning.RobotMachine.StateInstallTalos | controllers/hetznerrobotmachine_states.go:184-362 | no disk is touched before the rescue system is verified in the same reconcile |
| Provisioning.RobotMachine.StateInstallFlatcar | controllers/hetznerrobotmachine_flatcar.go:24-224 | bootstrap data and keys are checked before any disk is touched |
| Provisioning.RobotMachine.StateWaitInstall | controllers/hetznerrobotmachine_states.go:365-402 | maintenance mode advances, a fully booted Talos goes back to rescue |
| Provisioning.RobotMachine.StateWaitTalosMaintenanceMode | controllers/hetznerrobotmachine_states.go:405-442 | advances only in maintenance mode and after the endpoint patch |
| Provisioning.RobotMachine.StateApplyConfig | controllers/hetznerrobotmachine_states.go:444-576 | the provider ID and the stage change only after the configuration was accepted |
| Provisioning.RobotMachine.StateWaitForBoot | controllers/hetznerrobotmachine_states.go:579-608 | Provisioned and ready exactly when Talos is up |
| Provisioning.RobotMachine.StateWaitFlatcarInstall | controllers/hetznerrobotmachine_flatcar.go:229-263 | advances when the core user can log in |
| Provisioning.RobotMachine.StateWaitFlatcarBoot | controllers/hetznerrobotmachine_flatcar.go:269-309 | Provisioned and ready exactly when the bootstrap sentinel exists |
| ProvisioningSteps.ImagesChosen | controllers/hetznerrobotmachine_states.go:246-299 | in every reconcile an image is written after the confirmed wipe of all disks of the report that was parsed, to the configured disk if that holds no Ceph data, else to the first disk that does not; the status records that disk's stable path, and the MAC and gateway of the report |
| ProvisioningSteps.ReleasesRightly | controllers/hetznerrobotmachine_controller.go:451-482 | in every reconcile a host is released only in a delete with no drain pending, a client and an open gate (or no server), directly after the activation and the reset of its server |
| ProvisioningSteps.DeletesExactly | controllers/hetznerrobotmachine_controller.go:392-488 | under these conditions a delete resets and releases exactly that host and drops the finalizer; with a drain pending it does nothing and keeps it; otherwise it drops the finalizer and leaves the host claimed |
| ProvisioningSteps.MovesExactly | controllers/hetznerrobotmachine_states.go:35-608 | a reconcile goes from a stage to another one if and only if it gets to the handler and makes the observations that step waits for, spelled out for every stage of both systems |
| ProvisioningSteps.TalosWipedFirst | controllers/hetznerrobotmachine_states.go:130-181 | a server found running Talos on the way to the rescue system has its system disk wiped before the reset |
| ProvisioningSteps.FailsExactly | controllers/hetznerrobotmachine_controller.go:165-204 | the error state is reached exactly by the 30-minute timeout or a permanent fault, with Ready false and a reason; any other failure is counted and keeps the stage; success clears the count |
| ProvisioningRuns.ReconcileAuthorised | controllers/hetznerrobotmachine_controller.go:322-334 | in every state, whatever is observed, a physical effect happens only with the gate open for the host of that server, from a gated stage or in a delete |
| ProvisioningRuns.HandleFits | controllers/hetznerrobotmachine_controller.go:338-390 | the handler of an ungated stage emits no reset, activation or disk effect, and disks are touched only from ActivatingRescue and InRescue |
| ProvisioningRuns.InstallShape | controllers/hetznerrobotmachine_states.go:196-359 | Installing is reached exactly by verified rescue, a confirmed wipe of all disks and an image write, in this order |
| ProvisioningRuns.RunInv | controllers/hetznerrobotmachine_states.go:35-608 | what the effect log holds for each stored stage, in every run with lost patches and interrupted reconciles |
| ProvisioningRuns.ProvenanceOfProvisioned | controllers/hetznerrobotmachine_states.go:557-598 | a Provisioned machine was reset directly after its rescue system was activated, then verified, wiped and written with no disk effect since, then (Talos) configured; the disks wiped, the disk written and the disk, MAC and gateway in its status come from one hardware report of the run; its provider ID parses to the server's ID |
| ProvisioningRuns.AlwaysDetected | controllers/hetznerrobotmachine_states.go:483-501 | the "not detected" exits of stateApplyConfig are unreachable |
| ProvisioningRuns.ReadyExactly | controllers/hetznerrobotmachine_controller.go:262-285 | in every run, until it is deleted, a machine is ready if and only if it is Provisioned |
| ProvisioningRuns.EnteredWhenAwaited | controllers/hetznerrobotmachine_states.go:365-608 | in every run a stage is entered only by a stored reconcile that made the observations the step waits for |
| ProvisioningRuns.ReleasesInRuns | controllers/hetznerrobotmachine_controller.go:451-482 | in every run, with lost patches and interrupted reconciles, every release in the log follows the activation and the reset of that server, by a delete that was allowed to |
| ProvisioningTiming.ProvisioningBounds | controllers/hetznerrobotmachine_controller.go:130-163 | with stored patches: at most 9 failures in a row before the timeout, at most 16 successful resets, any two at least 120 seconds apart |
| ProvisioningTiming.SpacingKeptExactly | controllers/hetznerrobotmachine_states.go:46-55 | in every run, whatever patches are lost, successful resets are at least 120 seconds apart if and only if no reconcile resets within 120 seconds of a last reset that the stored status does not remember, or in a delete |
| ProvisioningTiming.UnsavedResets | controllers/hetznerrobotmachine_states.go:46-55 | a run in which that happens: two resets in the same second |
| ProvisioningTiming.FinalStates | controllers/hetznerrobotmachine_controller.go:130-132 | Provisioned and the error state are left only for Deleting, with no effect on the server before |
| ProvisioningTiming.ReasonDroppedExactly | controllers/hetznerrobotmachine_controller.go:197-200 | in the error state the failure reason is cleared if and only if a reconcile is not backing off and finds host and client |
| ProvisioningTiming.Advances | controllers/hetznerrobotmachine_controller.go:338-380 | under favourable conditions every stage moves to its successor and the retry count is reset |
| ProvisioningTiming.ReachesProvisioned | controllers/hetznerrobotmachine_controller.go:261-390 | a fresh machine is Provisioned after any eight (Talos) or six (Flatcar) favourable reconciles, each with its own observations and a clock that stays within the timeout |
| Remediation.RemediationObject.Reconcile | controllers/hetznerrobotremediation_controller.go:79-110 | the phase machine in place, tied to the specified outcome |
| Remediation.RemediationObject.ReconcileInitial | controllers/hetznerrobotremediation_controller.go:114-150 | the first reset needs the automated-reset gate, the client and a successful call |
| Remediation.RemediationObject.ReconcileRunning | controllers/hetznerrobotremediation_controller.go:155-170 | Running turns into Waiting without any effect |
| Remediation.RemediationObject.ReconcileWaiting | controllers/hetznerrobotremediation_controller.go:175-229 | the limit is checked before the gate |
| Remediation.ReconcileExactly | controllers/hetznerrobotremediation_controller.go:79-229 | a reconcile resets the host it found, once, exactly when a reset is due and within the limit, the host is clean-slate compute outside maintenance, and client and call work; the count, the date and the phase afterwards in every case |
| Remediation.Accounts | controllers/hetznerrobotremediation_controller.go:123-149 | in every run resets = RetryCount + resets whose patch was lost, each one authorised, and phase changes + moves ahead = 2 * limit + 1 |
| Remediation.Budget | controllers/hetznerrobotremediation_controller.go:184-228 | with stored patches: resets = RetryCount <= limit, at most 2 * limit + 1 phase changes, and the terminal phase exactly when they are used up |
| Remediation.ExhaustedStays | controllers/hetznerrobotremediation_controller.go:79-83 | the terminal phase is never left and nothing is reset in it |
| Remediation.Progress | controllers/hetznerrobotremediation_controller.go:114-229 | a reconcile that is not blocked uses up exactly one move |
| Remediation.Completes | controllers/hetznerrobotremediation_controller.go:114-229 | in any run, 2 * limit + 1 stored reconciles that are not blocked reach the terminal phase, whatever happens between them; fewer leave at most the moves they did not use |
| Remediation.TimeoutKeptExactly | controllers/hetznerrobotremediation_controller.go:155-170 | with stored patches any two resets are at least the timeout apart if and only if every reconcile that resets out of Waiting runs that long after the last remediation |
| Remediation.TimeoutNotKept | controllers/hetznerrobotremediation_controller.go:155-170 | a run in which it does not: two resets in the same second, since Running does not check the clock |
| Documents.SplitYAMLDocuments | controllers/hetznerrobotmachine_inject.go:44-55 | the loop computes the specified split |
| Documents.SplitUndoesJoinDocs | controllers/hetznerrobotmachine_inject.go:44-55 | split(join(docs)) = docs if and only if every document is trimmed, non-empty, no bare or leading marker, without an inner separator and, unless last, not ending in "\n---" |
| Documents.UncleanDocument | controllers/hetznerrobotmachine_inject.go:44-55 | a split result that a second round changes |
| Documents.ModifyFirstDocument | controllers/hetznerrobotmachine_inject.go:13-40 | the loop rebuilds the text from the edited first document and the others, with the two error exits |
| Documents.ModifiedMeaning | controllers/hetznerrobotmachine_inject.go:13-40 | if the library writes and reads back the edited tree, the new first document decodes to it, and the others come back byte for byte if and only if they are clean |
| Text.SplitUndoesJoin | controllers/hetznerrobotmachine_inject.go:45-45 | splitting undoes joining for any separator, also one that overlaps itself, for exactly the lists without an early occurrence |
| Text.JoinSplit | controllers/hetznerrobotmachine_inject.go:45-45 | joining always undoes splitting |
| Inject.Config.SetInstallDisk | controllers/hetznerrobotmachine_inject.go:74-81 | sets install.disk if it is absent, creating the maps on the way |
| Inject.Config.AddVlan | controllers/hetznerrobotmachine_inject.go:207-247 | the loop strips every entry and appends the VLAN entry |
| Inject.Config.AddIpv6 | controllers/hetznerrobotmachine_inject.go:93-132 | appends the IPv6 entry and sets the sysctl |
| Inject.Config.SetKubeletArg | controllers/hetznerrobotmachine_inject.go:263-269 | sets one kubelet argument, creating the maps on the way |
| Inject.InjectKubeletNodeIP | controllers/hetznerrobotmachine_inject.go:154-182 | the four cases of the node-ip, none of them touching the text without need |
| Inject.PrepareConfig | controllers/hetznerrobotmachine_states.go:476-549 | for every library that can write and read back the five trees at hand: the whole pipeline succeeds if and only if the plan is complete and the first document decodes to a map; the result carries the injected tree, and documents 2..n unchanged if clean and changed for good if not |
| Inject.EncodableSurvives | controllers/hetznerrobotmachine_inject.go:13-40 | a library that round-trips maps of strings, booleans, nulls, 64-bit integers, lists and maps is such a library for every such document: the edits do not leave these trees |
| FlowYaml.CodecLawful | controllers/hetznerrobotmachine_inject.go:13-40 | there is such a library: one-line flow YAML, with a parser that undoes the printer |
| FlowYaml.ReadShow | controllers/hetznerrobotmachine_inject.go:22-31 | reading undoes writing for every tree of that kind, whatever follows |
| Inject.InjectedFrame | controllers/hetznerrobotmachine_states.go:476-549 | for any tree, every path neither above nor below a touched one keeps its value |
| Inject.InjectedScalars | controllers/hetznerrobotmachine_states.go:476-549 | install.disk, the sysctl, node-ip and provider-id have the intended values afterwards, whatever was there |
| Inject.InjectedInterfaces | controllers/hetznerrobotmachine_inject.go:207-247 | the interface list afterwards: the old entries in order, then the new ones |
| Inject.InjectedEntries | controllers/hetznerrobotmachine_inject.go:93-132 | looked up in the finished tree: the last interface selects the primary NIC by MAC, has the address P1/64 for the net's part P before the slash, and the one route ::/0 via fe80::1; the VLAN interface selects the same NIC and has the VLAN's ID and the internal address with its prefix length, 24 if none is given |
| Inject.OneVlanEntry | controllers/hetznerrobotmachine_inject.go:207-247 | exactly one entry has VLANs, it selects the primary MAC, and every earlier entry keeps all other keys at every depth |
| Inject.VlanTwice | controllers/hetznerrobotmachine_inject.go:207-247 | the VLAN injection is not idempotent: a second run appends another entry |
| Tree.PutGet | controllers/hetznerrobotmachine_inject.go:58-65 | what was assigned at a path is found there and below |
| Tree.PutFrame | controllers/hetznerrobotmachine_inject.go:58-65 | assigning at a path changes nothing at unrelated paths, even where non-maps are overwritten |
| Tree.PutAbove | controllers/hetznerrobotmachine_inject.go:58-65 | above the assigned place there are only maps |
| Ignition.Document.FixIgnitionInlineFields | controllers/hetznerrobotmachine_ignition.go:179-207 | the loop computes the specified rewrite |
| Ignition.Document.RemoveIgnitionURLDownloads | controllers/hetznerrobotmachine_ignition.go:212-256 | the two loops compute the specified filters, and fail exactly on a download whose path is no string |
| Ignition.Document.AddIgnitionUnit | controllers/hetznerrobotmachine_ignition.go:272-282 | appends the unit |
| Ignition.Document.AddKubeletDropin | controllers/hetznerrobotmachine_ignition.go:284-306 | updates the first kubelet unit and no other |
| Ignition.Document.AddIgnitionFile | controllers/hetznerrobotmachine_ignition.go:258-270 | appends the file |
| Ignition.Document.AddSSHAuthorizedKey | controllers/hetznerrobotmachine_ignition.go:371-400 | adds the key to the first entry of the user, or a new entry |
| Ignition.Document.BuildNetwork | controllers/hetznerrobotmachine_ignition.go:312-337 | the text of the network file |
| Ignition.Document.Inject | controllers/hetznerrobotmachine_ignition.go:109-164 | succeeds if and only if the document has the shape the type assertions need |
| Ignition.FilesSurvive | controllers/hetznerrobotmachine_ignition.go:97-171 | the files that need no download survive in order with the same decoded content and path, the network file follows, and nothing is left to download |
| Ignition.FixMeaning | controllers/hetznerrobotmachine_ignition.go:193-203 | rewriting inline content keeps the decoded bytes and every other setting |
| Ignition.LinksPrunedExactly | controllers/hetznerrobotmachine_ignition.go:239-255 | a link is removed if and only if its target is the path of a dropped download |
| Ignition.FlatcarFrame | controllers/hetznerrobotmachine_ignition.go:86-171 | everything apart from files, links, units and users keeps its value |
| Ignition.KeyIdempotent | controllers/hetznerrobotmachine_ignition.go:362-401 | adding the key again changes nothing |
| Ignition.KeyAdded | controllers/hetznerrobotmachine_ignition.go:375-393 | the first entry of the user has the key and the keys it had; all other users stay |
| Ignition.KubeletConfigured | controllers/hetznerrobotmachine_ignition.go:284-306 | the first kubelet unit, which always exists, ends its drop-ins with the arguments; other units stay |
| Ignition.BuildKubeletExtraArgs | controllers/hetznerrobotmachine_ignition.go:510-535 | the address cut, the switch and the argument list of the Flatcar code produce the provider ID and exactly the node-ip that Talos would inject |
| Addresses.StatusAddresses | controllers/hetznerrobotmachine_controller.go:309-326 | apart from the server's IPv4 address, a machine reports exactly the addresses its kubelet registers, in the same order, and its IPv6 address is the one the network interface gets |
| Ignition.NetworkContent | controllers/hetznerrobotmachine_ignition.go:258-270 | the network file decodes to exactly the generated text |
| FlatcarFiles.NetworkFileRead | controllers/hetznerrobotmachine_ignition.go:312-337 | the last file of the written document is the primary NIC's network file, mode 0644, and read as a systemd file it has exactly these sections: the MAC, the resolvers, the server's address in /32 with the gateway as peer, the default route via the gateway, and with an IPv6 net the node's address in /64 and the route ::/0 via fe80::1 |
| FlatcarFiles.KubeletRead | controllers/hetznerrobotmachine_ignition.go:137-142 | the first kubelet.service unit of the written document ends its drop-ins with one that, read as a systemd file, sets KUBELET_EXTRA_ARGS to the provider ID and the node addresses, and nothing else |
| FlatcarFiles.CoreMayLogIn | controllers/hetznerrobotmachine_ignition.go:157-164 | the written document has an entry for the user core with the machine's key |
| UnitFile.ReadBlock | controllers/hetznerrobotmachine_ignition.go:312-337 | a printed section reads back as its name and settings, whatever follows, for all settings that stay on their lines |
| DataUri.UnescapeEscape | controllers/hetznerrobotmachine_ignition.go:541-543 | percent-decoding undoes the encoding for all byte strings |
| DataUri.EscapedIsClean | controllers/hetznerrobotmachine_ignition.go:541-543 | no encoded text holds a comma, semicolon, slash, question mark or hash |
| Shell.LexQuoted | pkg/sshrescue/client.go:104-106 | reading a quoted string adds exactly that string to the word, for arbitrary strings |
| Shell.LexList | pkg/sshrescue/client.go:245-249 | the space-joined quoted list reads back as the list |
| Shell.WrappedArrives | pkg/sshrescue/client.go:96-96 | bash receives the command unchanged |
| Shell.WipeListArrives | pkg/sshrescue/client.go:251-266 | through both layers of quoting, the words of the wipe loop are exactly the disks |
| Shell.BuildWipeCommand | pkg/sshrescue/client.go:245-266 | the loop builds the specified command |
| Shell.RawExactly | pkg/sshrescue/client.go:374-381 | a POSIX shell reads an unquoted argument as itself and subjects it to no expansion if and only if it is not empty, does not begin with # or ~, and has no blank, quoting character, operator, or character of an expansion or a pattern |
| Hardware.ParseHardwareOutput | pkg/sshrescue/client.go:147-190 | the loop computes the specified parse; success implies a MAC and a gateway |
| Hardware.ParseUndoesRender | pkg/sshrescue/client.go:122-190 | parsing the printed report recovers it, or names the missing value |
| Hardware.ResolveInstallDisk | pkg/sshrescue/client.go:200-229 | the loops compute the specified choice |
| Hardware.ResolveMeaning | pkg/sshrescue/client.go:192-229 | a Ceph-free disk is chosen whenever there is one: the configured one if it is safe, else the first; else the configured disk is trusted, and only its absence fails |
| Hardware.WipeAllDisks | pkg/sshrescue/client.go:238-293 | accepted if and only if there are disks, the script ran, and every disk was confirmed |
| Hardware.ConfirmedExactly | pkg/sshrescue/client.go:273-288 | which disks a complete output confirms |
| Hardware.AllConfirmedExactly | pkg/sshrescue/client.go:273-288 | when every wipe reports, the wipe is accepted if and only if no disk name ends in white space |
| Hardware.NeverConfirmed | pkg/sshrescue/client.go:273-288 | a name with a newline or trailing white space is never confirmed |
| ProviderIds.RoundTrip | controllers/hetznerrobotmachine_host.go:285-299 | parse(print(n)) = n if and only if 1 <= n <= the largest int |
| ProviderIds.ServerID | controllers/hetznerrobotmachine_host.go:285-299 | a parsed server ID is positive and fits an int |
| Backoff.ComputeBackoff | controllers/hetznerrobotmachine_controller.go:245-259 | the clamped computation equals min(300, 30 * 2^max(n-1, 0)) for every n |
| Backoff.DelayMonotone | controllers/hetznerrobotmachine_controller.go:245-259 | the delay never decreases |
| Backoff.DelayTable | controllers/hetznerrobotmachine_controller.go:245-259 | the delays are 30, 60, 120, 240 and then 300 seconds |
| Ipv6.DerivationsAgree | controllers/hetznerrobotmachine_controller.go:319-323 | for the networks P:: and P::/64 the node address is P::1, both interface derivations give P::1/64, and the stored normal form is P::/64 |
| Ipv6.TalosAgreesExactly | controllers/hetznerrobotmachine_inject.go:97-98 | the Talos entry agrees with the others if and only if the part before the slash ends in "::" |

## Left out

- HostReconcile.ResolveHost: a failed call and a patch conflict are one flag (`failed`), and a listing that races with other claims may name a host that is no longer free.
- Provisioning.RobotMachine.StateApplyConfig: the text sent to the server is not part of the effect log; Inject.PrepareConfig is about that text.
- Inject.Config.AddVlan: nested maps are values written back by each method, so aliasing between nested maps is not modelled.
- Ignition.Document.RemoveIgnitionURLDownloads: a file list that ends up empty is the empty list here, where the source leaves a nil slice that is printed as null.
- Shell.LexList: the reader covers quotes, backslashes, blanks and command ends; NUL characters, length limits and other shell syntax are outside of it.
- FlatcarFiles.NetworkFileRead: for values without a newline; a MAC or gateway that ends in a backslash, which continues the line, is not covered.
- FlatcarFiles.KubeletRead: for arguments without a newline, double quote, backslash or percent sign, which systemd would interpret.
- Shell.RawExactly: braces, which bash expands in some unquoted words and a POSIX shell does not, are plain text here.
- ProvisioningTiming.ProvisioningBounds: the two counts are for runs whose patches are all stored; for the spacing, SpacingKeptExactly has no such condition.
- Inject.InjectInstallDisk, InjectVLANConfig, InjectIPv6Config and InjectProviderID: each passes one edit to modifyFirstDocument; what the text means afterwards is stated for the whole pipeline.
- Hardware.ParseUndoesRender: the report has one line per value, so a MAC or gateway command that prints several lines is not covered.
- Ownership.HostNext: the addresses completed from the Robot API belong to HostController only.
- Match expressions of label selectors: only match labels are modelled.
- The patch that records hardware details on the host: it changes no field the protocol looks at, and counts as an operator's edit.
- Recording conditions and messages in the status: no decision reads them.
- Robot API, SSH, Talos and Kubernetes clients, secrets and certificates: their results are observations.
- Bodies of the shell scripts and the pre-boot network files: opaque commands.
- updateHostState and the unused VLAN and IPv6 file writers of the Ignition code: they have no caller.
- The cluster controller, the object watches and the setup code: plumbing.
