// The API objects the controllers read and write.
module Api {
  import opened Common

  // Namespaced name. It identifies hosts and machines, and is also what a
  // MachineReference holds.
  datatype Key = Key(ns: string, name: string)

  datatype HostState = Unset | Available | Claimed | HostProvisioned

  datatype LifecycleClass = NoClass | Compute | ControlPlane | Storage | OtherClass

  datatype DestructivePolicy =
    | NoPolicy | AlwaysCleanSlate | NeverDestructiveByDefault | RequiresExternalRelease | OtherPolicy

  type Labels = map<string, string>

  datatype Host = Host(
    key: Key,
    serverID: int,
    labels: Labels,
    lifecycle: LifecycleClass,
    policy: DestructivePolicy,
    maintenance: bool,
    state: HostState,
    consumerRef: Option<Key>,
    machineRef: Option<Key>,
    lastConsumerRef: Option<Key>,
    dirtyReason: string,
    errorMessage: string,
    finalizer: bool,
    deleting: bool,
    version: nat)

  datatype ProvisioningState =
    | StateNone | ActivatingRescue | InRescue | Installing
    | BootingTalos | ApplyingConfig | WaitingForBoot | BootingFlatcar
    | Provisioned | Deleting | StateError

  // The CAPI Machine that owns a HetznerRobotMachine.
  datatype CapiMachine = CapiMachine(name: string, ns: string, uid: string)

  // directHost == "" stands for an absent or empty spec.hostRef, hostRef == ""
  // for an empty status.hostRef.
  datatype Machine = Machine(
    key: Key,
    capi: CapiMachine,
    directHost: string,
    selector: Option<Labels>,
    providerID: Option<string>,
    hostRef: string,
    stage: ProvisioningState,
    deleting: bool)

  datatype HostRelease = HostRelease(
    ns: string,
    hostName: string,
    machine: CapiMachine,
    wipeAndReinstall: bool,
    expiresAt: int)

  predicate Matches(selector: Labels, labels: Labels) {
    forall l | l in selector :: l in labels && labels[l] == selector[l]
  }
}
