/** The custom resources and the Kubernetes objects the controllers read and write
    (pkg/apis/snapshotmanager/v1alpha1/types.go). All of them are values: a copy of one is DeepCopy. */
module Types {
  import opened Wrappers

  type Labels = map<string, string>

  datatype Key = NamespacedName(namespace: string, name: string)

  datatype ClaimSpec = ClaimSpec(
    storageClass: Option<string>, accessModes: seq<string>, resources: string, volumeName: string)

  /** A PersistentVolumeClaim. `bound` is its phase and `uid` is assigned by the server on creation. */
  datatype Claim = Claim(
    namespace: string, name: string, labels: Labels, annotations: Labels,
    spec: ClaimSpec, bound: bool, uid: nat)
  {
    function Key(): Key { NamespacedName(namespace, name) }
  }

  datatype ClaimRef = ClaimRef(key: Key, uid: nat)

  /** A PersistentVolume: its reclaim policy and the claim it is bound to. */
  datatype Volume = Volume(retain: bool, claimRef: Option<ClaimRef>)

  datatype StatefulSet = StatefulSet(replicas: Option<nat>, selector: Labels)

  datatype Snapshot = Snapshot(namespace: string, name: string, claim: string, time: int)

  datatype StatefulSetType = StatefulSetType(name: string, claim: string, snapshotClass: Option<string>)

  datatype ActionKind = Latest | Undo | Idle | Other(text: string)

  datatype Action = Action(kind: ActionKind, fromTime: Option<int>, toTime: Option<int>)

  /** The progress of one revert; `Fresh` is the empty string. */
  datatype State = Fresh | Init | Paused | Reverted | Finished | Undone

  datatype Details = Details(state: State, replicas: Option<nat>, oldClaims: seq<Claim>)

  /** A SnapshotRevert. KeepStatus is taken to be non-negative. */
  datatype Revert = Revert(
    namespace: string, stsType: Option<StatefulSetType>, validation: Option<string>, keepStatus: nat,
    action: Action, reverts: seq<Details>)

  datatype Status = Status(
    kustStarted: bool, kustFinished: bool,
    initStarted: bool, initFinished: bool,
    preValidationStarted: bool, preValidationFinished: bool,
    validationStarted: bool, validationFinished: bool,
    cleanupStarted: bool, cleanupFinished: bool)

  const NOTHING_DONE := Status(false, false, false, false, false, false, false, false, false, false)

  /** A ValidationRun; `owner` is the UID of the strategy that owns it. */
  datatype Run = Run(
    namespace: string, name: string, owner: string,
    claimsToSnapshots: map<string, string>, cleanup: bool,
    claims: seq<Claim>, kustomized: seq<string>, status: Status)

  datatype Kustomization = Kustomization(namePrefix: string, commonLabels: Labels, commonAnnotations: Labels)

  /** A ValidationStrategy with its hooks (a job specification is opaque text). */
  datatype Strategy = Strategy(
    uid: string, namespace: string, name: string, stsType: Option<StatefulSetType>, kustomization: Kustomization,
    init: Option<string>, preValidation: Option<string>, validation: Option<string>, autoTrigger: bool)

  /** The annotation by which a claim asks to be filled from a snapshot. */
  const SNAPSHOT_KEY := "snapshot.alpha.kubernetes.io/snapshot"

  /** A claim with the name, labels and size of `pvc` that is to be filled from the snapshot `snap`. */
  function AttachSnapshot(stsType: Option<StatefulSetType>, pvc: Claim, snap: string): (made: Claim)
    ensures made.Key() == pvc.Key() && made.labels == pvc.labels
    ensures made.spec.volumeName == "" && !made.bound
  {
    Claim(
      pvc.namespace, pvc.name, pvc.labels, map[SNAPSHOT_KEY := snap],
      ClaimSpec(
        if stsType.Some? then stsType.value.snapshotClass else None,
        pvc.spec.accessModes, pvc.spec.resources, ""),
      false, 0)
  }

  /** The claim that puts a recorded claim back: same name, labels and whole spec, volume included. */
  function Restoring(pvc: Claim): (made: Claim)
    ensures made.Key() == pvc.Key() && made.labels == pvc.labels && made.spec == pvc.spec
  {
    Claim(pvc.namespace, pvc.name, pvc.labels, map[], pvc.spec, false, 0)
  }

  predicate Matches(selector: Labels, labels: Labels) {
    forall k <- selector :: k in labels && labels[k] == selector[k]
  }

  ghost predicate DistinctKeys(claims: seq<Claim>) {
    forall i, j | 0 <= i < j < |claims| :: claims[i].Key() != claims[j].Key()
  }
}
