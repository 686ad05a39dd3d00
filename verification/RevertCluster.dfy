/** The part of the Kubernetes cluster the revert controller works on, as a value: what every API call does to it
    (pkg/manager/controller_kube_calls.go) and what the rest of the cluster and the user may do in between. */
module RevertCluster {
  import opened Wrappers
  import opened Types

  datatype Cluster = Cluster(
    claims: map<Key, Claim>, volumes: map<string, Volume>,
    sts: StatefulSet, pods: nat, running: nat,
    snapshots: seq<Snapshot>, runs: map<string, Run>,
    stored: Revert, nextUid: nat)

  /** One API call as the controller issues it. A read carries what it returned; the two updates carry the object
      that was read, and the server takes them only while that object is unchanged. */
  datatype Op =
    | ReadSts(replicas: Option<nat>)
    | ListClaims(found: seq<Claim>)
    | ListSnapshots(list: seq<Snapshot>, failed: bool)
    | SeeRun(strategy: string, matched: Option<Run>)
    | CreateRun(run: Run)
    | AwaitFinished(name: string)
    | RequestCleanup(complete: Run)
    | ScaleTo(count: nat)
    | AwaitNoPods
    | AwaitPods(count: nat)
    | GetPV(volume: string, read: Volume)
    | UpdatePV(volume: string, read: Volume, write: Volume)
    | DeletePVC(key: Key)
    | CreatePVC(claim: Claim)
    | AwaitBound(keys: seq<Key>)
    | UpdateRevert(seen: Revert, next: Revert)

  /** What may happen between two calls: pods come and go towards the replica count, claims get bound, released
      volumes with policy Delete disappear, snapshots and validation runs change, the user edits the action. */
  datatype Event =
    | PodAdded
    | PodStarted
    | PodRemoved
    | Bind(key: Key, volume: string, retain: bool)
    | Reclaim(volume: string)
    | SnapshotsChange(list: seq<Snapshot>)
    | RunsChange(runs: map<string, Run>)
    | EditAction(action: Action, keepStatus: nat)

  ghost predicate Lists(found: seq<Claim>, claims: map<Key, Claim>, selector: Labels) {
    && DistinctKeys(found)
    && (forall c <- found :: c.Key() in claims && claims[c.Key()] == c && Matches(selector, c.labels))
    && (forall k <- claims :: Matches(selector, claims[k].labels) ==> claims[k] in found)
  }

  ghost predicate ListsSnapshots(list: seq<Snapshot>, failed: bool, snapshots: seq<Snapshot>) {
    && (forall s <- list :: s in snapshots)
    && (!failed ==> forall s <- snapshots :: s in list)
  }

  ghost predicate SeesRun(strategy: string, found: Option<Run>, runs: map<string, Run>) {
    if found.Some? then found.value.name in runs && runs[found.value.name] == found.value
        && found.value.owner == strategy
    else forall n <- runs :: runs[n].owner != strategy
  }

  /** Every run is filed under its name. */
  predicate Named(runs: map<string, Run>) {
    forall n <- runs :: runs[n].name == n
  }

  /** The server lets nothing be stored without a name. */
  predicate HaveNames(snapshots: seq<Snapshot>) {
    forall s <- snapshots :: s.name != ""
  }

  function Keys(claims: seq<Claim>): seq<Key> {
    seq(|claims|, i requires 0 <= i < |claims| => claims[i].Key())
  }

  predicate AllBound(keys: seq<Key>, claims: map<Key, Claim>) {
    forall k <- keys :: k in claims && claims[k].bound
  }

  /** The claim a volume is bound to is gone. */
  predicate Released(volume: Volume, claims: map<Key, Claim>) {
    volume.claimRef.Some? &&
    !(volume.claimRef.value.key in claims && claims[volume.claimRef.value.key].uid == volume.claimRef.value.uid)
  }

  /** Whether the server takes the call: a read must return what is there, an update must be based on the current
      object, a claim or run to create must not exist, and a wait ends only when its condition holds. */
  ghost predicate Accepts(c: Cluster, op: Op) {
    match op
    case ReadSts(n) => c.sts.replicas == n
    case ListClaims(found) => Lists(found, c.claims, c.sts.selector)
    case ListSnapshots(list, failed) => ListsSnapshots(list, failed, c.snapshots)
    case SeeRun(strategy, found) => SeesRun(strategy, found, c.runs)
    case CreateRun(run) => run.name !in c.runs
    case AwaitFinished(n) => n in c.runs && c.runs[n].status.validationFinished
    case RequestCleanup(run) => run.name in c.runs && c.runs[run.name] == run
    case ScaleTo(_) => true
    case AwaitNoPods => c.pods == 0
    case AwaitPods(n) => c.pods == n && c.running == n
    case GetPV(v, read) => v in c.volumes && c.volumes[v] == read
    case UpdatePV(v, read, _) => v in c.volumes && c.volumes[v] == read
    case DeletePVC(_) => true
    case CreatePVC(claim) => claim.Key() !in c.claims
    case AwaitBound(keys) => AllBound(keys, c.claims)
    case UpdateRevert(seen, _) => c.stored == seen
  }

  function Effect(c: Cluster, op: Op): Cluster {
    match op
    case CreateRun(run) => c.(runs := c.runs[run.name := run])
    case RequestCleanup(run) => c.(runs := c.runs[run.name := run.(cleanup := true)])
    case ScaleTo(n) => c.(sts := c.sts.(replicas := Some(n)))
    case UpdatePV(v, _, write) => c.(volumes := c.volumes[v := write])
    case DeletePVC(k) => c.(claims := c.claims - {k})
    case CreatePVC(claim) =>
      c.(claims := c.claims[claim.Key() := claim.(uid := c.nextUid, bound := false)], nextUid := c.nextUid + 1)
    case UpdateRevert(_, next) => c.(stored := next)
    case _ => c
  }

  predicate Possible(c: Cluster, e: Event) {
    match e
    case PodAdded => c.pods < if c.sts.replicas.Some? then c.sts.replicas.value else 1
    case PodStarted => c.running < c.pods
    case PodRemoved => c.pods > 0
    case Bind(k, v, _) =>
      && k in c.claims && !c.claims[k].bound && v != ""
      && (v in c.volumes ==> c.volumes[v].claimRef.None?)
      && (c.claims[k].spec.volumeName == "" || (c.claims[k].spec.volumeName == v && v in c.volumes))
    case Reclaim(v) => v in c.volumes && !c.volumes[v].retain && Released(c.volumes[v], c.claims)
    case SnapshotsChange(list) => HaveNames(list)
    case RunsChange(runs) => Named(runs)
    case _ => true
  }

  function Change(c: Cluster, e: Event): Cluster {
    match e
    case PodAdded => c.(pods := c.pods + 1)
    case PodStarted => c.(running := c.running + 1)
    case PodRemoved =>
      if c.pods == 0 then c
      else c.(pods := c.pods - 1, running := if c.running < c.pods then c.running else c.pods - 1)
    case Bind(k, v, retain) =>
      if k !in c.claims then c else
      var claim := c.claims[k];
      var policy := if v in c.volumes then c.volumes[v].retain else retain;
      c.(claims := c.claims[k := claim.(spec := claim.spec.(volumeName := v), bound := true)],
         volumes := c.volumes[v := Volume(policy, Some(ClaimRef(k, claim.uid)))])
    case Reclaim(v) => c.(volumes := c.volumes - {v})
    case SnapshotsChange(list) => c.(snapshots := list)
    case RunsChange(runs) => c.(runs := runs)
    case EditAction(action, keep) => c.(stored := c.stored.(action := action, keepStatus := keep))
  }
}
