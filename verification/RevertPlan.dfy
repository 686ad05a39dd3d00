/** What one call of ProcessSnapshotRevert does (pkg/manager/reverts.go), as the sequence of API calls it issues when
    none of them fails. A call cut short by a failure issues a prefix of that sequence.

    The results of the reads are the argument `Obs`: the plan of a call is a function of the stored object it was
    given and of what the cluster answered. */
module RevertPlan {
  import opened Wrappers
  import opened Types
  import opened RevertCluster
  import opened Selection

  /** Answers to the reads of one call: the replica count, the claims and snapshots listed, the volume of every old
      claim as seen before and after its claim is deleted, and whether the scale-up request took effect. */
  datatype Obs = Obs(
    replicas: Option<nat>, claims: seq<Claim>, snaps: seq<Snapshot>, failed: bool,
    volumes: seq<(Volume, Volume)>, scaled: bool, validation: ValidationObs)

  /** Answers seen while a revert waits for its validation: the run matched by missingValidation (None when the
      lookup failed), the run matched by runValidation, the run it builds otherwise, the run it finally updates. */
  datatype ValidationObs = ValidationObs(
    first: Option<Option<Run>>, second: Option<Run>, snaps: seq<Snapshot>, failed: bool,
    suffix: string, last: Run)

  const NO_ANSWERS := Obs(None, [], [], false, [], false,
      ValidationObs(None, None, [], false, "", Run("", "", "", map[], false, [], [], NOTHING_DONE)))

  datatype Plan = Plan(ops: seq<Op>, result: Option<Revert>)

  /** The branch ProcessSnapshotRevert takes. `Rest` stores the object without touching the cluster, and `Stuck`
      is the "Unknown state" error. */
  datatype Stage = Rest | Initialize | Pause | Replace | Resume | UndoPause | Restore | UndoResume | Stuck

  const FRESH := Details(Fresh, None, [])

  /** initDetails: a revert works on the last record, or on a new one once the last is finished. */
  function WithDetails(reverts: seq<Details>): (r: seq<Details>)
    ensures |r| > 0 && r[|r| - 1].state != Finished
    ensures reverts <= r && |r| <= |reverts| + 1
  {
    if reverts == [] || reverts[|reverts| - 1].state == Finished then reverts + [FRESH] else reverts
  }

  function StageOf(r: Revert): Stage {
    match r.action.kind
    case Latest =>
      if r.stsType.None? then Rest
      else (match WithDetails(r.reverts)[|WithDetails(r.reverts)| - 1].state
            case Fresh => Initialize
            case Init => Pause
            case Paused => Replace
            case Reverted => Resume
            case _ => Stuck)
    case Undo =>
      if r.stsType.None? || r.reverts == [] then Rest
      else (match r.reverts[|r.reverts| - 1].state
            case Finished => UndoPause
            case Paused => Restore
            case Undone => UndoResume
            case _ => Stuck)
    case _ => Rest
  }

  /** The retention of ProcessSnapshotRevert: keep the last `keep` records, or all of them for zero. */
  function Trimmed(reverts: seq<Details>, keep: nat): seq<Details> {
    if keep != 0 && |reverts| > keep then reverts[|reverts| - keep..] else reverts
  }

  /** Only a `latest` request applies retention. */
  function Retain(r: Revert, reverts: seq<Details>): seq<Details> {
    if r.action.kind == Latest then Trimmed(reverts, r.keepStatus) else reverts
  }

  function Trim(r: Revert): Revert {
    r.(reverts := Retain(r, r.reverts))
  }

  /** The state a stage leaves the last record in. */
  function Target(stage: Stage): State {
    match stage
    case Replace => Reverted
    case Restore => Undone
    case Resume => Finished
    case _ => Paused
  }

  function SetState(reverts: seq<Details>, state: State): seq<Details>
    requires reverts != []
  {
    reverts[|reverts| - 1 := reverts[|reverts| - 1].(state := state)]
  }

  function VolumeAt(volumes: seq<(Volume, Volume)>, i: nat): (Volume, Volume) {
    if i < |volumes| then volumes[i] else (Volume(false, None), Volume(false, None))
  }

  /** One round of the first loop of revertSnapshots: make the volume of the claim survive, delete the claim, make
      the volume available again. */
  function RetireOps(claim: Claim, seen: (Volume, Volume)): seq<Op> {
    var v := claim.spec.volumeName;
    [GetPV(v, seen.0)]
    + (if seen.0.retain then [] else [UpdatePV(v, seen.0, seen.0.(retain := true))])
    + [DeletePVC(claim.Key()), GetPV(v, seen.1), UpdatePV(v, seen.1, seen.1.(claimRef := None))]
  }

  function RetireAll(claims: seq<Claim>, volumes: seq<(Volume, Volume)>): seq<Op> {
    if claims == [] then []
    else RetireAll(claims[..|claims| - 1], volumes) + RetireOps(claims[|claims| - 1], VolumeAt(volumes, |claims| - 1))
  }

  function SnapshotFor(chosen: map<string, Snapshot>, name: string): string {
    if name in chosen then chosen[name].name else ""
  }

  function CreateAll(stsType: Option<StatefulSetType>, claims: seq<Claim>,
      chosen: map<string, Snapshot>): (ops: seq<Op>)
    ensures |ops| == |claims|
  {
    seq(|claims|, i requires 0 <= i < |claims| =>
      CreatePVC(AttachSnapshot(stsType, claims[i], SnapshotFor(chosen, claims[i].name))))
  }

  function DeleteAll(claims: seq<Claim>): (ops: seq<Op>)
    ensures |ops| == |claims|
  {
    seq(|claims|, i requires 0 <= i < |claims| => DeletePVC(claims[i].Key()))
  }

  function RestoreAll(claims: seq<Claim>): (ops: seq<Op>)
    ensures |ops| == |claims|
  {
    seq(|claims|, i requires 0 <= i < |claims| => CreatePVC(Restoring(claims[i])))
  }

  function PauseOps(replicas: Option<nat>): seq<Op> {
    [ReadSts(replicas)]
    + (if replicas.Some? && replicas.value != 0 then [ScaleTo(0)] else [])
    + [AwaitNoPods]
  }

  function ResumeOps(replicas: Option<nat>, scaled: bool, count: nat): seq<Op> {
    [ReadSts(replicas)]
    + (if scaled then [ScaleTo(count)] else [])
    + [AwaitPods(if replicas.Some? then replicas.value else 1)]
  }

  function ReplaceOps(
    stsType: Option<StatefulSetType>, claims: seq<Claim>, chosen: map<string, Snapshot>,
      volumes: seq<(Volume, Volume)>): seq<Op>
  {
    RetireAll(claims, volumes) + CreateAll(stsType, claims, chosen) + [AwaitBound(Keys(claims))]
  }

  function RestoreOps(claims: seq<Claim>): seq<Op> {
    DeleteAll(claims) + RestoreAll(claims) + [AwaitBound(Keys(claims))]
  }

  function LastOf(r: Revert): Details {
    if r.reverts == [] then FRESH else r.reverts[|r.reverts| - 1]
  }

  /** Advance the last record to the target of the stage. */
  function Advanced(r: Revert, stage: Stage): Revert {
    r.(reverts := Retain(r, if r.reverts == [] then [] else SetState(r.reverts, Target(stage))))
  }

  function InitializePlan(r: Revert, obs: Obs): Plan {
    if obs.replicas.None? || obs.replicas.value == 0 then Plan([ReadSts(obs.replicas)], None)
    else
      var all := WithDetails(r.reverts);
      Plan([ReadSts(obs.replicas), ListClaims(obs.claims)],
           Some(r.(reverts := Retain(r, all[|all| - 1 := Details(Init, obs.replicas, obs.claims)]))))
  }

  function ReplacePlan(r: Revert, obs: Obs): Plan {
    var claims := LastOf(r).oldClaims;
    var chosen := Select(claims, obs.snaps, obs.failed, r.action.fromTime, r.action.toTime);
    if chosen.None? then Plan([ListSnapshots(obs.snaps, obs.failed)], None)
    else Plan([ListSnapshots(obs.snaps, obs.failed)] + ReplaceOps(r.stsType, claims, chosen.value, obs.volumes),
              Some(Advanced(r, Replace)))
  }

  /** Scaling up needs the recorded count; the request is idle afterwards. */
  function ResumePlan(r: Revert, obs: Obs, reverts: seq<Details>): Plan {
    if LastOf(r).replicas.None? then Plan([ReadSts(obs.replicas)], None)
    else Plan(ResumeOps(obs.replicas, obs.scaled, LastOf(r).replicas.value),
              Some(r.(reverts := reverts, action := r.action.(kind := Idle))))
  }

  function StagePlan(r: Revert, obs: Obs): Plan {
    match StageOf(r)
    case Rest => Plan([], Some(Trim(r)))
    case Stuck => Plan([], None)
    case Initialize => InitializePlan(r, obs)
    case Pause => Plan(PauseOps(obs.replicas), Some(Advanced(r, Pause)))
    case UndoPause => Plan(PauseOps(obs.replicas), Some(Advanced(r, UndoPause)))
    case Replace => ReplacePlan(r, obs)
    case Restore => Plan(RestoreOps(LastOf(r).oldClaims), Some(Advanced(r, Restore)))
    case Resume => ResumePlan(r, obs, Advanced(r, Resume).reverts)
    case UndoResume => ResumePlan(r, obs, if r.reverts == [] then [] else r.reverts[..|r.reverts| - 1])
  }

  /** missingValidation looks only at a revert that names a strategy and whose last record is in state "init". */
  predicate Validates(r: Revert) {
    && r.action.kind == Latest
    && r.validation.Some? && r.validation.value != ""
    && r.reverts != [] && r.reverts[|r.reverts| - 1].state == Init
  }

  /** initRun of the revert controller: a run that already maps every old claim to its chosen snapshot. */
  function NewRun(namespace: string, strategy: string, suffix: string, chosen: map<string, Snapshot>): Run {
    var entries := map n | n in chosen :: chosen[n].name;
    Run(namespace, strategy + "-" + suffix, strategy, entries, false, [], [], NOTHING_DONE)
  }

  predicate MissingValidation(v: ValidationObs) {
    v.first.None? || v.first.value.None? || !v.first.value.value.status.validationFinished
  }

  function FirstLook(strategy: string, v: ValidationObs): seq<Op> {
    if v.first.None? then [] else [SeeRun(strategy, v.first.value)]
  }

  /** runValidation: adopt the strategy's run or create one, wait for it to finish, ask for its cleanup.
      The flag says whether it can complete: a missing snapshot makes initRun fail. */
  function RunValidation(r: Revert, strategy: string, v: ValidationObs): (seq<Op>, bool)
    requires r.reverts != []
  {
    if v.second.Some? then
      ([SeeRun(strategy, v.second), AwaitFinished(v.second.value.name), RequestCleanup(v.last)],
       v.last.name == v.second.value.name)
    else
      var claims := r.reverts[|r.reverts| - 1].oldClaims;
      var chosen := Select(claims, v.snaps, v.failed, r.action.fromTime, r.action.toTime);
      var asked := [SeeRun(strategy, None), ListSnapshots(v.snaps, v.failed)];
      if chosen.None? then (asked, false)
      else
        var run := NewRun(r.namespace, strategy, v.suffix, chosen.value);
        (asked + [CreateRun(run), AwaitFinished(run.name), RequestCleanup(v.last)], v.last.name == run.name)
  }

  function ValidationPlan(r: Revert, v: ValidationObs): (seq<Op>, bool)
    requires Validates(r)
  {
    var strategy := r.validation.value;
    if !MissingValidation(v) then (FirstLook(strategy, v), true)
    else
      var run := RunValidation(r, strategy, v);
      (FirstLook(strategy, v) + run.0, run.1)
  }

  function PlanFor(r: Revert, obs: Obs): Plan {
    if !Validates(r) then StagePlan(r, obs)
    else
      var v := ValidationPlan(r, obs.validation);
      if v.1 then Plan(v.0 + StagePlan(r, obs).ops, StagePlan(r, obs).result) else Plan(v.0, None)
  }

  /** The final update, if the plan has a result. */
  function Closing(r: Revert, result: Option<Revert>): seq<Op> {
    if result.Some? then [UpdateRevert(r, result.value)] else []
  }

  /** Every API call of one processing, the final UpdateRevert included. */
  function AllOps(r: Revert, obs: Obs): seq<Op> {
    PlanFor(r, obs).ops + Closing(r, PlanFor(r, obs).result)
  }

  /** The rounds done so far do not depend on what later rounds see. */
  lemma {:induction false} RetireSame(pvcs: seq<Claim>, some: seq<(Volume, Volume)>, more: seq<(Volume, Volume)>)
    requires |pvcs| <= |some| && some <= more
    ensures RetireAll(pvcs, some) == RetireAll(pvcs, more)
  {
    if pvcs != [] {
      RetireSame(pvcs[..|pvcs| - 1], some, more);
    }
  }

  lemma ReplaceAllOps(r: Revert, obs: Obs)
    requires StageOf(r) == Replace
    ensures AllOps(r, obs) == ReplacePlan(r, obs).ops + Closing(r, ReplacePlan(r, obs).result)
  {
    assert !Validates(r);
  }

  lemma RestoreAllOps(r: Revert, obs: Obs)
    requires StageOf(r) == Restore
    ensures AllOps(r, obs) == RestoreOps(LastOf(r).oldClaims) + [UpdateRevert(r, Advanced(r, Restore))]
  {
    assert !Validates(r);
  }
}
