/** When the next step of a pending request can be stored at all. Here: the condition, and that a step that does not
    meet it is never stored, in any run without edits. RevertSteps has the other direction. */
module RevertReady {
  import opened Wrappers
  import opened Types
  import opened RevertCluster
  import opened RevertPlan
  import opened RevertMachine
  import opened RevertDowntime
  import opened RevertProgress
  import opened Selection
  import VP = RunPlan

  // ---- Validation runs ----

  /** A run that is finished, or that the validation controller can take on: no claim of it is without a snapshot. */
  predicate CanFinish(run: Run) { run.status.validationFinished || VP.NoGaps(run) }

  predicate StampsStay(s: Status, t: Status) {
    forall i | 0 <= i < 10 :: VP.Bits(s)[i] ==> VP.Bits(t)[i]
  }

  /** A later version of the run: more stamps, the same snapshots. */
  predicate TakenOn(run: Run, later: Run) {
    && later == run.(status := later.status, claims := later.claims, kustomized := later.kustomized)
    && StampsStay(run.status, later.status)
  }

  /** What the validation controller does to the runs: it takes on those without gaps, and one whose cleanup has been
      asked for may go. Nobody else makes or changes runs. */
  predicate RunsGoOn(runs: map<string, Run>, later: map<string, Run>) {
    && (forall n <- later ::
          n in runs && (later[n] == runs[n] || (VP.NoGaps(runs[n]) && TakenOn(runs[n], later[n]))))
    && (forall n <- runs :: n in later || (runs[n].cleanup && CanFinish(runs[n])))
  }

  // ---- Calm runs ----

  /** Some claim, live or recorded, names this volume. */
  predicate IsNamed(c: Cluster, volume: string) {
    || (exists k <- c.claims :: c.claims[k].spec.volumeName == volume)
    || (exists d <- c.stored.reverts :: exists claim <- d.oldClaims :: claim.spec.volumeName == volume)
  }

  /** A claim that names no volume gets one that is made for it, under a name of its own. */
  predicate Provides(c: Cluster, e: Event) {
    e.Bind? && e.key in c.claims && c.claims[e.key].spec.volumeName == "" ==>
      e.volume !in c.volumes && !IsNamed(c, e.volume)
  }

  predicate CalmStep(w: World, l: Label) {
    l.Outside? ==>
      && !l.e.EditAction? && !l.e.SnapshotsChange? && Provides(w.c, l.e)
      && (l.e.RunsChange? ==> RunsGoOn(w.c.runs, l.e.runs))
  }

  /** The request is not edited, the snapshots stay as they are, volumes are provisioned on demand, and runs are only
      taken on by the validation controller. */
  ghost predicate Calm(w: World, labels: seq<Label>) {
    labels == [] ||
    (Calm(w, labels[..|labels| - 1]) &&
     var mid := Exec(w, labels[..|labels| - 1]);
     mid.Some? ==> CalmStep(mid.value, labels[|labels| - 1]))
  }

  lemma {:induction false} CalmHasNoEdits(w: World, labels: seq<Label>)
    requires Calm(w, labels) && Exec(w, labels).Some?
    ensures NoEdits(labels)
  {
    if labels != [] {
      CalmHasNoEdits(w, labels[..|labels| - 1]);
      assert labels == labels[..|labels| - 1] + [labels[|labels| - 1]];
    }
  }

  ghost predicate Reaches(w: World, m: World) {
    exists labels :: Calm(w, labels) && Exec(w, labels) == Some(m)
  }

  lemma ReachesSelf(w: World)
    ensures Reaches(w, w)
  {
    assert Calm(w, []) && Exec(w, []) == Some(w);
  }

  lemma ReachesNext(w: World, m: World, l: Label)
    requires Reaches(w, m) && CalmStep(m, l) && Step(m, l).Some?
    ensures Reaches(w, Step(m, l).value)
  {
    var labels :| Calm(w, labels) && Exec(w, labels) == Some(m);
    CalmOneMore(w, labels, l);
    ExecOneMore(w, labels, l);
    assert Calm(w, labels + [l]) && Exec(w, labels + [l]) == Some(Step(m, l).value);
  }

  lemma CalmOneMore(w: World, labels: seq<Label>, l: Label)
    ensures Calm(w, labels + [l]) <==> Calm(w, labels) && (Exec(w, labels).Some? ==> CalmStep(Exec(w, labels).value, l))
  {
    assert (labels + [l])[..|labels|] == labels;
  }

  lemma {:induction false} CalmConcat(w: World, a: seq<Label>, m: World, b: seq<Label>)
    requires Calm(w, a) && Exec(w, a) == Some(m) && Calm(m, b)
    ensures Calm(w, a + b) && Exec(w, a + b) == Exec(m, b)
  {
    if b == [] {
      assert a + b == a;
    } else {
      var most, last := b[..|b| - 1], b[|b| - 1];
      assert b == most + [last] && a + b == (a + most) + [last];
      CalmOneMore(m, most, last);
      CalmConcat(w, a, m, most);
      CalmOneMore(w, a + most, last);
      ExecOneMore(m, most, last);
      ExecOneMore(w, a + most, last);
    }
  }

  lemma ReachesJoin(w: World, m: World, n: World)
    requires Reaches(w, m) && Reaches(m, n)
    ensures Reaches(w, n)
  {
    var a :| Calm(w, a) && Exec(w, a) == Some(m);
    var b :| Calm(m, b) && Exec(m, b) == Some(n);
    CalmConcat(w, a, m, b);
  }

  lemma {:induction false} RunStaysSound(count: nat, w: World, labels: seq<Label>)
    requires Sound(count, w) && Exec(w, labels).Some?
    ensures Sound(count, Exec(w, labels).value)
  {
    if labels != [] {
      RunStaysSound(count, w, labels[..|labels| - 1]);
      StepKeepsSound(count, Exec(w, labels[..|labels| - 1]).value, labels[|labels| - 1]);
    }
  }

  lemma ReachedIsSound(count: nat, w: World, m: World)
    requires Sound(count, w) && Reaches(w, m)
    ensures Sound(count, m)
  {
    var labels :| Calm(w, labels) && Exec(w, labels) == Some(m);
    RunStaysSound(count, w, labels);
  }

  // ---- The condition ----

  /** What revertSnapshots needs of the cluster: a snapshot and a volume for every old claim. */
  predicate Replaceable(c: Cluster, r: Revert) {
    var claims := LastOf(r).oldClaims;
    && AllCovered(claims, c.snapshots, r.action.fromTime, r.action.toTime)
    && forall claim <- claims :: claim.spec.volumeName in c.volumes
  }

  /** The volume is there and not tied to any claim. */
  predicate Free(c: Cluster, volume: string) {
    volume in c.volumes && c.volumes[volume].claimRef.None?
  }

  /** What undoRevertSnapshots needs: every volume an old claim names is free, and none is named twice. */
  predicate Restorable(c: Cluster, claims: seq<Claim>) {
    && (forall i | 0 <= i < |claims| :: claims[i].spec.volumeName != "" ==> Free(c, claims[i].spec.volumeName))
    && (forall i, j | 0 <= i < j < |claims| :: claims[i].spec.volumeName != "" ==>
        claims[i].spec.volumeName != claims[j].spec.volumeName)
  }

  predicate NoRunOf(c: Cluster, strategy: string) {
    forall n <- c.runs :: c.runs[n].owner != strategy
  }

  predicate Uncovered(c: Cluster, r: Revert) {
    !AllCovered(LastOf(r).oldClaims, c.snapshots, r.action.fromTime, r.action.toTime)
  }

  /** What the validation of a revert needs: a run of the strategy that can finish, or none at all and a snapshot for
      every old claim, so that a run can be made. A run that cannot finish is adopted all the same. */
  predicate Validatable(c: Cluster, r: Revert)
    requires Validates(r)
  {
    || (exists n <- c.runs :: c.runs[n].owner == r.validation.value && CanFinish(c.runs[n]))
    || (NoRunOf(c, r.validation.value) && !Uncovered(c, r))
  }

  predicate Ready(c: Cluster, r: Revert) {
    match StageOf(r)
    case Initialize => c.sts.replicas.Some? && c.sts.replicas.value != 0
    case Pause => Validates(r) ==> Validatable(c, r)
    case Replace => Replaceable(c, r)
    case Restore => Restorable(c, LastOf(r).oldClaims)
    case _ => true
  }

  // ---- A step that is not ready is never stored ----

  /** The object is still `r`, and the worker, if any, works on it. */
  ghost predicate Still(r: Revert, w: World) {
    w.c.stored == r && UpToDate(w)
  }

  /** A processing that is cut short by its first read. */
  ghost predicate EndsAtOnce(r: Revert, w: World) {
    Still(r, w) && (w.worker.Busy? ==> w.worker.at == 0 || |w.worker.ops| == 1)
  }

  predicate NothingWanted(c: Cluster) {
    c.sts.replicas.None? || c.sts.replicas.value == 0
  }

  lemma InitializeNeedsReplicas(r: Revert, obs: Obs, c: Cluster)
    requires StageOf(r) == Initialize && NothingWanted(c) && |AllOps(r, obs)| > 0 && Accepts(c, AllOps(r, obs)[0])
    ensures |AllOps(r, obs)| == 1 && AllOps(r, obs)[0].ReadSts?
  {
    assert !Validates(r);
    assert AllOps(r, obs)[0] == ReadSts(obs.replicas);
    assert InitializePlan(r, obs) == Plan([ReadSts(obs.replicas)], None);
  }

  lemma InitializeStays(r: Revert, w: World, l: Label)
    requires StageOf(r) == Initialize && NothingWanted(w.c) && EndsAtOnce(r, w)
    requires CalmStep(w, l) && Step(w, l).Some?
    ensures EndsAtOnce(r, Step(w, l).value) && NothingWanted(Step(w, l).value.c)
  {
    if l == Call {
      var obs :| w.worker.ops == AllOps(r, obs);
      InitializeNeedsReplicas(r, obs, w.c);
    }
  }

  lemma ReplaceNeedsSnapshots(r: Revert, obs: Obs, c: Cluster)
    requires StageOf(r) == Replace && Uncovered(c, r) && Accepts(c, AllOps(r, obs)[0])
    requires AllOps(r, obs) != []
    ensures |AllOps(r, obs)| == 1 && AllOps(r, obs)[0].ListSnapshots?
  {
    ReplaceAllOps(r, obs);
    assert AllOps(r, obs)[0] == ListSnapshots(obs.snaps, obs.failed);
    NoListingCovers(r, c, obs.snaps, obs.failed);
  }

  /** A listing, complete or not, shows no snapshot that is not there. */
  lemma NoListingCovers(r: Revert, c: Cluster, list: seq<Snapshot>, failed: bool)
    requires Uncovered(c, r) && ListsSnapshots(list, failed, c.snapshots)
    ensures Select(LastOf(r).oldClaims, list, failed, r.action.fromTime, r.action.toTime).None?
  {
    var claims, from, to := LastOf(r).oldClaims, r.action.fromTime, r.action.toTime;
    var n :| n in Names(claims) && Newest(c.snapshots, n, from, to).None?;
    if Newest(list, n, from, to).Some? {
      MoreSnapshotsNeverMoveBack(list, c.snapshots, n, from, to);
    }
    assert !AllCovered(claims, list, from, to);
  }

  lemma UncoveredStays(r: Revert, w: World, l: Label)
    requires StageOf(r) == Replace && Uncovered(w.c, r) && EndsAtOnce(r, w)
    requires CalmStep(w, l) && Step(w, l).Some?
    ensures EndsAtOnce(r, Step(w, l).value) && Uncovered(Step(w, l).value.c, r)
  {
    if l == Call {
      var obs :| w.worker.ops == AllOps(r, obs);
      ReplaceNeedsSnapshots(r, obs, w.c);
    }
  }

  // A missing volume

  predicate Reads(op: Op, volume: string) { op.GetPV? && op.volume == volume }

  /** The volume of an old claim is gone, and no read of it has come through. */
  ghost predicate LacksVolume(r: Revert, w: World, volume: string) {
    && Still(r, w) && volume !in w.c.volumes && IsNamed(w.c, volume)
    && (w.worker.Busy? ==>
        w.worker.at <= |w.worker.ops| && forall j | 0 <= j < w.worker.at :: !Reads(w.worker.ops[j], volume))
  }

  lemma {:induction false} RetireReads(claims: seq<Claim>, volumes: seq<(Volume, Volume)>, n: nat)
    requires n < |claims|
    ensures exists op <- RetireAll(claims, volumes) :: Reads(op, claims[n].spec.volumeName)
  {
    var last := |claims| - 1;
    if n < last {
      RetireReads(claims[..last], volumes, n);
      var op :| op in RetireAll(claims[..last], volumes) && Reads(op, claims[n].spec.volumeName);
      assert op in RetireAll(claims, volumes);
    } else {
      var round := RetireOps(claims[last], VolumeAt(volumes, last));
      assert Reads(round[0], claims[n].spec.volumeName);
      assert round[0] in RetireAll(claims, volumes);
    }
  }

  /** A plan that stores the result of replacing has read the volume of every old claim. */
  lemma ReplaceReads(r: Revert, obs: Obs, n: nat)
    requires StageOf(r) == Replace && n < |LastOf(r).oldClaims| && ReplacePlan(r, obs).result.Some?
    ensures exists op <- ReplacePlan(r, obs).ops :: Reads(op, LastOf(r).oldClaims[n].spec.volumeName)
  {
    var claims := LastOf(r).oldClaims;
    RetireReads(claims, obs.volumes, n);
    var op :| op in RetireAll(claims, obs.volumes) && Reads(op, claims[n].spec.volumeName);
    var chosen := Select(claims, obs.snaps, obs.failed, r.action.fromTime, r.action.toTime);
    assert op in ReplaceOps(r.stsType, claims, chosen.value, obs.volumes);
  }

  lemma StoringHasRead(r: Revert, obs: Obs, n: nat, at: nat)
    requires StageOf(r) == Replace && n < |LastOf(r).oldClaims|
    requires at < |AllOps(r, obs)| && AllOps(r, obs)[at].UpdateRevert?
    ensures exists j | 0 <= j < at :: Reads(AllOps(r, obs)[j], LastOf(r).oldClaims[n].spec.volumeName)
  {
    var ops := ReplacePlan(r, obs).ops;
    ReplaceAllOps(r, obs);
    UpdateIsLast(r, obs, at);
    ReplaceReads(r, obs, n);
    var op :| op in ops && Reads(op, LastOf(r).oldClaims[n].spec.volumeName);
    var j :| 0 <= j < |ops| && ops[j] == op;
    assert AllOps(r, obs)[j] == op;
  }

  lemma LackingNeverStores(r: Revert, w: World, n: nat)
    requires StageOf(r) == Replace && n < |LastOf(r).oldClaims|
    requires LacksVolume(r, w, LastOf(r).oldClaims[n].spec.volumeName)
    requires w.worker.Busy? && w.worker.at < |w.worker.ops|
    ensures !w.worker.ops[w.worker.at].UpdateRevert?
  {
    var obs :| w.worker.ops == AllOps(r, obs);
    if AllOps(r, obs)[w.worker.at].UpdateRevert? {
      StoringHasRead(r, obs, n, w.worker.at);
    }
  }

  lemma UpdateIsLast(r: Revert, obs: Obs, at: nat)
    requires StageOf(r) == Replace && at < |AllOps(r, obs)| && AllOps(r, obs)[at].UpdateRevert?
    ensures ReplacePlan(r, obs).result.Some? && at == |ReplacePlan(r, obs).ops|
  {
    ReplaceAllOps(r, obs);
    StageStoresNothing(r, obs);
    var ops := ReplacePlan(r, obs).ops;
    assert StagePlan(r, obs).ops == ops;
    assert forall i | 0 <= i < |ops| :: AllOps(r, obs)[i] == ops[i] && ops[i] in ops;
  }

  lemma LackingStays(r: Revert, w: World, l: Label, n: nat)
    requires StageOf(r) == Replace && n < |LastOf(r).oldClaims|
    requires LacksVolume(r, w, LastOf(r).oldClaims[n].spec.volumeName)
    requires CalmStep(w, l) && Step(w, l).Some?
    ensures LacksVolume(r, Step(w, l).value, LastOf(r).oldClaims[n].spec.volumeName)
  {
    if l == Call {
      LackingNeverStores(r, w, n);
      LackingCall(w.c, w.worker.ops, w.worker.at, LastOf(r).oldClaims[n].spec.volumeName);
      StillAfterCall(r, w);
    }
    NamedByRecord(Step(w, l).value.c, n);
    if l.Outside? {
      EventKeepsAbsent(w.c, l.e, LastOf(r).oldClaims[n].spec.volumeName);
    }
  }

  /** No call makes a volume, and a volume that is not there cannot be read. */
  lemma AbsentOp(c: Cluster, op: Op, volume: string)
    requires Accepts(c, op) && volume !in c.volumes && !op.UpdateRevert?
    ensures volume !in Effect(c, op).volumes && !Reads(op, volume) && Effect(c, op).stored == c.stored
  {
  }

  lemma LackingCall(c: Cluster, ops: seq<Op>, at: nat, volume: string)
    requires at < |ops| && Accepts(c, ops[at]) && !ops[at].UpdateRevert? && volume !in c.volumes
    requires forall j | 0 <= j < at :: !Reads(ops[j], volume)
    ensures volume !in Effect(c, ops[at]).volumes && forall j | 0 <= j < at + 1 :: !Reads(ops[j], volume)
  {
    AbsentOp(c, ops[at], volume);
  }

  lemma StillAfterCall(r: Revert, w: World)
    requires Still(r, w) && Step(w, Call).Some? && !w.worker.ops[w.worker.at].UpdateRevert?
    ensures Still(r, Step(w, Call).value)
    ensures Step(w, Call).value.worker == w.worker.(at := w.worker.at + 1)
    ensures Step(w, Call).value.c == Effect(w.c, w.worker.ops[w.worker.at])
  {
  }

  lemma EventKeepsAbsent(c: Cluster, e: Event, volume: string)
    requires Possible(c, e) && Provides(c, e) && volume !in c.volumes && IsNamed(c, volume)
    ensures volume !in Change(c, e).volumes
  {
  }

  lemma NamedByRecord(c: Cluster, n: nat)
    requires n < |LastOf(c.stored).oldClaims|
    ensures IsNamed(c, LastOf(c.stored).oldClaims[n].spec.volumeName)
  {
    assert LastOf(c.stored) in c.stored.reverts && LastOf(c.stored).oldClaims[n] in LastOf(c.stored).oldClaims;
  }

  // A volume of the undo that is not free

  /** Where the create of claim `i` stands in the plan of a restoring stage. */
  function CreateAt(r: Revert, i: nat): nat { |LastOf(r).oldClaims| + i }

  lemma RestoreOpsAt(r: Revert, obs: Obs)
    requires StageOf(r) == Restore
    ensures IsRestore(LastOf(r).oldClaims, AllOps(r, obs))
  {
    RestoreAllOps(r, obs);
    RestoreOpsIndex(LastOf(r).oldClaims, AllOps(r, obs), UpdateRevert(r, Advanced(r, Restore)));
  }

  /** Delete all, create all, wait for all, store. */
  predicate IsRestore(claims: seq<Claim>, ops: seq<Op>) {
    && |ops| == 2 * |claims| + 2
    && (forall at | 0 <= at < |claims| :: ops[at] == DeletePVC(claims[at].Key()))
    && (forall at | |claims| <= at < 2 * |claims| :: ops[at] == CreatePVC(Restoring(claims[at - |claims|])))
    && ops[2 * |claims|] == AwaitBound(Keys(claims)) && ops[2 * |claims| + 1].UpdateRevert?
  }

  lemma RestoreOpsIndex(claims: seq<Claim>, ops: seq<Op>, last: Op)
    requires ops == DeleteAll(claims) + RestoreAll(claims) + [AwaitBound(Keys(claims))] + [last] && last.UpdateRevert?
    ensures IsRestore(claims, ops)
  {
    forall at | |claims| <= at < 2 * |claims| ensures ops[at] == CreatePVC(Restoring(claims[at - |claims|])) {
      assert ops[at] == RestoreAll(claims)[at - |claims|];
    }
  }

  /** The claim is there again, waiting for the volume it names. */
  predicate Waits(c: Cluster, claim: Claim) {
    claim.Key() in c.claims && !c.claims[claim.Key()].bound
      && c.claims[claim.Key()].spec.volumeName == claim.spec.volumeName
  }

  /** The volume that claim `i` names is not free, so the claim waits for ever once it is created. */
  ghost predicate NeverBinds(r: Revert, w: World, i: nat)
    requires i < |LastOf(r).oldClaims|
  {
    var claims := LastOf(r).oldClaims;
    && Still(r, w) && claims[i].spec.volumeName != "" && !Free(w.c, claims[i].spec.volumeName)
    && (w.worker.Busy? ==>
          && w.worker.at <= 2 * |claims|
          && (w.worker.at > CreateAt(r, i) ==> Waits(w.c, claims[i])))
  }

  lemma EventNeverBinds(c: Cluster, e: Event, claim: Claim)
    requires Possible(c, e) && claim.spec.volumeName != "" && !Free(c, claim.spec.volumeName)
    ensures !Free(Change(c, e), claim.spec.volumeName)
    ensures Waits(c, claim) ==> Waits(Change(c, e), claim)
  {
  }

  /** Calls of a restoring stage, as far as a claim that waits is concerned. */
  lemma OpKeepsWaits(c: Cluster, op: Op, claim: Claim)
    requires Accepts(c, op) && (op.DeletePVC? || op.CreatePVC? || op.AwaitBound?)
    ensures Free(Effect(c, op), claim.spec.volumeName) == Free(c, claim.spec.volumeName)
    ensures op == CreatePVC(Restoring(claim)) ==> Waits(Effect(c, op), claim)
    ensures op.CreatePVC? && op.claim.Key() != claim.Key() && Waits(c, claim) ==> Waits(Effect(c, op), claim)
    ensures op.AwaitBound? && claim.Key() in op.keys ==> !Waits(c, claim)
  {
  }

  /** Which call of a restoring stage comes at which place. */
  lemma RestoreOpAt(r: Revert, obs: Obs, at: nat)
    requires StageOf(r) == Restore && at <= 2 * |LastOf(r).oldClaims|
    ensures var claims, ops := LastOf(r).oldClaims, AllOps(r, obs);
      && |ops| == 2 * |claims| + 2
      && (at < |claims| ==> ops[at] == DeletePVC(claims[at].Key()))
      && (|claims| <= at < 2 * |claims| ==> ops[at] == CreatePVC(Restoring(claims[at - |claims|])))
      && (at == 2 * |claims| ==> ops[at] == AwaitBound(Keys(claims)))
  {
    RestoreOpsAt(r, obs);
  }

  lemma CallNeverBinds(r: Revert, w: World, obs: Obs, i: nat)
    requires StageOf(r) == Restore && i < |LastOf(r).oldClaims| && NeverBinds(r, w, i)
    requires DistinctKeys(LastOf(r).oldClaims)
    requires Step(w, Call).Some? && w.worker.ops == AllOps(r, obs)
    ensures NeverBinds(r, Step(w, Call).value, i)
  {
    var claims, at := LastOf(r).oldClaims, w.worker.at;
    RestoreOpAt(r, obs, at);
    RestoreCallKeepsWaits(w.c, claims, w.worker.ops[at], at, i);
    StillAfterCall(r, w);
  }

  /** A claim that cannot be bound waits from its creation on, and nobody gets past the wait for it. */
  lemma RestoreCallKeepsWaits(c: Cluster, claims: seq<Claim>, op: Op, at: nat, i: nat)
    requires i < |claims| && at <= 2 * |claims| && DistinctKeys(claims) && Accepts(c, op)
    requires at < |claims| ==> op == DeletePVC(claims[at].Key())
    requires |claims| <= at < 2 * |claims| ==> op == CreatePVC(Restoring(claims[at - |claims|]))
    requires at == 2 * |claims| ==> op == AwaitBound(Keys(claims))
    requires at > |claims| + i ==> Waits(c, claims[i])
    ensures at < 2 * |claims| && (at + 1 > |claims| + i ==> Waits(Effect(c, op), claims[i]))
    ensures Free(Effect(c, op), claims[i].spec.volumeName) == Free(c, claims[i].spec.volumeName)
  {
    OpKeepsWaits(c, op, claims[i]);
    assert Keys(claims)[i] in Keys(claims);
  }

  lemma NeverBindsStays(r: Revert, w: World, l: Label, i: nat)
    requires StageOf(r) == Restore && i < |LastOf(r).oldClaims| && NeverBinds(r, w, i)
    requires DistinctKeys(LastOf(r).oldClaims)
    requires (l.Outside? ==> !l.e.EditAction?) && Step(w, l).Some?
    ensures NeverBinds(r, Step(w, l).value, i)
  {
    match l
    case Call =>
      var obs :| w.worker.ops == AllOps(r, obs);
      CallNeverBinds(r, w, obs, i);
    case Outside(e) => EventNeverBinds(w.c, e, LastOf(r).oldClaims[i]);
    case _ =>
  }

  // A volume the undo needs twice

  /** If the claim is bound, its volume is tied to it. */
  predicate Tied(c: Cluster, claim: Claim) {
    var k, v := claim.Key(), claim.spec.volumeName;
    && k in c.claims && c.claims[k].spec.volumeName == v
    && (c.claims[k].bound ==> v in c.volumes && c.volumes[v].claimRef == Some(ClaimRef(k, c.claims[k].uid)))
  }

  /** Claims `i` and `j` name the same volume, so at most one of them gets bound. */
  ghost predicate Competes(r: Revert, w: World, i: nat, j: nat)
    requires i < j < |LastOf(r).oldClaims|
  {
    var claims := LastOf(r).oldClaims;
    && Still(r, w) && claims[i].spec.volumeName == claims[j].spec.volumeName != ""
    && (w.worker.Busy? ==>
          && w.worker.at <= 2 * |claims|
          && (w.worker.at > CreateAt(r, i) ==> Tied(w.c, claims[i]))
          && (w.worker.at > CreateAt(r, j) ==> Tied(w.c, claims[j])))
  }

  lemma EventKeepsTied(c: Cluster, e: Event, claim: Claim)
    requires Possible(c, e) && claim.spec.volumeName != ""
    ensures Tied(c, claim) ==> Tied(Change(c, e), claim)
  {
  }

  lemma OpKeepsTied(c: Cluster, op: Op, claim: Claim)
    requires Accepts(c, op) && (op.DeletePVC? || op.CreatePVC? || op.AwaitBound?)
    ensures op == CreatePVC(Restoring(claim)) ==> Tied(Effect(c, op), claim)
    ensures op.CreatePVC? && op.claim.Key() != claim.Key() && Tied(c, claim) ==> Tied(Effect(c, op), claim)
    ensures op.AwaitBound? ==> Effect(c, op) == c
    ensures op.AwaitBound? && claim.Key() in op.keys ==> claim.Key() in c.claims && c.claims[claim.Key()].bound
  {
  }

  lemma CallCompetes(r: Revert, w: World, obs: Obs, i: nat, j: nat)
    requires StageOf(r) == Restore && i < j < |LastOf(r).oldClaims| && Competes(r, w, i, j)
    requires DistinctKeys(LastOf(r).oldClaims)
    requires Step(w, Call).Some? && w.worker.ops == AllOps(r, obs)
    ensures Competes(r, Step(w, Call).value, i, j)
  {
    var claims, at := LastOf(r).oldClaims, w.worker.at;
    RestoreOpAt(r, obs, at);
    RestoreCallKeepsTied(w.c, claims, w.worker.ops[at], at, i);
    RestoreCallKeepsTied(w.c, claims, w.worker.ops[at], at, j);
    StillAfterCall(r, w);
  }

  /** A claim stays tied from its creation on, and passing the wait means that it is bound. */
  lemma RestoreCallKeepsTied(c: Cluster, claims: seq<Claim>, op: Op, at: nat, i: nat)
    requires i < |claims| && at <= 2 * |claims| && DistinctKeys(claims) && Accepts(c, op)
    requires at < |claims| ==> op == DeletePVC(claims[at].Key())
    requires |claims| <= at < 2 * |claims| ==> op == CreatePVC(Restoring(claims[at - |claims|]))
    requires at == 2 * |claims| ==> op == AwaitBound(Keys(claims))
    requires at > |claims| + i ==> Tied(c, claims[i])
    ensures at + 1 > |claims| + i ==> Tied(Effect(c, op), claims[i])
    ensures at == 2 * |claims| ==> claims[i].Key() in c.claims && c.claims[claims[i].Key()].bound
  {
    OpKeepsTied(c, op, claims[i]);
    assert Keys(claims)[i] in Keys(claims);
  }

  lemma CompetesStays(r: Revert, w: World, l: Label, i: nat, j: nat)
    requires StageOf(r) == Restore && i < j < |LastOf(r).oldClaims| && Competes(r, w, i, j)
    requires DistinctKeys(LastOf(r).oldClaims)
    requires (l.Outside? ==> !l.e.EditAction?) && Step(w, l).Some?
    ensures Competes(r, Step(w, l).value, i, j)
  {
    match l
    case Call =>
      var obs :| w.worker.ops == AllOps(r, obs);
      CallCompetes(r, w, obs, i, j);
    case Outside(e) =>
      EventKeepsTied(w.c, e, LastOf(r).oldClaims[i]);
      EventKeepsTied(w.c, e, LastOf(r).oldClaims[j]);
    case _ =>
  }

  // A validation that cannot finish

  /** No run of the strategy can finish, and there is one or none can be made. */
  predicate Unvalidatable(c: Cluster, r: Revert)
    requires Validates(r)
  {
    && (forall n <- c.runs :: c.runs[n].owner == r.validation.value ==> !CanFinish(c.runs[n]))
    && (NoRunOf(c, r.validation.value) ==> Uncovered(c, r))
  }

  /** A call that came through and leads nowhere. */
  ghost predicate LeadsNowhere(c: Cluster, r: Revert, op: Op)
    requires Validates(r)
  {
    match op
    case SeeRun(strategy, None) => strategy == r.validation.value && Uncovered(c, r)
    case SeeRun(strategy, Some(run)) =>
      && strategy == r.validation.value && !run.status.validationFinished
      && run.name in c.runs && c.runs[run.name].owner == strategy
    case ListSnapshots(list, failed) => ListsSnapshots(list, failed, c.snapshots)
    case _ => false
  }

  ghost predicate NeverValidated(r: Revert, w: World)
    requires Validates(r)
  {
    && Still(r, w) && Unvalidatable(w.c, r)
    && (w.worker.Busy? ==>
          w.worker.at <= |w.worker.ops| && forall i | 0 <= i < w.worker.at :: LeadsNowhere(w.c, r, w.worker.ops[i]))
  }

  /** What a call of a pausing plan rests on, if the revert names a strategy. */
  ghost predicate RestsOn(r: Revert, ops: seq<Op>, at: nat)
    requires Validates(r) && at < |ops|
  {
    match ops[at]
    case SeeRun(strategy, _) => strategy == r.validation.value
    case ListSnapshots(_, _) => true
    case CreateRun(run) =>
      && at > 1 && ops[at - 2] == SeeRun(r.validation.value, None) && ops[at - 1].ListSnapshots?
      && var list := ops[at - 1];
         var chosen := Select(LastOf(r).oldClaims, list.list, list.failed, r.action.fromTime, r.action.toTime);
         chosen.Some? && run.claimsToSnapshots == map n | n in chosen.value :: chosen.value[n].name
    case AwaitFinished(n) =>
      && at > 0
      && (ops[at - 1].CreateRun?
          || (ops[at - 1].SeeRun? && ops[at - 1].matched.Some? && ops[at - 1].matched.value.name == n))
    case _ => exists i | 0 <= i < at :: Passes(ops[i])
  }

  /** The validation is seen to be over. */
  predicate Passes(op: Op) {
    op.AwaitFinished? || (op.SeeRun? && op.matched.Some? && op.matched.value.status.validationFinished)
  }

  lemma RunValidationRests(r: Revert, v: ValidationObs, at: nat)
    requires Validates(r) && at < |RunValidation(r, r.validation.value, v).0|
    ensures RestsOn(r, RunValidation(r, r.validation.value, v).0, at)
  {
    var ops := RunValidation(r, r.validation.value, v).0;
    if ops[at].RequestCleanup? {
      assert Passes(ops[at - 1]);
    }
  }

  /** The look before it changes nothing about that. */
  lemma RestsLater(r: Revert, pre: seq<Op>, ops: seq<Op>, at: nat)
    requires Validates(r) && at < |ops| && RestsOn(r, ops, at)
    ensures RestsOn(r, pre + ops, |pre| + at)
  {
    var all := pre + ops;
    assert forall i | 0 <= i < |ops| :: all[|pre| + i] == ops[i];
    if i :| 0 <= i < at && Passes(ops[i]) {
      assert Passes(all[|pre| + i]);
    }
  }

  lemma ValidationRests(r: Revert, v: ValidationObs, at: nat)
    requires Validates(r) && at < |ValidationPlan(r, v).0|
    ensures RestsOn(r, ValidationPlan(r, v).0, at)
  {
    var look, ops := FirstLook(r.validation.value, v), RunValidation(r, r.validation.value, v).0;
    if MissingValidation(v) && at >= |look| {
      RunValidationRests(r, v, at - |look|);
      RestsLater(r, look, ops, at - |look|);
    }
  }

  lemma ValidationPasses(r: Revert, v: ValidationObs)
    requires Validates(r) && ValidationPlan(r, v).1
    ensures exists op <- ValidationPlan(r, v).0 :: Passes(op)
  {
    var look, ops := FirstLook(r.validation.value, v), RunValidation(r, r.validation.value, v).0;
    if MissingValidation(v) {
      var i := |ops| - 2;
      assert Passes(ops[i]) && (look + ops)[|look| + i] == ops[i];
    } else {
      assert Passes(look[0]);
    }
  }

  predicate Looks(op: Op) {
    op.SeeRun? || op.ListSnapshots? || op.CreateRun? || op.AwaitFinished?
  }

  lemma PauseLooksNoMore(r: Revert, obs: Obs)
    requires Validates(r)
    ensures forall op <- StagePlan(r, obs).ops :: !Looks(op)
    ensures forall op <- Closing(r, StagePlan(r, obs).result) :: !Looks(op)
  {
    assert StagePlan(r, obs).ops == PauseOps(obs.replicas) || StagePlan(r, obs).ops == [];
  }

  lemma PauseRests(r: Revert, obs: Obs, at: nat)
    requires Validates(r) && at < |AllOps(r, obs)|
    ensures RestsOn(r, AllOps(r, obs), at)
  {
    var v, mid, post := ValidationPlan(r, obs.validation), StagePlan(r, obs).ops, Closing(r, StagePlan(r, obs).result);
    if at < |v.0| {
      ValidationRests(r, obs.validation, at);
      PrefixRests(r, v.0, AllOps(r, obs), at);
    } else {
      PauseLooksNoMore(r, obs);
      ValidationPasses(r, obs.validation);
      AfterPassing(r, v.0, mid, post, at);
    }
  }

  lemma PrefixRests(r: Revert, pre: seq<Op>, ops: seq<Op>, at: nat)
    requires Validates(r) && pre <= ops && at < |pre| && RestsOn(r, pre, at)
    ensures RestsOn(r, ops, at)
  {
    assert forall i | 0 <= i < |pre| :: ops[i] == pre[i];
  }

  lemma AfterPassing(r: Revert, pre: seq<Op>, mid: seq<Op>, post: seq<Op>, at: nat)
    requires Validates(r) && |pre| <= at < |pre + mid + post| && exists op <- pre :: Passes(op)
    requires (forall op <- mid :: !Looks(op)) && (forall op <- post :: !Looks(op))
    ensures RestsOn(r, pre + mid + post, at)
  {
    var ops := pre + mid + post;
    var op :| op in pre && Passes(op);
    var i :| 0 <= i < |pre| && pre[i] == op;
    assert Passes(ops[i]);
    assert ops[at] in mid || ops[at] in post;
  }

  lemma CallLeadsNowhere(c: Cluster, r: Revert, ops: seq<Op>, at: nat)
    requires Validates(r) && Unvalidatable(c, r) && at < |ops| && Accepts(c, ops[at]) && RestsOn(r, ops, at)
    requires forall i | 0 <= i < at :: LeadsNowhere(c, r, ops[i])
    ensures Effect(c, ops[at]) == c && !ops[at].UpdateRevert?
    ensures forall i | 0 <= i < at + 1 :: LeadsNowhere(c, r, ops[i])
  {
    assert forall i | 0 <= i < at :: !Passes(ops[i]);
    if ops[at].CreateRun? {
      NoListingCovers(r, c, ops[at - 1].list, ops[at - 1].failed);
    }
  }

  lemma EventLeadsNowhere(c: Cluster, r: Revert, e: Event, op: Op)
    requires Validates(r) && Unvalidatable(c, r) && LeadsNowhere(c, r, op)
    requires !e.EditAction? && !e.SnapshotsChange? && (e.RunsChange? ==> RunsGoOn(c.runs, e.runs))
    ensures LeadsNowhere(Change(c, e), r, op)
  {
  }

  lemma EventUnvalidatable(c: Cluster, r: Revert, e: Event)
    requires Validates(r) && Unvalidatable(c, r)
    requires !e.EditAction? && !e.SnapshotsChange? && (e.RunsChange? ==> RunsGoOn(c.runs, e.runs))
    ensures Unvalidatable(Change(c, e), r)
  {
  }

  lemma WorkerRests(r: Revert, w: World)
    requires Validates(r) && Still(r, w) && w.worker.Busy? && w.worker.at < |w.worker.ops|
    ensures RestsOn(r, w.worker.ops, w.worker.at)
  {
    var obs :| w.worker.ops == AllOps(r, obs);
    PauseRests(r, obs, w.worker.at);
  }

  lemma CallNeverValidates(r: Revert, w: World)
    requires Validates(r) && NeverValidated(r, w) && Step(w, Call).Some?
    ensures NeverValidated(r, Step(w, Call).value)
  {
    WorkerRests(r, w);
    CallLeadsNowhere(w.c, r, w.worker.ops, w.worker.at);
    StillAfterCall(r, w);
  }

  lemma EventNeverValidates(r: Revert, w: World, e: Event)
    requires Validates(r) && NeverValidated(r, w) && CalmStep(w, Outside(e)) && Possible(w.c, e)
    ensures NeverValidated(r, w.(c := Change(w.c, e)))
  {
    EventUnvalidatable(w.c, r, e);
    if w.worker.Busy? {
      forall i | 0 <= i < w.worker.at ensures LeadsNowhere(Change(w.c, e), r, w.worker.ops[i]) {
        EventLeadsNowhere(w.c, r, e, w.worker.ops[i]);
      }
    }
  }

  lemma NeverValidatedStays(r: Revert, w: World, l: Label)
    requires Validates(r) && NeverValidated(r, w) && CalmStep(w, l) && Step(w, l).Some?
    ensures NeverValidated(r, Step(w, l).value)
  {
    match l
    case Call => CallNeverValidates(r, w);
    case Outside(e) => EventNeverValidates(r, w, e);
    case _ =>
  }

  // ---- All together ----

  /** Why the step is not ready, as a property that no calm step ends. */
  ghost predicate Blocked(r: Revert, w: World) {
    match StageOf(r)
    case Initialize => EndsAtOnce(r, w) && NothingWanted(w.c)
    case Pause => Validates(r) && NeverValidated(r, w)
    case Replace =>
      || (EndsAtOnce(r, w) && Uncovered(w.c, r))
      || (exists n | 0 <= n < |LastOf(r).oldClaims| :: LacksVolume(r, w, LastOf(r).oldClaims[n].spec.volumeName))
    case Restore =>
      && DistinctKeys(LastOf(r).oldClaims)
      && ((exists i | 0 <= i < |LastOf(r).oldClaims| :: NeverBinds(r, w, i))
          || (exists i, j | 0 <= i < j < |LastOf(r).oldClaims| :: Competes(r, w, i, j)))
    case _ => false
  }

  lemma BlockedStays(r: Revert, w: World, l: Label)
    requires Blocked(r, w) && CalmStep(w, l) && Step(w, l).Some?
    ensures Blocked(r, Step(w, l).value)
  {
    match StageOf(r)
    case Initialize => InitializeStays(r, w, l);
    case Pause => NeverValidatedStays(r, w, l);
    case Replace =>
      if EndsAtOnce(r, w) && Uncovered(w.c, r) {
        UncoveredStays(r, w, l);
      } else {
        var n :| 0 <= n < |LastOf(r).oldClaims| && LacksVolume(r, w, LastOf(r).oldClaims[n].spec.volumeName);
        LackingStays(r, w, l, n);
      }
    case Restore => RestoreBlockedStays(r, w, l);
    case _ =>
  }

  lemma NotReadyBlocks(count: nat, w: World)
    requires Sound(count, w) && w.worker == Waiting && Rank(w.c.stored) > 0 && !Ready(w.c, w.c.stored)
    ensures Blocked(w.c.stored, w)
  {
    var r := w.c.stored;
    match StageOf(r)
    case Initialize =>
    case Replace =>
      if !Uncovered(w.c, r) {
        var claim :| claim in LastOf(r).oldClaims && claim.spec.volumeName !in w.c.volumes;
        var n :| 0 <= n < |LastOf(r).oldClaims| && LastOf(r).oldClaims[n] == claim;
        NamedByRecord(w.c, n);
        assert LacksVolume(r, w, LastOf(r).oldClaims[n].spec.volumeName);
      }
    case Restore => NotRestorableBlocks(count, w);
    case _ =>
  }

  lemma NotRestorableBlocks(count: nat, w: World)
    requires Sound(count, w) && w.worker == Waiting && StageOf(w.c.stored) == Restore
    requires !Restorable(w.c, LastOf(w.c.stored).oldClaims)
    ensures Blocked(w.c.stored, w)
  {
    var r := w.c.stored;
    var claims := LastOf(r).oldClaims;
    assert LastOf(r) in r.reverts;
    if i :| 0 <= i < |claims| && claims[i].spec.volumeName != "" && !Free(w.c, claims[i].spec.volumeName) {
      assert NeverBinds(r, w, i);
    } else {
      var i, j :| 0 <= i < j < |claims| && claims[i].spec.volumeName != ""
          && claims[i].spec.volumeName == claims[j].spec.volumeName;
      assert Competes(r, w, i, j);
    }
  }

  lemma {:induction false} BlockedForever(r: Revert, w: World, labels: seq<Label>)
    requires Blocked(r, w) && Calm(w, labels) && Exec(w, labels).Some?
    ensures Blocked(r, Exec(w, labels).value) && Exec(w, labels).value.c.stored == r
  {
    if labels != [] {
      var before := labels[..|labels| - 1];
      BlockedForever(r, w, before);
      BlockedStays(r, Exec(w, before).value, labels[|labels| - 1]);
    }
  }

  /** A pending step that is not ready is never stored: in every calm run from there, with any failures and retries,
      the stored object stays what it is. */
  lemma NotReadyNeverStores(count: nat, w: World, m: World)
    requires Sound(count, w) && w.worker == Waiting && Rank(w.c.stored) > 0 && !Ready(w.c, w.c.stored)
    requires Reaches(w, m)
    ensures m.c.stored == w.c.stored
  {
    NotReadyBlocks(count, w);
    var labels :| Calm(w, labels) && Exec(w, labels) == Some(m);
    BlockedForever(w.c.stored, w, labels);
  }

  /** An undo that is not ready stays so in every run without edits, whatever else happens. */
  lemma {:induction false} NotRestorableForever(count: nat, w: World, labels: seq<Label>)
    requires Sound(count, w) && w.worker == Waiting && StageOf(w.c.stored) == Restore
    requires !Restorable(w.c, LastOf(w.c.stored).oldClaims) && NoEdits(labels) && Exec(w, labels).Some?
    ensures Exec(w, labels).value.c.stored == w.c.stored && Blocked(w.c.stored, Exec(w, labels).value)
  {
    if labels == [] {
      NotRestorableBlocks(count, w);
    } else {
      var before, l := labels[..|labels| - 1], labels[|labels| - 1];
      assert l in labels;
      NotRestorableForever(count, w, before);
      RestoreBlockedStays(w.c.stored, Exec(w, before).value, l);
    }
  }

  lemma RestoreBlockedStays(r: Revert, w: World, l: Label)
    requires StageOf(r) == Restore && Blocked(r, w) && (l.Outside? ==> !l.e.EditAction?) && Step(w, l).Some?
    ensures Blocked(r, Step(w, l).value) && Step(w, l).value.c.stored == r
  {
    if i :| 0 <= i < |LastOf(r).oldClaims| && NeverBinds(r, w, i) {
      NeverBindsStays(r, w, l, i);
    } else {
      var i, j :| 0 <= i < j < |LastOf(r).oldClaims| && Competes(r, w, i, j);
      CompetesStays(r, w, l, i, j);
    }
  }
}
