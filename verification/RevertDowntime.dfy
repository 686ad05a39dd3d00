/** Claims change only while the application is down, and the replica count survives every revert and undo.
    Nothing is assumed of the user here: the action may be edited at any moment. */
module RevertDowntime {
  import opened Wrappers
  import opened Types
  import opened RevertCluster
  import opened RevertPlan
  import opened RevertMachine
  import opened Selection

  predicate Down(c: Cluster) {
    c.sts.replicas == Some(0) && c.pods == 0
  }

  predicate Pausing(stage: Stage) { stage == Pause || stage == UndoPause }

  predicate Resuming(stage: Stage) { stage == Resume || stage == UndoResume }

  predicate ChangesClaims(op: Op) { op.DeletePVC? || op.CreatePVC? }

  /** Only the last record can be in progress, and every record keeps the replica count and distinct claims. */
  ghost predicate Shape(count: nat, reverts: seq<Details>) {
    && (forall i | 0 <= i < |reverts| - 1 :: reverts[i].state == Finished)
    && (forall d <- reverts :: d.state != Fresh && d.replicas == Some(count) && DistinctKeys(d.oldClaims))
  }

  /** What the plan of the object `r` may contain. */
  predicate TameOp(count: nat, r: Revert, op: Op) {
    match op
    case ScaleTo(n) => if n == 0 then Pausing(StageOf(r)) else n == count && Resuming(StageOf(r))
    case DeletePVC(_) => TopIs(r.reverts, Paused)
    case CreatePVC(_) => TopIs(r.reverts, Paused)
    case UpdateRevert(seen, _) => seen == r
    case _ => true
  }

  /** The call after which replicas are known to be zero. */
  predicate Lowers(op: Op) {
    op == ScaleTo(0) || (op.ReadSts? && (op.replicas.Some? ==> op.replicas.value == 0))
  }

  ghost predicate TameAt(r: Revert, ops: seq<Op>, i: nat)
    requires i < |ops|
  {
    && (ops[i].AwaitNoPods? ==> i > 0 && Lowers(ops[i - 1]))
    && (ops[i].UpdateRevert? ==>
          && i == |ops| - 1
          && Stores(r, ops, ops[i].next)
          && (Pausing(StageOf(r)) ==> i > 0 && ops[i - 1].AwaitNoPods?))
  }

  /** The records a processing of `r` arrives at, before retention. */
  function Grown(r: Revert, ops: seq<Op>): seq<Details> {
    match StageOf(r)
    case Rest => r.reverts
    case Stuck => r.reverts
    case Initialize =>
      if |ops| == 3 && ops[0].ReadSts? && ops[1].ListClaims?
      then r.reverts + [Details(Init, ops[0].replicas, ops[1].found)] else r.reverts
    case UndoResume => if r.reverts == [] then [] else r.reverts[..|r.reverts| - 1]
    case stage => if r.reverts == [] then [] else SetState(r.reverts, Target(stage))
  }

  ghost predicate Stores(r: Revert, ops: seq<Op>, next: Revert) {
    && next.reverts == Retain(r, Grown(r, ops))
    && StageOf(r) != Stuck
    && (StageOf(r) == Initialize ==>
          |ops| == 3 && ops[0].ReadSts? && ops[1].ListClaims? && ops[0].replicas.Some? && ops[0].replicas.value > 0)
  }

  ghost predicate Tame(count: nat, r: Revert, ops: seq<Op>) {
    && (forall op <- ops :: TameOp(count, r, op))
    && (forall i: nat | i < |ops| :: TameAt(r, ops, i))
  }

  /** What is known of a call that was issued earlier in the same processing. */
  ghost predicate Learned(count: nat, op: Op) {
    match op
    case ReadSts(n) => n == Some(0) || n == Some(count)
    case ListClaims(found) => DistinctKeys(found)
    case _ => true
  }

  ghost predicate WorkerSound(count: nat, c: Cluster, worker: Worker) {
    match worker
    case Waiting => true
    case Loaded(r) => r.reverts == c.stored.reverts
    case Busy(r, ops, at) =>
      && r.reverts == c.stored.reverts
      && at <= |ops|
      && Tame(count, r, ops)
      && (forall i | 0 <= i < at :: Learned(count, ops[i]))
      && (at > 0 && Pausing(StageOf(r)) ==> Progress(c, ops[at - 1]))
  }

  predicate Progress(c: Cluster, done: Op) {
    && (done.AwaitNoPods? ==> Down(c))
    && (Lowers(done) ==> c.sts.replicas == Some(0))
  }

  ghost predicate Sound(count: nat, w: World) {
    && count > 0
    && (forall k <- w.c.claims :: w.c.claims[k].Key() == k)
    && Shape(count, w.c.stored.reverts)
    && (w.c.sts.replicas == Some(0) || w.c.sts.replicas == Some(count))
    && (TopIs(w.c.stored.reverts, Paused) ==> Down(w.c))
    && w.c.running <= w.c.pods
    && Named(w.c.runs) && HaveNames(w.c.snapshots)
    && WorkerSound(count, w.c, w.worker)
  }

  /** Retention never drops the record in progress. */
  lemma TrimmedLast(reverts: seq<Details>, keep: nat)
    ensures reverts == [] <==> Trimmed(reverts, keep) == []
    ensures reverts != [] ==> Last(Trimmed(reverts, keep)) == Last(reverts)
  {
  }

  lemma TrimmedShape(count: nat, reverts: seq<Details>, keep: nat)
    requires Shape(count, reverts)
    ensures Shape(count, Trimmed(reverts, keep))
    ensures reverts != [] ==> Trimmed(reverts, keep) != [] && Last(Trimmed(reverts, keep)) == Last(reverts)
  {
  }

  /** Records that leave the shape intact. */
  lemma StoredShape(count: nat, r: Revert, ops: seq<Op>, next: Revert)
    requires Shape(count, r.reverts) && Stores(r, ops, next) && count > 0
    requires forall i | 0 <= i < |ops| - 1 :: Learned(count, ops[i])
    ensures Shape(count, next.reverts)
    ensures TopIs(next.reverts, Paused) ==> Pausing(StageOf(r)) || (StageOf(r) == Rest && TopIs(r.reverts, Paused))
  {
    var grown := Grown(r, ops);
    if StageOf(r) == Initialize {
      assert Learned(count, ops[0]) && Learned(count, ops[1]);
      assert r.reverts == [] || Last(r.reverts).state == Finished;
    }
    assert Shape(count, grown);
    TrimmedShape(count, grown, r.keepStatus);
  }

  lemma RetireAllKinds(claims: seq<Claim>, volumes: seq<(Volume, Volume)>)
    ensures forall op <- RetireAll(claims, volumes) :: op.GetPV? || op.UpdatePV? || op.DeletePVC?
  {
  }

  /** Calls that concern neither claims, replicas, pods nor the stored object. */
  predicate Aside(op: Op) {
    !ChangesClaims(op) && !op.ScaleTo? && !op.AwaitNoPods? && !op.UpdateRevert?
  }

  lemma ValidationAside(r: Revert, v: ValidationObs)
    requires Validates(r)
    ensures forall op <- ValidationPlan(r, v).0 :: Aside(op)
  {
  }

  lemma ReplaceOpsKinds(stsType: Option<StatefulSetType>, claims: seq<Claim>, chosen: map<string, Snapshot>,
      volumes: seq<(Volume, Volume)>)
    ensures forall op <- ReplaceOps(stsType, claims, chosen, volumes) ::
      op.GetPV? || op.UpdatePV? || op.DeletePVC? || op.CreatePVC? || op.AwaitBound?
  {
    RetireAllKinds(claims, volumes);
  }

  lemma PausedStage(r: Revert)
    requires StageOf(r) == Replace || StageOf(r) == Restore
    ensures TopIs(r.reverts, Paused) && LastOf(r) == Last(r.reverts)
  {
  }

  /** The stages that change claims only ever run on a paused record. */
  lemma ReplaceKinds(r: Revert, obs: Obs)
    requires StageOf(r) == Replace
    ensures forall op <- StagePlan(r, obs).ops :: Aside(op) || (ChangesClaims(op) && TopIs(r.reverts, Paused))
  {
    PausedStage(r);
    var claims := LastOf(r).oldClaims;
    var chosen := Select(claims, obs.snaps, obs.failed, r.action.fromTime, r.action.toTime);
    if chosen.Some? {
      ReplaceOpsKinds(r.stsType, claims, chosen.value, obs.volumes);
    }
  }

  lemma RestoreKinds(r: Revert, obs: Obs)
    requires StageOf(r) == Restore
    ensures forall op <- StagePlan(r, obs).ops :: Aside(op) || (ChangesClaims(op) && TopIs(r.reverts, Paused))
  {
  }

  lemma StageStoresNothing(r: Revert, obs: Obs)
    ensures forall op <- StagePlan(r, obs).ops :: !op.UpdateRevert?
  {
    match StageOf(r)
    case Replace => ReplaceKinds(r, obs);
    case Restore => RestoreKinds(r, obs);
    case _ =>
  }

  lemma BodyTame(count: nat, r: Revert, obs: Obs)
    requires Shape(count, r.reverts) && count > 0
    ensures forall op <- StagePlan(r, obs).ops ::
              TameOp(count, r, op) && !op.UpdateRevert? && (op.AwaitNoPods? ==> Pausing(StageOf(r)))
  {
    match StageOf(r)
    case Replace => ReplaceKinds(r, obs);
    case Restore => RestoreKinds(r, obs);
    case Resume => assert Last(r.reverts) in r.reverts;
    case UndoResume => assert Last(r.reverts) in r.reverts;
    case _ =>
  }

  lemma ResultStores(count: nat, r: Revert, obs: Obs)
    requires Shape(count, r.reverts)
    requires StagePlan(r, obs).result.Some?
    ensures Stores(r, StagePlan(r, obs).ops + [UpdateRevert(r, StagePlan(r, obs).result.value)],
        StagePlan(r, obs).result.value)
    ensures StageOf(r) == Initialize ==> !Validates(r)
  {
    if StageOf(r) == Initialize {
      InitializeStores(count, r, obs);
    }
  }

  lemma InitializeStores(count: nat, r: Revert, obs: Obs)
    requires Shape(count, r.reverts) && StageOf(r) == Initialize && InitializePlan(r, obs).result.Some?
    ensures InitializePlan(r, obs).result.value.reverts ==
        Retain(r, r.reverts + [Details(Init, obs.replicas, obs.claims)])
    ensures InitializePlan(r, obs).ops == [ReadSts(obs.replicas), ListClaims(obs.claims)]
    ensures !Validates(r)
  {
    assert forall d <- r.reverts :: d.state != Fresh;
    assert r.reverts == [] || Last(r.reverts) in r.reverts;
    assert WithDetails(r.reverts) == r.reverts + [FRESH];
  }

  ghost predicate Closes(r: Revert, body: seq<Op>, fin: seq<Op>) {
    fin == [] || (|fin| == 1 && fin[0].UpdateRevert? && Stores(r, body + fin, fin[0].next))
  }

  /** A plan without waits for pods is in order if its last call is. */
  lemma FlatTame(r: Revert, body: seq<Op>, fin: seq<Op>)
    requires !Pausing(StageOf(r))
    requires forall op <- body :: !op.AwaitNoPods? && !op.UpdateRevert?
    requires Closes(r, body, fin)
    ensures forall i: nat | i < |body + fin| :: TameAt(r, body + fin, i)
  {
    var ops := body + fin;
    forall i: nat | i < |ops| ensures TameAt(r, ops, i) {
      if i < |body| {
        assert ops[i] in body;
      }
    }
  }

  lemma PauseTame(r: Revert, pre: seq<Op>, replicas: Option<nat>, fin: seq<Op>)
    requires Pausing(StageOf(r))
    requires forall op <- pre :: Aside(op)
    requires Closes(r, pre + PauseOps(replicas), fin)
    ensures forall i: nat | i < |pre + PauseOps(replicas) + fin| :: TameAt(r, pre + PauseOps(replicas) + fin, i)
  {
    var ops := pre + PauseOps(replicas) + fin;
    forall i: nat | i < |ops| ensures TameAt(r, ops, i) {
      if i < |pre| {
        assert ops[i] in pre;
      }
    }
  }

  function Prelude(r: Revert, obs: Obs): seq<Op> {
    if Validates(r) then ValidationPlan(r, obs.validation).0 else []
  }

  lemma AllOpsParts(r: Revert, obs: Obs)
    ensures || AllOps(r, obs) == Prelude(r, obs) + StagePlan(r, obs).ops + Closing(r, StagePlan(r, obs).result)
            || (Validates(r) && AllOps(r, obs) == Prelude(r, obs))
  {
    assert Validates(r) && !ValidationPlan(r, obs.validation).1 ==> AllOps(r, obs) == Prelude(r, obs) + [];
  }

  lemma PreludeAside(r: Revert, obs: Obs)
    ensures forall op <- Prelude(r, obs) :: Aside(op)
  {
    if Validates(r) {
      ValidationAside(r, obs.validation);
    }
  }

  lemma StageTame(count: nat, r: Revert, obs: Obs)
    requires Shape(count, r.reverts) && count > 0
    ensures var ops := Prelude(r, obs) + StagePlan(r, obs).ops + Closing(r, StagePlan(r, obs).result);
            forall i: nat | i < |ops| :: TameAt(r, ops, i)
  {
    var pre, plan := Prelude(r, obs), StagePlan(r, obs);
    var fin := Closing(r, plan.result);
    BodyTame(count, r, obs);
    PreludeAside(r, obs);
    if plan.result.Some? {
      ResultStores(count, r, obs);
      if StageOf(r) == Initialize {
        assert pre + plan.ops + fin == plan.ops + fin;
      }
    }
    assert Closes(r, pre + plan.ops, fin);
    if Pausing(StageOf(r)) {
      PauseTame(r, pre, obs.replicas, fin);
    } else {
      FlatTame(r, pre + plan.ops, fin);
    }
  }

  /** The plan of a processing contains nothing out of place. */
  lemma PlanTame(count: nat, r: Revert, obs: Obs)
    requires Shape(count, r.reverts) && count > 0
    ensures Tame(count, r, AllOps(r, obs))
  {
    AllOpsParts(r, obs);
    PreludeAside(r, obs);
    BodyTame(count, r, obs);
    StageTame(count, r, obs);
    var ops := AllOps(r, obs);
    forall op | op in ops ensures TameOp(count, r, op) {
      assert op in Prelude(r, obs) || op in StagePlan(r, obs).ops || op in Closing(r, StagePlan(r, obs).result);
    }
    if ops == Prelude(r, obs) {
      forall i: nat | i < |ops| ensures TameAt(r, ops, i) {
        assert ops[i] in ops;
      }
    }
  }

  lemma EventKeepsSound(count: nat, w: World, e: Event)
    requires Sound(count, w) && Possible(w.c, e)
    ensures Sound(count, w.(c := Change(w.c, e)))
  {
  }

  /** A call other than the final update. */
  lemma CallKeepsSound(count: nat, w: World)
    requires Sound(count, w) && w.worker.Busy? && w.worker.at < |w.worker.ops|
    requires var op := w.worker.ops[w.worker.at]; Accepts(w.c, op) && !op.UpdateRevert?
    ensures Sound(count, AfterCall(w))
  {
    var op := w.worker.ops[w.worker.at];
    assert TameOp(count, w.worker.r, op) && TameAt(w.worker.r, w.worker.ops, w.worker.at);
    var c' := Effect(w.c, op);
    assert c'.stored == w.c.stored;
    assert Learned(count, op);
    var r := w.worker.r;
    if Pausing(StageOf(r)) {
      assert Progress(c', op);
    }
  }

  lemma UpdateKeepsSound(count: nat, w: World)
    requires Sound(count, w) && w.worker.Busy? && w.worker.at < |w.worker.ops|
    requires var op := w.worker.ops[w.worker.at]; Accepts(w.c, op) && op.UpdateRevert?
    ensures Sound(count, AfterCall(w))
  {
    var Busy(r, ops, at) := w.worker;
    assert TameAt(r, ops, at);
    StoredShape(count, r, ops, ops[at].next);
  }

  lemma StepKeepsSound(count: nat, w: World, l: Label)
    requires Sound(count, w) && Step(w, l).Some?
    ensures Sound(count, Step(w, l).value)
  {
    match l
    case Outside(e) => EventKeepsSound(count, w, e);
    case Load =>
    case Drop =>
    case Begin(obs) => PlanTame(count, w.worker.r, obs);
    case Call =>
      if w.worker.ops[w.worker.at].UpdateRevert? {
        UpdateKeepsSound(count, w);
      } else {
        CallKeepsSound(count, w);
      }
  }

  lemma {:induction false} AlwaysSound(count: nat, w: World, labels: seq<Label>)
    requires Start(w, count) && Exec(w, labels).Some?
    ensures Sound(count, Exec(w, labels).value)
  {
    if labels != [] {
      var before := labels[..|labels| - 1];
      AlwaysSound(count, w, before);
      StepKeepsSound(count, Exec(w, before).value, labels[|labels| - 1]);
    }
  }

  /** In every run, with failures anywhere and the action edited at any time, a claim is deleted or created only
      while the stored record is paused, no replica is wanted and no pod of the application is left. */
  lemma ClaimsChangeOnlyWhileDown(count: nat, w: World, labels: seq<Label>)
    requires Start(w, count) && Exec(w, labels).Some?
    requires var m := Exec(w, labels).value; Step(m, Call).Some? && ChangesClaims(m.worker.ops[m.worker.at])
    ensures var c := Exec(w, labels).value.c; Down(c) && TopIs(c.stored.reverts, Paused)
  {
    AlwaysSound(count, w, labels);
    var m := Exec(w, labels).value;
    assert TameOp(count, m.worker.r, m.worker.ops[m.worker.at]);
  }

  /** In every run the wanted replicas are zero or the original count, and every request to scale up comes from a
      resuming stage and carries the count that is recorded in the record it resumes. */
  lemma ReplicasConserved(count: nat, w: World, labels: seq<Label>)
    requires Start(w, count) && Exec(w, labels).Some?
    ensures var c := Exec(w, labels).value.c;
      && (c.sts.replicas == Some(0) || c.sts.replicas == Some(count))
      && forall d <- c.stored.reverts :: d.replicas == Some(count)
    ensures var m := Exec(w, labels).value;
      Step(m, Call).Some? && m.worker.ops[m.worker.at].ScaleTo? && m.worker.ops[m.worker.at].count != 0 ==>
        && Resuming(StageOf(m.worker.r))
        && m.c.stored.reverts != []
        && Last(m.c.stored.reverts).replicas == Some(m.worker.ops[m.worker.at].count)
  {
    AlwaysSound(count, w, labels);
    var m := Exec(w, labels).value;
    if Step(m, Call).Some? {
      assert TameOp(count, m.worker.r, m.worker.ops[m.worker.at]);
    }
  }
}
