/** Where the code falls short of what one would like to claim, with the exact condition under which it does not. */
module RevertFlaws {
  import opened Wrappers
  import opened Types
  import opened RevertCluster
  import opened RevertPlan
  import opened RevertMachine
  import opened RevertDowntime
  import opened RevertSafety
  import opened RevertProgress
  import opened RevertReady
  import opened RevertSteps

  function Calls(n: nat): seq<Label> {
    seq(n, _ => Call)
  }

  lemma Started(w: World, obs: Obs)
    requires w.worker == Waiting
    ensures Exec(w, [Load] + [Begin(obs)]) == Some(World(w.c, Busy(w.c.stored, AllOps(w.c.stored, obs), 0), {}))
  {
    ExecOne(w, Load);
    ExecOne(w.(worker := Loaded(w.c.stored)), Begin(obs));
    ExecConcat(w, [Load], [Begin(obs)]);
  }

  function KeySet(claims: seq<Claim>): set<Key> {
    set claim | claim in claims :: claim.Key()
  }

  // ---- Switching from latest to undo at "paused" ----

  /** The world after an undo has deleted its first `n` claims. */
  function Deleted(w: World, r: Revert, ops: seq<Op>, n: nat): World
    requires r.reverts != [] && n <= |Last(r.reverts).oldClaims|
  {
    World(w.c.(claims := w.c.claims - KeySet(Last(r.reverts).oldClaims[..n])), Busy(r, ops, n), w.observed)
  }

  lemma {:induction false} UndoDeletes(w: World, r: Revert, ops: seq<Op>, n: nat)
    requires w.worker == Busy(r, ops, 0) && r.reverts != []
    requires var claims := Last(r.reverts).oldClaims;
      n <= |claims| <= |ops| && forall i | 0 <= i < |claims| :: ops[i] == DeletePVC(claims[i].Key())
    ensures Exec(w, Calls(n)) == Some(Deleted(w, r, ops, n))
  {
    var claims := Last(r.reverts).oldClaims;
    if n == 0 {
      assert w.c.claims - KeySet(claims[..0]) == w.c.claims;
    } else {
      UndoDeletes(w, r, ops, n - 1);
      assert Calls(n)[..n - 1] == Calls(n - 1);
      DeletedNext(w, r, ops, n);
    }
  }

  lemma DeletedNext(w: World, r: Revert, ops: seq<Op>, n: nat)
    requires r.reverts != [] && 0 < n <= |Last(r.reverts).oldClaims| && n <= |ops|
    requires ops[n - 1] == DeletePVC(Last(r.reverts).oldClaims[n - 1].Key())
    ensures Step(Deleted(w, r, ops, n - 1), Call) == Some(Deleted(w, r, ops, n))
  {
    var claims := Last(r.reverts).oldClaims;
    assert claims[..n] == claims[..n - 1] + [claims[n - 1]];
    assert KeySet(claims[..n]) == KeySet(claims[..n - 1]) + {claims[n - 1].Key()};
    assert w.c.claims - KeySet(claims[..n - 1]) - {claims[n - 1].Key()} == w.c.claims - KeySet(claims[..n]);
  }

  lemma UndoPlanDeletes(r: Revert)
    requires StageOf(r) == Restore
    ensures var claims, ops := Last(r.reverts).oldClaims, AllOps(r, NO_ANSWERS);
      |claims| <= |ops| && forall i | 0 <= i < |claims| :: ops[i] == DeletePVC(claims[i].Key())
  {
    assert !Validates(r);
  }

  /** An undo of a paused record can lose the volume of an old claim that is still bound with policy Delete. */
  lemma UndoCanLose(w: World, i: nat) returns (labels: seq<Label>)
    requires w.worker == Waiting && StageOf(w.c.stored) == Restore
    requires i < |Last(w.c.stored.reverts).oldClaims|
    requires var claim := Last(w.c.stored.reverts).oldClaims[i];
      claim.bound && Pinned(w.c, claim) && !Retained(w.c, claim.spec.volumeName)
    ensures Exec(w, labels).Some?
    ensures Last(w.c.stored.reverts).oldClaims[i].spec.volumeName !in Exec(w, labels).value.c.volumes
  {
    var r := w.c.stored;
    var ops := AllOps(r, NO_ANSWERS);
    var started := World(w.c, Busy(r, ops, 0), {});
    Started(w, NO_ANSWERS);
    UndoPlanDeletes(r);
    UndoDeletes(started, r, ops, i + 1);
    var gone, reclaim := Deleted(started, r, ops, i + 1),
        Outside(Reclaim(Last(r.reverts).oldClaims[i].spec.volumeName));
    ReclaimAfterDelete(started, r, ops, i);
    ExecOne(gone, reclaim);
    ExecConcat(started, Calls(i + 1), [reclaim]);
    ExecConcat(w, [Load] + [Begin(NO_ANSWERS)], Calls(i + 1) + [reclaim]);
    labels := [Load] + [Begin(NO_ANSWERS)] + (Calls(i + 1) + [reclaim]);
  }

  lemma ReclaimAfterDelete(w: World, r: Revert, ops: seq<Op>, i: nat)
    requires r.reverts != [] && i < |Last(r.reverts).oldClaims|
    requires var claim := Last(r.reverts).oldClaims[i];
      claim.bound && Pinned(w.c, claim) && !Retained(w.c, claim.spec.volumeName)
    ensures var gone, v := Deleted(w, r, ops, i + 1), Last(r.reverts).oldClaims[i].spec.volumeName;
      Possible(gone.c, Reclaim(v)) && v !in Change(gone.c, Reclaim(v)).volumes
  {
    var claims := Last(r.reverts).oldClaims;
    assert claims[..i + 1][i] == claims[i];
    assert claims[i].Key() in KeySet(claims[..i + 1]);
  }

  /** Policy Retain is never taken back. */
  ghost predicate KeepsPolicy(w: World) {
    w.worker.Busy? ==> forall op <- w.worker.ops :: op.UpdatePV? && op.read.retain ==> op.write.retain
  }

  lemma CarefulKeepsPolicy(r: Revert, ops: seq<Op>)
    requires Careful(r, ops)
    ensures forall op <- ops :: op.UpdatePV? && op.read.retain ==> op.write.retain
  {
    if StageOf(r) == Replace {
      forall j: nat | j < |ops| && ops[j].UpdatePV? ensures ops[j].read.retain ==> ops[j].write.retain {
        assert CarefulAt(Last(r.reverts).oldClaims, ops, j);
      }
    }
  }

  lemma StepKeepsPolicy(count: nat, w: World, l: Label, volume: string)
    requires Sound(count, w) && KeepsPolicy(w) && Retained(w.c, volume) && Step(w, l).Some?
    ensures KeepsPolicy(Step(w, l).value) && Retained(Step(w, l).value.c, volume)
  {
    match l
    case Begin(obs) =>
      PlanCareful(count, w.worker.r, obs);
      CarefulKeepsPolicy(w.worker.r, AllOps(w.worker.r, obs));
    case Call => assert w.worker.ops[w.worker.at] in w.worker.ops;
    case _ =>
  }

  lemma {:induction false} RetainedForever(count: nat, w: World, labels: seq<Label>, volume: string)
    requires Sound(count, w) && w.worker == Waiting && Retained(w.c, volume) && Exec(w, labels).Some?
    ensures var m := Exec(w, labels).value; Sound(count, m) && KeepsPolicy(m) && Retained(m.c, volume)
  {
    if labels != [] {
      var before, l := labels[..|labels| - 1], labels[|labels| - 1];
      RetainedForever(count, w, before, volume);
      var m := Exec(w, before).value;
      StepKeepsSound(count, m, l);
      StepKeepsPolicy(count, m, l, volume);
    }
  }

  /** Exactly when an undo of a paused record is safe: every continuation keeps the volumes of its bound old claims
      iff all these volumes have policy Retain when it starts. A record that `latest` has paused need not meet this,
      so asking for `undo` before the claims are replaced can lose the original data. */
  lemma UndoOfPausedIsSafeIff(count: nat, w: World)
    requires Sound(count, w) && w.worker == Waiting && StageOf(w.c.stored) == Restore
    requires forall claim <- Last(w.c.stored.reverts).oldClaims :: Protected(w.c, claim)
    ensures (forall labels: seq<Label>, claim: Claim ::
               claim in Last(w.c.stored.reverts).oldClaims && claim.bound && Exec(w, labels).Some? ==>
                 claim.spec.volumeName in Exec(w, labels).value.c.volumes)
       <==> (forall claim <- Last(w.c.stored.reverts).oldClaims :: claim.bound ==> Retained(w.c, claim.spec.volumeName))
  {
    var claims := Last(w.c.stored.reverts).oldClaims;
    if forall claim <- claims :: claim.bound ==> Retained(w.c, claim.spec.volumeName) {
      forall labels: seq<Label>, claim: Claim | claim in claims && claim.bound && Exec(w, labels).Some?
        ensures claim.spec.volumeName in Exec(w, labels).value.c.volumes
      {
        RetainedForever(count, w, labels, claim.spec.volumeName);
      }
    } else {
      var i :| 0 <= i < |claims| && claims[i].bound && !Retained(w.c, claims[i].spec.volumeName);
      assert Protected(w.c, claims[i]);
      var labels := UndoCanLose(w, i);
    }
  }

  const CLAIM := Claim("ns", "data-app-0", map[], map[], ClaimSpec(None, [], "10Gi", "pv-0"), true, 0)

  /** One claim on a volume with policy Delete, and a `latest` request that has paused the application. */
  const PAUSED := World(
    Cluster(map[NamespacedName("ns", "data-app-0") := CLAIM],
            map["pv-0" := Volume(false, Some(ClaimRef(NamespacedName("ns", "data-app-0"), 0)))],
            StatefulSet(Some(0), map[]), 0, 0, [], map[],
            Revert("ns", Some(StatefulSetType("app", "data", None)), None, 0, Action(Latest, None, None),
                   [Details(Paused, Some(1), [CLAIM])]),
            1),
    Waiting, {})

  /** A concrete loss: everything is in order, the user turns the pending `latest` into `undo`, and the volume goes. */
  lemma SwitchingToUndoLosesData() returns (labels: seq<Label>)
    ensures Sound(1, PAUSED) && Safe(PAUSED) && "pv-0" in PAUSED.c.volumes
    ensures Exec(PAUSED, labels).Some? && "pv-0" !in Exec(PAUSED, labels).value.c.volumes
  {
    var edit := Outside(EditAction(Action(Undo, None, None), 0));
    ExecOne(PAUSED, edit);
    var w := Step(PAUSED, edit).value;
    assert Last(w.c.stored.reverts).oldClaims[0] == CLAIM;
    var rest := UndoCanLose(w, 0);
    ExecConcat(PAUSED, [edit], rest);
    labels := [edit] + rest;
  }

  // ---- Finishing without the application ----

  /** The next call is a wait for pods, and the server takes it. */
  ghost predicate TakesWait(m: World) {
    m.worker.Busy? && m.worker.at < |m.worker.ops| && m.worker.ops[m.worker.at].AwaitPods?
      && Accepts(m.c, m.worker.ops[m.worker.at])
  }

  predicate AllRunning(c: Cluster, count: nat) { c.pods == count && c.running == count }

  /** A resuming step that found all replicas wanted, or the request has ended. */
  ghost predicate WantedBefore(count: nat, w: World) {
    && UpToDate(w) && Sound(count, w) && w.c.sts.replicas == Some(count)
    && (Resuming(StageOf(w.c.stored)) || Rank(w.c.stored) == 0)
    && (w.worker.Busy? && w.worker.at > 0 && w.worker.ops[0].ReadSts? ==> w.worker.ops[0].replicas == Some(count))
  }

  lemma ResumePlanStarts(r: Revert, obs: Obs)
    requires Resuming(StageOf(r))
    ensures AllOps(r, obs) != [] && AllOps(r, obs)[0] == ReadSts(obs.replicas)
    ensures forall op <- AllOps(r, obs) ::
              op.AwaitPods? ==> op.count == if obs.replicas.Some? then obs.replicas.value else 1
  {
    assert !Validates(r);
  }

  lemma RestPlanWaits(r: Revert, obs: Obs)
    requires Rank(r) == 0
    ensures forall op <- AllOps(r, obs) :: !op.AwaitPods? && !op.ScaleTo?
  {
    AllOpsParts(r, obs);
    PreludeWaits(r, obs);
    assert StagePlan(r, obs).ops == [];
  }

  lemma PreludeWaits(r: Revert, obs: Obs)
    ensures forall op <- Prelude(r, obs) :: !op.AwaitPods? && !op.ScaleTo?
  {
  }

  lemma WaitIsForAll(count: nat, m: World)
    requires WantedBefore(count, m) && TakesWait(m)
    ensures AllRunning(m.c, count)
  {
    var r, ops, at := m.worker.r, m.worker.ops, m.worker.at;
    var obs :| ops == AllOps(r, obs);
    WaitOfPlan(r, obs, at);
    assert ops[0] == ReadSts(Some(count));
  }

  lemma WaitOfPlan(r: Revert, obs: Obs, at: nat)
    requires Rank(r) == 0 || Resuming(StageOf(r))
    requires at < |AllOps(r, obs)| && AllOps(r, obs)[at].AwaitPods?
    ensures at > 0 && AllOps(r, obs)[0].ReadSts?
    ensures var read := AllOps(r, obs)[0].replicas; AllOps(r, obs)[at].count == if read.Some? then read.value else 1
  {
    assert AllOps(r, obs)[at] in AllOps(r, obs);
    if Rank(r) == 0 {
      RestPlanWaits(r, obs);
    } else {
      ResumePlanStarts(r, obs);
    }
  }

  lemma QuietCallKeepsWanted(count: nat, w: World)
    requires WantedBefore(count, w) && w.worker.Busy? && w.worker.at < |w.worker.ops|
    requires var op := w.worker.ops[w.worker.at]; Accepts(w.c, op) && !op.UpdateRevert?
    ensures AfterCall(w).c.sts.replicas == Some(count)
  {
    var op := w.worker.ops[w.worker.at];
    assert op in w.worker.ops && TameOp(count, w.worker.r, op);
    if Rank(w.worker.r) == 0 {
      var obs :| w.worker.ops == AllOps(w.worker.r, obs);
      RestPlanWaits(w.worker.r, obs);
    }
  }

  /** Everyone who could ask for another count is gone. */
  lemma StepKeepsCount(count: nat, w: World, l: Label)
    requires WantedBefore(count, w) && Step(w, l).Some? && (l.Outside? ==> !l.e.EditAction?)
    ensures var m := Step(w, l).value;
      && m.c.sts.replicas == Some(count)
      && (m.worker.Busy? && m.worker.at > 0 && m.worker.ops[0].ReadSts? ==> m.worker.ops[0].replicas == Some(count))
  {
    if l == Call && !w.worker.ops[w.worker.at].UpdateRevert? {
      QuietCallKeepsWanted(count, w);
    }
  }

  lemma WantedStays(count: nat, w: World, l: Label)
    requires WantedBefore(count, w) && Step(w, l).Some? && (l.Outside? ==> !l.e.EditAction?)
    ensures WantedBefore(count, Step(w, l).value)
  {
    StepKeepsSound(count, w, l);
    StepSpendsRank(count, w, l);
    StepKeepsCount(count, w, l);
    RankOfResuming(w.c.stored);
    RankOfResuming(Step(w, l).value.c.stored);
  }

  lemma RankOfResuming(r: Revert)
    ensures Resuming(StageOf(r)) <==> Rank(r) == 1
  {
  }

  lemma {:induction false} AlwaysWanted(count: nat, w: World, labels: seq<Label>)
    requires WantedBefore(count, w) && NoEdits(labels) && Exec(w, labels).Some?
    ensures WantedBefore(count, Exec(w, labels).value)
  {
    if labels != [] {
      var before, l := labels[..|labels| - 1], labels[|labels| - 1];
      assert l in labels;
      AlwaysWanted(count, w, before);
      WantedStays(count, Exec(w, before).value, l);
    }
  }

  /** A run in which the wait is over although no pod is left. */
  lemma WaitsForNobody(count: nat, w: World) returns (m: World)
    requires Sound(count, w) && w.worker == Waiting && Resuming(StageOf(w.c.stored)) && w.c.sts.replicas == Some(0)
    ensures Reaches(w, m) && TakesWait(m) && m.c.pods == 0
  {
    ResumingFacts(count, w);
    var obs := NO_ANSWERS.(replicas := w.c.sts.replicas, scaled := true);
    var scaled := ScalesUp(count, w, obs);
    m := PodsGone(scaled);
    ReachesJoin(w, scaled, m);
    WaitIsOver(m, w.c.stored, obs);
  }

  lemma WaitIsOver(m: World, r: Revert, obs: Obs)
    requires Resuming(StageOf(r)) && LastOf(r).replicas.Some? && obs.scaled && obs.replicas == Some(0)
    requires m.worker == Busy(r, AllOps(r, obs), 2) && m.c.pods == m.c.running == 0
    ensures TakesWait(m)
  {
    ResumingOps(r, obs);
    var scale, done := ScaleTo(LastOf(r).replicas.value), UpdateRevert(r, PlanFor(r, obs).result.value);
    ThirdOfFour(AllOps(r, obs), ReadSts(obs.replicas), scale, AwaitPods(0), done);
  }

  lemma ThirdOfFour(ops: seq<Op>, a: Op, b: Op, c: Op, d: Op)
    requires ops == [a] + [b] + [c] + [d]
    ensures |ops| == 4 && ops[2] == c
  {
  }

  /** Exactly when "finished" means that the application is up. A resuming step waits for pods; in every run without
      edits, all pods of the application are there and running when such a wait is over, if and only if all of them were
      already wanted when the step began. The scale-up the step itself asks for does not count. */
  lemma ResumeWaitsForAllIff(count: nat, w: World)
    requires Sound(count, w) && w.worker == Waiting && Resuming(StageOf(w.c.stored))
    ensures (forall labels: seq<Label> ::
               NoEdits(labels) && Exec(w, labels).Some? && TakesWait(Exec(w, labels).value) ==>
               AllRunning(Exec(w, labels).value.c, count))
       <==> w.c.sts.replicas == Some(count)
  {
    if w.c.sts.replicas == Some(count) {
      forall labels: seq<Label> | NoEdits(labels) && Exec(w, labels).Some? && TakesWait(Exec(w, labels).value)
        ensures AllRunning(Exec(w, labels).value.c, count)
      {
        AlwaysWanted(count, w, labels);
        WaitIsForAll(count, Exec(w, labels).value);
      }
    } else {
      var m := WaitsForNobody(count, w);
      var labels :| Calm(w, labels) && Exec(w, labels) == Some(m);
      CalmHasNoEdits(w, labels);
    }
  }

  lemma UnscaledOps(r: Revert, obs: Obs)
    requires Resuming(StageOf(r)) && LastOf(r).replicas.Some? && obs.replicas == Some(0) && !obs.scaled
    ensures PlanFor(r, obs).result.Some?
    ensures AllOps(r, obs) == [ReadSts(Some(0))] + [AwaitPods(0)] + [UpdateRevert(r, PlanFor(r, obs).result.value)]
  {
    assert !Validates(r);
  }

  /** "finished" does not imply that the application is up: from every resuming step of a revert or an undo with the
      application down there is a run that ends the request with the application down. The error of the scale-up request
      is dropped, and the wait is satisfied by the zero pods that were wanted before it. */
  lemma FinishesWhileDown(count: nat, w: World) returns (done: World)
    requires Sound(count, w) && w.worker == Waiting && Resuming(StageOf(w.c.stored)) && Down(w.c)
    ensures Reaches(w, done) && Down(done.c) && done.c.stored.action.kind == Idle
    ensures if StageOf(w.c.stored) == Resume then TopIs(done.c.stored.reverts, Finished)
            else done.c.stored.reverts == w.c.stored.reverts[..|w.c.stored.reverts| - 1]
  {
    var r, obs := w.c.stored, NO_ANSWERS.(replicas := Some(0));
    ResumingFacts(count, w);
    UnscaledOps(r, obs);
    var m := Beginning(w, obs);
    IssueOne(w.c, ReadSts(Some(0)));
    IssueOne(w.c, AwaitPods(0));
    IssueConcat(w.c, [ReadSts(Some(0))], [AwaitPods(0)]);
    var waited := Issuing(m, [ReadSts(Some(0))] + [AwaitPods(0)]);
    ReachesJoin(w, m, waited);
    done := Storing(w, waited, obs);
    ResumeResult(r, obs);
  }

  lemma ResumeResult(r: Revert, obs: Obs)
    requires Resuming(StageOf(r)) && LastOf(r).replicas.Some?
    ensures PlanFor(r, obs).result.Some?
    ensures var next := PlanFor(r, obs).result.value;
      && next.action.kind == Idle && r.reverts != []
      && if StageOf(r) == Resume then TopIs(next.reverts, Finished) else next.reverts == r.reverts[..|r.reverts| - 1]
  {
    assert !Validates(r);
    if StageOf(r) == Resume {
      TrimmedLast(SetState(r.reverts, Finished), r.keepStatus);
    }
  }

  /** A request is stuck, failing whatever the cluster answers and without issuing a call, iff the last record is in a
      state the other kind of request has left behind. */
  lemma StuckIff(r: Revert)
    requires forall d <- r.reverts :: d.state != Fresh
    ensures StageOf(r) == Stuck <==>
      (r.stsType.Some? &&
       ((r.action.kind == Latest && TopIs(r.reverts, Undone)) ||
        (r.action.kind == Undo && (TopIs(r.reverts, Init) || TopIs(r.reverts, Reverted)))))
    ensures StageOf(r) == Stuck ==> forall obs :: StagePlan(r, obs) == Plan([], None)
  {
    if r.reverts != [] {
      assert Last(r.reverts) in r.reverts;
    }
  }

  /** A stuck request issues no call. */
  lemma StuckPlan(r: Revert, obs: Obs)
    requires StageOf(r) == Stuck
    ensures AllOps(r, obs) == []
  {
    assert !Validates(r);
  }

  /** A stuck request stays stuck until somebody edits it. */
  lemma {:induction false} StuckForever(w: World, labels: seq<Label>)
    requires StageOf(w.c.stored) == Stuck && w.worker == Waiting && NoEdits(labels) && Exec(w, labels).Some?
    ensures var m := Exec(w, labels).value; m.c.stored == w.c.stored && UpToDate(m)
  {
    if labels != [] {
      var before, l := labels[..|labels| - 1], labels[|labels| - 1];
      assert l in labels;
      StuckForever(w, before);
      var mid := Exec(w, before).value;
      if l == Call {
        var obs :| mid.worker.ops == AllOps(w.c.stored, obs);
        StuckPlan(w.c.stored, obs);
      }
    }
  }

  /** And a request gets there by one change of mind: from any state in which a `latest` request can be recorded, the
      user turns it into an `undo` as soon as it has been recorded, and it is never carried out. */
  lemma EditingGetsStuck(count: nat, w: World) returns (recorded: World, m: World)
    requires Sound(count, w) && w.worker == Waiting && StageOf(w.c.stored) == Initialize && Ready(w.c, w.c.stored)
    ensures Reaches(w, recorded)
    ensures var edit := Outside(EditAction(w.c.stored.action.(kind := Undo), w.c.stored.keepStatus));
      Step(recorded, edit) == Some(m) && StageOf(m.c.stored) == Stuck
    ensures forall rest: seq<Label> :: NoEdits(rest) && Exec(m, rest).Some? ==>
        Exec(m, rest).value.c.stored == m.c.stored
  {
    var about, obs := RecordIsReached(count, w);
    recorded := Storing(w, about, obs);
    RecordedState(w.c.stored, obs);
    m := TurnsIntoUndo(recorded, EditAction(w.c.stored.action.(kind := Undo), w.c.stored.keepStatus));
  }

  lemma TurnsIntoUndo(recorded: World, edit: Event) returns (m: World)
    requires recorded.worker == Waiting && edit.EditAction? && edit.action.kind == Undo
    requires recorded.c.stored.stsType.Some? && TopIs(recorded.c.stored.reverts, Init)
    ensures Step(recorded, Outside(edit)) == Some(m) && StageOf(m.c.stored) == Stuck
    ensures forall rest: seq<Label> :: NoEdits(rest) && Exec(m, rest).Some? ==>
        Exec(m, rest).value.c.stored == m.c.stored
  {
    m := recorded.(c := Change(recorded.c, edit));
    NeverUnstuck(m);
  }

  lemma NeverUnstuck(m: World)
    requires StageOf(m.c.stored) == Stuck && m.worker == Waiting
    ensures forall rest: seq<Label> :: NoEdits(rest) && Exec(m, rest).Some? ==>
        Exec(m, rest).value.c.stored == m.c.stored
  {
    forall rest: seq<Label> | NoEdits(rest) && Exec(m, rest).Some?
      ensures Exec(m, rest).value.c.stored == m.c.stored
    {
      StuckForever(m, rest);
    }
  }

  lemma RecordedState(r: Revert, obs: Obs)
    requires StageOf(r) == Initialize && PlanFor(r, obs).result.Some?
    ensures var next := PlanFor(r, obs).result.value;
      next.reverts != [] && Last(next.reverts).state == Init && next.stsType == r.stsType
  {
    assert !Validates(r);
    var all := WithDetails(r.reverts);
    TrimmedLast(all[|all| - 1 := Details(Init, obs.replicas, obs.claims)], r.keepStatus);
  }

  /** A user who edits the action only while no request is pending never gets stuck. */
  lemma PoliteNeverStuck(count: nat, w: World, labels: seq<Label>)
    requires Start(w, count) && BoundClaimsHaveVolumes(w.c) && Polite(w, labels) && Exec(w, labels).Some?
    ensures StageOf(Exec(w, labels).value.c.stored) != Stuck
  {
    AlwaysSafe(count, w, labels);
    AlwaysSound(count, w, labels);
    StuckIff(Exec(w, labels).value.c.stored);
  }
}
