/** The revert controller in the form of pkg/manager/reverts.go: methods that work through the API on a copy of the
    stored object. Each is proved to issue the calls its plan names, in that order, up to the call that fails. */
module Reverts {
  import opened Wrappers
  import opened Types
  import opened RevertCluster
  import opened RevertPlan
  import opened KubeCalls
  import opened Following
  import Selection

  /** The working copy of a SnapshotRevert, with the version it was copied from. */
  class SnapshotRevert {
    const read: Revert
    var action: Action
    var reverts: seq<Details>

    function Value(): Revert
      reads this
    {
      read.(action := action, reverts := reverts)
    }

    constructor (r: Revert)
      ensures read == r && Value() == r
    {
      read, action, reverts := r, r.action, r.reverts;
    }

    method SetState(state: State)
      requires reverts != []
      modifies this`reverts
      ensures reverts == RevertPlan.SetState(old(reverts), state)
    {
      reverts := reverts[|reverts| - 1 := reverts[|reverts| - 1].(state := state)];
    }

    /** The retention of ProcessSnapshotRevert. */
    method Trim()
      modifies this`reverts
      ensures reverts == Trimmed(old(reverts), read.keepStatus)
    {
      var rl := |reverts|;
      if read.keepStatus != 0 && rl > read.keepStatus {
        reverts := reverts[rl - read.keepStatus..];
      }
    }

    method InitDetails()
      modifies this`reverts
      ensures reverts == WithDetails(old(reverts))
    {
      if |reverts| == 0 {
        reverts := reverts + [FRESH];
      }
      if reverts[|reverts| - 1].state == Finished {
        reverts := reverts + [FRESH];
      }
    }
  }

  // ---- When the controller gives up ----

  /** The last record is in a state that the request does not continue. */
  predicate Unknown(r: Revert) {
    && r.stsType.Some? && r.reverts != []
    && var state := r.reverts[|r.reverts| - 1].state;
    (r.action.kind == Latest && state == Undone) || (r.action.kind == Undo && state in {Fresh, State.Init, Reverted})
  }

  /** A claim without a snapshot in the window, or a listing that reports an error and is shorter than the claims. */
  ghost predicate LacksSnapshots(claims: seq<Claim>, list: seq<Snapshot>, failed: bool, from: Option<int>,
      to: Option<int>) {
    || (failed && |list| < |claims|)
    || exists claim <- claims :: forall s <- list ::
         s.claim == claim.name ==> (from.Some? && s.time < from.value) || (to.Some? && to.value < s.time)
  }

  predicate LastIn(r: Revert, state: State) {
    r.reverts != [] && r.reverts[|r.reverts| - 1].state == state
  }

  /** The answer to this call is one on which the controller gives up: no replica is wanted when a record is to be made,
      a record without a count is to be resumed, or snapshots are missing for a record to validate or to replace. */
  ghost predicate GivesUpOn(r: Revert, op: Op) {
    match op
    case ReadSts(replicas) =>
      && r.stsType.Some?
      && (|| (r.action.kind == Latest && (r.reverts == [] || LastIn(r, Fresh) || LastIn(r, Finished))
              && (replicas.None? || replicas.value == 0))
          || (((r.action.kind == Latest && LastIn(r, Reverted)) || (r.action.kind == Undo && LastIn(r, Undone)))
              && r.reverts[|r.reverts| - 1].replicas.None?))
    case ListSnapshots(list, failed) =>
      && r.action.kind == Latest && r.reverts != []
      && (|| (r.stsType.Some? && LastIn(r, Paused))
          || (LastIn(r, State.Init) && r.validation.Some? && r.validation.value != ""))
      && LacksSnapshots(r.reverts[|r.reverts| - 1].oldClaims, list, failed, r.action.fromTime, r.action.toTime)
    case _ => false
  }

  class Reverts {
    const kube: KubeCalls

    constructor (kube: KubeCalls)
      ensures this.kube == kube
    {
      this.kube := kube;
    }

    /** An error has its reason: a call has failed, or the controller itself gives up on the object or on what it was
        answered last. */
    twostate predicate Excused(r: Revert)
      reads kube
    {
      || kube.Hindered()
      || Unknown(r)
      || (|old(kube.calls)| < |kube.calls| && GivesUpOn(r, kube.calls[|kube.calls| - 1]))
    }

    method Init(copy: SnapshotRevert) returns (err: MaybeError, ghost obs: Obs)
      requires kube.Valid() && copy.reverts != []
      modifies kube, copy`reverts
      ensures kube.Did(InitializePlan(copy.read, obs).ops, err.None?)
      ensures err.None? ==>
        && obs.replicas.Some? && obs.replicas.value != 0
        && copy.reverts == old(copy.reverts)[|old(copy.reverts)| - 1 := Details(State.Init, obs.replicas, obs.claims)]
      ensures err.Some? ==>
        kube.Hindered() || (kube.Ended(ReadSts(obs.replicas)) && (obs.replicas.None? || obs.replicas.value == 0))
    {
      obs := NO_ANSWERS;
      ghost var before := kube.calls;
      var sts;
      sts, err := kube.GetSts();
      obs := obs.(replicas := sts.replicas);
      if err.Some? {
        FollowedCut(before, kube.calls, [ReadSts(obs.replicas)], InitializePlan(copy.read, obs).ops[1..]);
        return;
      }
      if sts.replicas.None? || sts.replicas.value == 0 {
        return Some(Failed), obs;
      }
      ghost var between := kube.calls;
      var pvcs;
      pvcs, err := kube.ListPVCs(sts.selector);
      obs := obs.(claims := pvcs);
      FollowedBoth(before, between, kube.calls, [ReadSts(obs.replicas)], [ListClaims(pvcs)], err.None?);
      if err.Some? {
        return;
      }
      var last := |copy.reverts| - 1;
      copy.reverts := copy.reverts[last := copy.reverts[last].(replicas := sts.replicas, oldClaims := pvcs)];
      copy.SetState(State.Init);
    }

    method Pause(copy: SnapshotRevert) returns (err: MaybeError, ghost obs: Obs)
      requires kube.Valid() && copy.reverts != []
      modifies kube, copy`reverts
      ensures kube.Did(PauseOps(obs.replicas), err.None?)
      ensures err.None? ==> copy.reverts == RevertPlan.SetState(old(copy.reverts), Paused)
      ensures obs.replicas.None? || obs.replicas.value == 0 ==> kube.requests == old(kube.requests)
      ensures err.Some? ==> kube.Hindered()
    {
      obs := NO_ANSWERS;
      ghost var before := kube.calls;
      var sts;
      sts, err := kube.GetSts();
      obs := obs.(replicas := sts.replicas);
      ghost var scale := if sts.replicas.Some? && sts.replicas.value != 0 then [ScaleTo(0)] else [];
      if err.Some? {
        FollowedCut(before, kube.calls, [ReadSts(obs.replicas)], scale + [AwaitNoPods]);
        assert PauseOps(obs.replicas) == [ReadSts(obs.replicas)] + (scale + [AwaitNoPods]);
        return;
      }
      ghost var between := kube.calls;
      if sts.replicas.Some? && sts.replicas.value != 0 {
        err := kube.SetStsReplica(0);
      }
      FollowedBoth(before, between, kube.calls, [ReadSts(obs.replicas)], scale, err.None?);
      if err.Some? {
        FollowedCut(before, kube.calls, [ReadSts(obs.replicas)] + scale, [AwaitNoPods]);
        return;
      }
      between := kube.calls;
      err := kube.WaitPodsDeleted();
      FollowedBoth(before, between, kube.calls, [ReadSts(obs.replicas)] + scale, [AwaitNoPods], err.None?);
      if err.None? {
        copy.SetState(Paused);
      }
    }

    method FixReclaimPolicy(name: string, pv: Volume) returns (err: MaybeError)
      requires kube.Valid()
      modifies kube
      ensures kube.Did(if pv.retain then [] else [UpdatePV(name, pv, pv.(retain := true))], err.None?)
      ensures err.Some? ==> kube.Hindered()
    {
      err := None;
      if !pv.retain {
        err := kube.UpdatePV(name, pv, pv.(retain := true));
      }
    }

    method AvailablePV(name: string, pv: Volume) returns (err: MaybeError)
      requires kube.Valid()
      modifies kube
      ensures kube.Did([UpdatePV(name, pv, pv.(claimRef := None))], err.None?)
      ensures err.Some? ==> kube.Hindered()
    {
      err := kube.UpdatePV(name, pv, pv.(claimRef := None));
    }

    /** Before the claim is deleted: its volume is to survive that. */
    method KeepVolume(pvc: Claim) returns (err: MaybeError, ghost seen: Volume)
      requires kube.Valid()
      modifies kube
      ensures kube.Did(KeepOps(pvc, seen), err.None?)
      ensures err.Some? ==> kube.Hindered()
    {
      ghost var before := kube.calls;
      var pv;
      pv, err := kube.GetPV(pvc.spec.volumeName);
      seen := pv;
      ghost var get, fix := [GetPV(pvc.spec.volumeName, pv)], KeepOps(pvc, pv)[1..];
      if err.Some? {
        FollowedCut(before, kube.calls, get, fix);
        assert KeepOps(pvc, seen) == get + fix;
        return;
      }
      ghost var between := kube.calls;
      err := FixReclaimPolicy(pvc.spec.volumeName, pv);
      FollowedBoth(before, between, kube.calls, get, fix, err.None?);
    }

    /** After the claim is deleted: its volume is to be available for another. */
    method FreeVolume(pvc: Claim) returns (err: MaybeError, ghost seen: Volume)
      requires kube.Valid()
      modifies kube
      ensures kube.Did(FreeOps(pvc, seen), err.None?)
      ensures err.Some? ==> kube.Hindered()
    {
      ghost var before := kube.calls;
      var pv;
      pv, err := kube.GetPV(pvc.spec.volumeName);
      seen := pv;
      ghost var get, free := [GetPV(pvc.spec.volumeName, pv)], FreeOps(pvc, pv)[1..];
      if err.Some? {
        FollowedCut(before, kube.calls, get, free);
        assert FreeOps(pvc, seen) == get + free;
        return;
      }
      ghost var between := kube.calls;
      err := AvailablePV(pvc.spec.volumeName, pv);
      FollowedBoth(before, between, kube.calls, get, free, err.None?);
    }

    /** One round of the first loop of RevertSnapshots. */
    method RetireClaim(pvc: Claim) returns (err: MaybeError, ghost seen: (Volume, Volume))
      requires kube.Valid()
      modifies kube
      ensures kube.Did(RetireOps(pvc, seen), err.None?)
      ensures err.Some? ==> kube.Hindered()
    {
      ghost var before := kube.calls;
      ghost var first, second := Volume(false, None), Volume(false, None);
      err, first := KeepVolume(pvc);
      ghost var between := kube.calls;
      if err.None? {
        err := kube.DeletePVC(pvc);
        FollowedBoth(before, between, kube.calls, KeepOps(pvc, first), [DeletePVC(pvc.Key())], err.None?);
      } else {
        FollowedCut(before, kube.calls, KeepOps(pvc, first), [DeletePVC(pvc.Key())]);
      }
      ghost var done := KeepOps(pvc, first) + [DeletePVC(pvc.Key())];
      if err.None? {
        between := kube.calls;
        err, second := FreeVolume(pvc);
        FollowedBoth(before, between, kube.calls, done, FreeOps(pvc, second), err.None?);
      } else {
        FollowedCut(before, kube.calls, done, FreeOps(pvc, second));
      }
      seen := (first, second);
      RetireParts(pvc, seen);
    }

    /** The first loop of RevertSnapshots. */
    method RetireClaims(pvcs: seq<Claim>) returns (err: MaybeError, ghost volumes: seq<(Volume, Volume)>)
      requires kube.Valid()
      modifies kube
      ensures kube.Did(RetireAll(pvcs, volumes), err.None?)
      ensures err.Some? ==> kube.Hindered()
    {
      err, volumes := None, [];
      ghost var before := kube.calls;
      for i := 0 to |pvcs|
        invariant |volumes| == i && err.None?
        invariant kube.Did(RetireAll(pvcs[..i], volumes), true)
      {
        ghost var between, seen := kube.calls, (Volume(false, None), Volume(false, None));
        err, seen := RetireClaim(pvcs[i]);
        RetireNext(pvcs, volumes, i, seen);
        FollowedBoth(before, between, kube.calls, RetireAll(pvcs[..i], volumes), RetireOps(pvcs[i], seen), err.None?);
        volumes := volumes + [seen];
        if err.Some? {
          RetireCut(pvcs, volumes, i + 1, before, kube.calls);
          return;
        }
      }
      assert pvcs[..|pvcs|] == pvcs;
    }

    method GetSnapshots(pvcs: seq<Claim>, from: Option<int>, to: Option<int>)
      returns (m: Option<map<string, Snapshot>>, ghost snaps: seq<Snapshot>, ghost failed: bool)
      requires kube.Valid()
      modifies kube
      ensures kube.Did([ListSnapshots(snaps, failed)], true)
      ensures m == Selection.Select(pvcs, snaps, failed, from, to)
      ensures kube.Ended(ListSnapshots(snaps, failed))
      ensures m.None? <==> LacksSnapshots(pvcs, snaps, failed, from, to)
    {
      var list, bad := kube.ListSnapshots();
      snaps, failed := list, bad;
      m := Selection.GetSnapshots(pvcs, list, bad, from, to);
    }

    /** The second loop of RevertSnapshots. */
    method CreateClaims(stsType: Option<StatefulSetType>, pvcs: seq<Claim>, chosen: map<string, Snapshot>)
        returns (err: MaybeError)
      requires kube.Valid()
      modifies kube
      ensures kube.Did(CreateAll(stsType, pvcs, chosen), err.None?)
      ensures err.Some? ==> kube.Hindered()
    {
      err := None;
      ghost var before, all := kube.calls, CreateAll(stsType, pvcs, chosen);
      for i := 0 to |pvcs|
        invariant kube.Did(all[..i], true) && err.None?
      {
        ghost var between := kube.calls;
        err := kube.CreatePVC(AttachSnapshot(stsType, pvcs[i], SnapshotFor(chosen, pvcs[i].name)));
        FollowedNext(before, between, kube.calls, all, i, err.None?);
        if err.Some? {
          return;
        }
      }
      assert all[..|pvcs|] == all;
    }

    method RevertSnapshots(copy: SnapshotRevert) returns (err: MaybeError, ghost obs: Obs)
      requires kube.Valid() && copy.reverts != []
      modifies kube, copy`reverts
      ensures kube.Did(ReplacePlan(old(copy.Value()), obs).ops, err.None?)
      ensures err.None? ==> ReplacePlan(old(copy.Value()), obs).result.Some?
      ensures err.None? ==> copy.reverts == RevertPlan.SetState(old(copy.reverts), Reverted)
      ensures err.Some? ==>
        || kube.Hindered()
        || (kube.Ended(ListSnapshots(obs.snaps, obs.failed)) && LacksSnapshots(LastOf(old(copy.Value())).oldClaims,
              obs.snaps, obs.failed, copy.action.fromTime, copy.action.toTime))
    {
      obs := NO_ANSWERS;
      ghost var before, r := kube.calls, copy.Value();
      var pvcs := copy.reverts[|copy.reverts| - 1].oldClaims;
      ghost var snaps, failed := [], false;
      var chosen;
      chosen, snaps, failed := GetSnapshots(pvcs, copy.action.fromTime, copy.action.toTime);
      obs := obs.(snaps := snaps, failed := failed);
      ReplacePieces(r, pvcs, obs, chosen);
      if chosen.None? {
        return Some(Failed), obs;
      }
      ghost var volumes := [];
      ghost var between := kube.calls;
      err, volumes := ReplaceClaims(copy.read.stsType, pvcs, chosen.value);
      obs := obs.(volumes := volumes);
      ReplacePieces(r, pvcs, obs, chosen);
      FollowedBoth(before, between, kube.calls, [ListSnapshots(snaps, failed)],
                   ReplaceOps(copy.read.stsType, pvcs, chosen.value, volumes), err.None?);
      if err.None? {
        copy.SetState(Reverted);
      }
    }

    /** Both loops and the wait of RevertSnapshots. */
    method ReplaceClaims(stsType: Option<StatefulSetType>, pvcs: seq<Claim>, chosen: map<string, Snapshot>)
      returns (err: MaybeError, ghost volumes: seq<(Volume, Volume)>)
      requires kube.Valid()
      modifies kube
      ensures kube.Did(ReplaceOps(stsType, pvcs, chosen, volumes), err.None?)
      ensures err.Some? ==> kube.Hindered()
    {
      ghost var before := kube.calls;
      err, volumes := RetireClaims(pvcs);
      ghost var retire, create := RetireAll(pvcs, volumes), CreateAll(stsType, pvcs, chosen);
      if err.Some? {
        FollowedCut(before, kube.calls, retire, create);
        FollowedCut(before, kube.calls, retire + create, [AwaitBound(Keys(pvcs))]);
        return;
      }
      ghost var between := kube.calls;
      err := CreateClaims(stsType, pvcs, chosen);
      FollowedBoth(before, between, kube.calls, retire, create, err.None?);
      if err.Some? {
        FollowedCut(before, kube.calls, retire + create, [AwaitBound(Keys(pvcs))]);
        return;
      }
      between := kube.calls;
      err := kube.WaitPvcsBound(pvcs);
      FollowedBoth(before, between, kube.calls, retire + create, [AwaitBound(Keys(pvcs))], err.None?);
    }

    /** The first loop of UndoRevertSnapshots. */
    method DeleteClaims(pvcs: seq<Claim>) returns (err: MaybeError)
      requires kube.Valid()
      modifies kube
      ensures kube.Did(DeleteAll(pvcs), err.None?)
      ensures err.Some? ==> kube.Hindered()
    {
      err := None;
      ghost var before, all := kube.calls, DeleteAll(pvcs);
      for i := 0 to |pvcs|
        invariant kube.Did(all[..i], true) && err.None?
      {
        ghost var between := kube.calls;
        err := kube.DeletePVC(pvcs[i]);
        FollowedNext(before, between, kube.calls, all, i, err.None?);
        if err.Some? {
          return;
        }
      }
      assert all[..|pvcs|] == all;
    }

    /** The second loop of UndoRevertSnapshots. */
    method RestoreClaims(pvcs: seq<Claim>) returns (err: MaybeError)
      requires kube.Valid()
      modifies kube
      ensures kube.Did(RestoreAll(pvcs), err.None?)
      ensures err.Some? ==> kube.Hindered()
    {
      err := None;
      ghost var before, all := kube.calls, RestoreAll(pvcs);
      for i := 0 to |pvcs|
        invariant kube.Did(all[..i], true) && err.None?
      {
        ghost var between := kube.calls;
        err := kube.CreatePVC(Restoring(pvcs[i]));
        FollowedNext(before, between, kube.calls, all, i, err.None?);
        if err.Some? {
          return;
        }
      }
      assert all[..|pvcs|] == all;
    }

    method UndoRevertSnapshots(copy: SnapshotRevert) returns (err: MaybeError)
      requires kube.Valid() && copy.reverts != []
      modifies kube, copy`reverts
      ensures kube.Did(RestoreOps(LastOf(old(copy.Value())).oldClaims), err.None?)
      ensures err.None? ==> copy.reverts == RevertPlan.SetState(old(copy.reverts), Undone)
      ensures err.Some? ==> kube.Hindered()
    {
      err := PutBack(copy.reverts[|copy.reverts| - 1].oldClaims);
      if err.None? {
        copy.SetState(Undone);
      }
    }

    /** Both loops and the wait of UndoRevertSnapshots. */
    method PutBack(pvcs: seq<Claim>) returns (err: MaybeError)
      requires kube.Valid()
      modifies kube
      ensures kube.Did(RestoreOps(pvcs), err.None?)
      ensures err.Some? ==> kube.Hindered()
    {
      ghost var before, drop, put := kube.calls, DeleteAll(pvcs), RestoreAll(pvcs);
      err := DeleteClaims(pvcs);
      if err.Some? {
        FollowedCut(before, kube.calls, drop, put);
        FollowedCut(before, kube.calls, drop + put, [AwaitBound(Keys(pvcs))]);
        return;
      }
      ghost var between := kube.calls;
      err := RestoreClaims(pvcs);
      FollowedBoth(before, between, kube.calls, drop, put, err.None?);
      if err.Some? {
        FollowedCut(before, kube.calls, drop + put, [AwaitBound(Keys(pvcs))]);
        return;
      }
      between := kube.calls;
      err := kube.WaitPvcsBound(pvcs);
      FollowedBoth(before, between, kube.calls, drop + put, [AwaitBound(Keys(pvcs))], err.None?);
    }

    /** A failed request to scale up is ignored. A record without a count cannot be resumed: the source dereferences
        the nil pointer. */
    method Unpause(copy: SnapshotRevert) returns (err: MaybeError, ghost obs: Obs)
      requires kube.Valid() && copy.reverts != []
      modifies kube, copy
      ensures kube.Did(ResumePlan(old(copy.Value()), obs, []).ops, err.None?)
      ensures err.None? ==>
        && LastOf(old(copy.Value())).replicas.Some?
        && copy.reverts == RevertPlan.SetState(old(copy.reverts), Finished)
        && copy.action == old(copy.action).(kind := Idle)
        && ScaleTo(LastOf(old(copy.Value())).replicas.value) in kube.requests[|old(kube.requests)|..]
      ensures err.Some? ==>
        kube.Hindered() || (kube.Ended(ReadSts(obs.replicas)) && LastOf(old(copy.Value())).replicas.None?)
    {
      obs := NO_ANSWERS;
      ghost var before := kube.calls;
      var sts;
      sts, err := kube.GetSts();
      obs := obs.(replicas := sts.replicas);
      ghost var get := [ReadSts(obs.replicas)];
      var replicas := copy.reverts[|copy.reverts| - 1].replicas;
      if err.Some? || replicas.None? {
        ResumeCut(copy.Value(), obs, before, kube.calls);
        return Some(Failed), obs;
      }
      ghost var between, scaled := kube.calls, false;
      err, scaled := ScaleUp(sts, replicas.value);
      obs := obs.(scaled := scaled);
      ghost var rest := ResumeOps(obs.replicas, scaled, replicas.value)[1..];
      FollowedBoth(before, between, kube.calls, get, rest, err.None?);
      ResumePieces(copy.Value(), obs, replicas.value);
      if err.None? {
        copy.action := copy.action.(kind := Idle);
        copy.SetState(Finished);
      }
    }

    /** The request to scale up, whose failure is ignored, and the wait. */
    method ScaleUp(sts: StatefulSet, count: nat) returns (err: MaybeError, ghost scaled: bool)
      requires kube.Valid()
      modifies kube
      ensures kube.Did(ResumeOps(sts.replicas, scaled, count)[1..], err.None?)
      ensures ScaleTo(count) in kube.requests[|old(kube.requests)|..]
      ensures err.Some? ==> kube.Hindered()
    {
      ghost var before := kube.calls;
      var ignored := kube.SetStsReplica(count);
      ghost var asked := |kube.requests| - 1;
      scaled := kube.calls != before;
      ghost var scale, wait := if scaled then [ScaleTo(count)] else [],
          [AwaitPods(if sts.replicas.Some? then sts.replicas.value else 1)];
      ghost var between := kube.calls;
      err := kube.WaitPodsReady(sts);
      FollowedBoth(before, between, kube.calls, scale, wait, err.None?);
      assert ResumeOps(sts.replicas, scaled, count)[1..] == scale + wait;
      InTail(kube.requests, |old(kube.requests)|, asked);
    }

    /** The strategy's run is looked up only for a record in state "init"; a failed lookup counts as missing. */
    method MissingValidation(copy: SnapshotRevert) returns (missing: bool, ghost first: Option<Option<Run>>)
      requires kube.Valid() && copy.action.kind == Latest
      modifies kube
      ensures !Validates(copy.Value()) ==> !missing && kube.Did([], true)
      ensures Validates(copy.Value()) ==>
        var v := NO_ANSWERS.validation.(first := first);
        missing == RevertPlan.MissingValidation(v) && kube.Did(FirstLook(copy.read.validation.value, v), true)
      ensures Validates(copy.Value()) && first.None? ==> kube.Hindered()
    {
      first := None;
      if copy.read.validation.None? || copy.read.validation.value == "" {
        return false, first;
      }
      if |copy.reverts| == 0 || copy.reverts[|copy.reverts| - 1].state != State.Init {
        return false, first;
      }
      var strategy := copy.read.validation.value;
      var err := kube.GetStrategy(strategy);
      if err.Some? {
        return true, first;
      }
      var run;
      run, err := kube.MatchRun(strategy);
      if err.Some? {
        return true, first;
      }
      first := Some(run);
      missing := run.None? || !run.value.status.validationFinished;
    }

    /** The loop of initRun. */
    method EntriesOf(chosen: map<string, Snapshot>) returns (pvcs: map<string, string>)
      ensures pvcs == map n | n in chosen :: chosen[n].name
    {
      pvcs := map[];
      var rest := chosen.Keys;
      while rest != {}
        invariant rest <= chosen.Keys
        invariant pvcs == map n | n in chosen && n !in rest :: chosen[n].name
        decreases |rest|
      {
        var n :| n in rest;
        pvcs := pvcs[n := chosen[n].name];
        rest := rest - {n};
      }
    }

    /** initRun: the run is named after the strategy and a new UUID. */
    method InitRun(copy: SnapshotRevert, strategy: string)
      returns (run: Option<Run>, ghost snaps: seq<Snapshot>, ghost failed: bool, ghost suffix: string)
      requires kube.Valid() && copy.reverts != []
      modifies kube
      ensures kube.Did([ListSnapshots(snaps, failed)], true)
      ensures var chosen :=
          Selection.Select(LastOf(copy.Value()).oldClaims, snaps, failed, copy.action.fromTime, copy.action.toTime);
        run == if chosen.None? then None else Some(NewRun(copy.read.namespace, strategy, suffix, chosen.value))
      ensures kube.Ended(ListSnapshots(snaps, failed))
      ensures run.None? <==>
        LacksSnapshots(LastOf(copy.Value()).oldClaims, snaps, failed, copy.action.fromTime, copy.action.toTime)
    {
      suffix := "";
      var chosen;
      var claims := copy.reverts[|copy.reverts| - 1].oldClaims;
      chosen, snaps, failed := GetSnapshots(claims, copy.action.fromTime, copy.action.toTime);
      if chosen.None? {
        return None, snaps, failed, suffix;
      }
      var pvcs := EntriesOf(chosen.value);
      var uuid: string := *;
      suffix := uuid;
      run := Some(Run(copy.read.namespace, strategy + "-" + uuid, strategy, pvcs, false, [], [], NOTHING_DONE));
    }

    /** Create a run for the strategy, which has none. */
    method CreateRun(copy: SnapshotRevert) returns (run: Option<Run>, err: MaybeError, ghost v: ValidationObs)
      requires kube.Valid() && Validates(copy.Value())
      modifies kube
      ensures v.second.None? && run == NewRunFor(copy.Value(), v) && (run.None? ==> err.Some?)
      ensures kube.Did([ListSnapshots(v.snaps, v.failed)] + (if run.Some? then [Op.CreateRun(run.value)] else []),
          err.None?)
      ensures err.Some? ==> Excused(copy.Value())
    {
      ghost var before := kube.calls;
      ghost var snaps, failed, suffix;
      run, snaps, failed, suffix := InitRun(copy, copy.read.validation.value);
      v := NO_ANSWERS.validation.(snaps := snaps, failed := failed, suffix := suffix);
      if run.None? {
        return run, Some(Failed), v;
      }
      ghost var between := kube.calls;
      err := kube.CreateValidationRun(run.value);
      FollowedBoth(before, between, kube.calls, [ListSnapshots(snaps, failed)], [Op.CreateRun(run.value)], err.None?);
    }

    /** Adopt the strategy's run or create one, wait for it and ask for its cleanup. */
    method RunValidation(copy: SnapshotRevert) returns (err: MaybeError, ghost v: ValidationObs)
      requires kube.Valid() && Validates(copy.Value())
      modifies kube
      ensures RanValidation(copy.Value(), v, old(kube.calls), kube.calls, err.None?)
      ensures kube.Valid() && old(kube.history) <= kube.history && old(kube.requests) <= kube.requests
      ensures old(kube.failures) <= kube.failures
      ensures err.Some? ==> Excused(copy.Value())
    {
      ghost var before := kube.calls;
      v := NO_ANSWERS.validation;
      var strategy := copy.read.validation.value;
      err := kube.GetStrategy(strategy);
      if err.Some? {
        return;
      }
      var found;
      found, err := kube.MatchRun(strategy);
      v := v.(second := found);
      ghost var last, asked := v.last, [SeeRun(strategy, found)];
      if err.Some? {
        return;
      }
      if found.Some? {
        err, last := FinishValidation(found.value.name, before, asked, err);
        v := v.(last := last);
        Adopted(copy.Value(), v, before, kube.calls, err.None?);
        return;
      }
      err, v := CreateAndFinish(copy, before);
    }

    /** The strategy has no run: create one and wait for it. */
    method CreateAndFinish(copy: SnapshotRevert, ghost before: seq<Op>)
        returns (err: MaybeError, ghost v: ValidationObs)
      requires kube.Valid() && Validates(copy.Value())
      requires Followed(before, kube.calls, [SeeRun(copy.read.validation.value, None)], true)
      modifies kube
      ensures RanValidation(copy.Value(), v, before, kube.calls, err.None?)
      ensures kube.Valid() && old(kube.history) <= kube.history && old(kube.requests) <= kube.requests
      ensures old(kube.failures) <= kube.failures
      ensures err.Some? ==> Excused(copy.Value())
    {
      ghost var between, asked := kube.calls, [SeeRun(copy.read.validation.value, None)];
      var run;
      run, err, v := CreateRun(copy);
      ghost var create := [ListSnapshots(v.snaps, v.failed)] + if run.Some? then [Op.CreateRun(run.value)] else [];
      FollowedBoth(before, between, kube.calls, asked, create, err.None?);
      if run.Some? {
        ghost var last;
        err, last := FinishValidation(run.value.name, before, asked + create, err);
        v := v.(last := last);
      }
      Created(copy.Value(), v, before, kube.calls, err.None?);
    }

    /** The two waits at the end of RunValidation, after the calls `asked`. */
    method FinishValidation(name: string, ghost before: seq<Op>, ghost asked: seq<Op>, earlier: MaybeError)
      returns (err: MaybeError, ghost last: Run)
      requires kube.Valid() && Followed(before, kube.calls, asked, earlier.None?)
      modifies kube
      ensures kube.Valid() && old(kube.history) <= kube.history && old(kube.requests) <= kube.requests
      ensures old(kube.failures) <= kube.failures
      ensures old(kube.calls) <= kube.calls
      ensures Followed(before, kube.calls, asked + [AwaitFinished(name), RequestCleanup(last)], err.None?)
      ensures last.name == name
      ensures earlier.Some? ==> kube.calls == old(kube.calls) && kube.failures == old(kube.failures)
      ensures earlier.None? && err.Some? ==> kube.Hindered()
    {
      var run := Run("", name, "", map[], false, [], [], NOTHING_DONE);
      last := run;
      ghost var rest := [AwaitFinished(name), RequestCleanup(last)];
      if earlier.Some? {
        FollowedCut(before, kube.calls, asked, rest);
        return earlier, last;
      }
      ghost var between := kube.calls;
      err := kube.WaitValidationFinished(name);
      FollowedNext(between, between, kube.calls, rest, 0, err.None?);
      if err.None? {
        run, err := kube.GetRun(name);
        last := if err.None? then run else last;
      }
      rest := [AwaitFinished(name), RequestCleanup(last)];
      if err.None? {
        ghost var waited := kube.calls;
        err := kube.UpdateValidationRun(run);
        FollowedNext(between, waited, kube.calls, rest, 1, err.None?);
        assert rest[..2] == rest;
      } else {
        FollowedPart(between, kube.calls, rest, 1);
      }
      FollowedBoth(before, between, kube.calls, asked, rest, err.None?);
    }

    /** The validation part of ProcessLatest. */
    method Validate(copy: SnapshotRevert) returns (err: MaybeError, ghost v: ValidationObs)
      requires kube.Valid() && copy.action.kind == Latest
      modifies kube
      ensures !Validates(copy.Value()) ==> err.None? && kube.Did([], true)
      ensures Validates(copy.Value()) ==>
        && kube.Did(ValidationPlan(copy.Value(), v).0, err.None?)
        && (err.None? ==> ValidationPlan(copy.Value(), v).1)
      ensures err.Some? ==> Excused(copy.Value())
    {
      ghost var before, first := kube.calls, None;
      v := NO_ANSWERS.validation;
      err := None;
      var missing;
      missing, first := MissingValidation(copy);
      ghost var looked := kube.calls;
      if missing {
        err, v := RunValidation(copy);
      }
      v := v.(first := first);
      if Validates(copy.Value()) {
        ValidationSplits(copy.Value(), v);
        if missing {
          FollowedBoth(before, looked, kube.calls, FirstLook(copy.read.validation.value, v),
                       RevertPlan.RunValidation(copy.Value(), copy.read.validation.value, v).0, err.None?);
        }
      }
    }

    /** The switch of ProcessLatest, on the record InitDetails points to. */
    method LatestStage(copy: SnapshotRevert) returns (err: MaybeError, ghost obs: Obs)
      requires kube.Valid() && copy.action.kind == Latest
      modifies kube, copy
      ensures kube.Did(StagePlan(old(copy.Value()), obs).ops, err.None?)
      ensures err.None? ==>
        StagePlan(old(copy.Value()), obs).result ==
          Some(old(copy.Value()).(action := copy.action, reverts := Retain(old(copy.Value()), copy.reverts)))
      ensures err.Some? ==> Excused(old(copy.Value()))
    {
      obs := NO_ANSWERS;
      err := None;
      ghost var r := copy.Value();
      if copy.read.stsType.Some? {
        copy.InitDetails();
        match copy.reverts[|copy.reverts| - 1].state
        case Fresh =>
          err, obs := Init(copy);
          InitializeResult(r, copy.read, obs);
        case Init =>
          err, obs := Pause(copy);
          PauseResult(r, obs);
        case Paused =>
          err, obs := RevertSnapshots(copy);
          ReplaceResult(r, obs);
        case Reverted =>
          err, obs := Unpause(copy);
          ResumeResult(r, obs);
        case _ =>
          StuckResult(r);
          err := Some(Failed);
      }
    }

    method ProcessLatest(copy: SnapshotRevert) returns (err: MaybeError, ghost obs: Obs)
      requires kube.Valid() && copy.action.kind == Latest
      modifies kube, copy
      ensures kube.Did(PlanFor(old(copy.Value()), obs).ops, err.None?)
      ensures err.None? ==>
        PlanFor(old(copy.Value()), obs).result ==
          Some(old(copy.Value()).(action := copy.action, reverts := Retain(old(copy.Value()), copy.reverts)))
      ensures err.Some? ==> Excused(old(copy.Value()))
    {
      ghost var before, r, v := kube.calls, copy.Value(), NO_ANSWERS.validation;
      obs := NO_ANSWERS;
      err, v := Validate(copy);
      if err.Some? {
        obs := obs.(validation := v);
        PlanCut(before, kube.calls, r, obs);
        return;
      }
      ghost var between := kube.calls;
      err, obs := LatestStage(copy);
      PlanJoins(before, between, kube.calls, r, obs, v, err.None?);
      obs := obs.(validation := v);
    }

    method ProcessUndo(copy: SnapshotRevert) returns (err: MaybeError, ghost obs: Obs)
      requires kube.Valid() && copy.action.kind == Undo
      modifies kube, copy
      ensures kube.Did(StagePlan(old(copy.Value()), obs).ops, err.None?)
      ensures err.None? ==>
        StagePlan(old(copy.Value()), obs).result ==
          Some(old(copy.Value()).(action := copy.action, reverts := copy.reverts))
      ensures err.Some? ==> Excused(old(copy.Value()))
    {
      obs := NO_ANSWERS;
      err := None;
      ghost var r := copy.Value();
      if copy.read.stsType.Some? {
        if |copy.reverts| == 0 {
          return;
        }
        match copy.reverts[|copy.reverts| - 1].state
        case Finished =>
          err, obs := Pause(copy);
          PauseResult(r, obs);
        case Paused =>
          err := UndoRevertSnapshots(copy);
        case Undone =>
          err, obs := Unpause(copy);
          ResumeResult(r, obs);
          if err.Some? {
            return;
          }
          copy.reverts := copy.reverts[..|copy.reverts| - 1];
        case _ =>
          StuckResult(r);
          err := Some(Failed);
      }
    }

    /** The switch over the requested action, and the retention of a `latest` request. */
    method ProcessAction(copy: SnapshotRevert) returns (err: MaybeError, ghost obs: Obs)
      requires kube.Valid()
      modifies kube, copy
      ensures kube.Did(PlanFor(old(copy.Value()), obs).ops, err.None?)
      ensures err.None? ==> PlanFor(old(copy.Value()), obs).result == Some(copy.Value())
      ensures err.Some? ==> Excused(old(copy.Value()))
    {
      ghost var r := copy.Value();
      obs := NO_ANSWERS;
      err := None;
      match copy.action.kind
      case Latest =>
        err, obs := ProcessLatest(copy);
        if err.None? {
          copy.Trim();
        }
      case Undo =>
        err, obs := ProcessUndo(copy);
        PlanSplits(r, obs);
      case _ =>
        RestPlan(r, obs);
    }

    /** ProcessSnapshotRevert: a processing issues the calls of its plan in order, all of them if it succeeds and the
        first few if it fails, and the object is written only by the very last one. */
    method ProcessSnapshotRevert(revert: Revert) returns (err: MaybeError, ghost obs: Obs)
      requires kube.Valid()
      modifies kube
      ensures kube.Did(AllOps(revert, obs), err.None?)
      ensures err.None? ==> PlanFor(revert, obs).result.Some?
      ensures err.Some? ==> Excused(revert)
    {
      ghost var before := kube.calls;
      var copy := new SnapshotRevert(revert);
      err, obs := ProcessAction(copy);
      ghost var plan := PlanFor(revert, obs);
      if err.Some? {
        FollowedCut(before, kube.calls, plan.ops, Closing(revert, plan.result));
        return;
      }
      ghost var between := kube.calls;
      err := kube.UpdateRevert(revert, copy.Value());
      FollowedBoth(before, between, kube.calls, plan.ops, Closing(revert, plan.result), err.None?);
    }
  }

  // ---- The pieces of a plan ----

  function KeepOps(pvc: Claim, seen: Volume): seq<Op> {
    [GetPV(pvc.spec.volumeName, seen)]
    + if seen.retain then [] else [UpdatePV(pvc.spec.volumeName, seen, seen.(retain := true))]
  }

  function FreeOps(pvc: Claim, seen: Volume): seq<Op> {
    [GetPV(pvc.spec.volumeName, seen)] + [UpdatePV(pvc.spec.volumeName, seen, seen.(claimRef := None))]
  }

  lemma RetireParts(pvc: Claim, seen: (Volume, Volume))
    ensures RetireOps(pvc, seen) == KeepOps(pvc, seen.0) + [DeletePVC(pvc.Key())] + FreeOps(pvc, seen.1)
  {
  }

  lemma RetireNext(pvcs: seq<Claim>, volumes: seq<(Volume, Volume)>, i: nat, seen: (Volume, Volume))
    requires i < |pvcs| && |volumes| == i
    ensures RetireAll(pvcs[..i + 1], volumes + [seen]) == RetireAll(pvcs[..i], volumes) + RetireOps(pvcs[i], seen)
  {
    assert pvcs[..i + 1][..i] == pvcs[..i];
    RetireSame(pvcs[..i], volumes, volumes + [seen]);
  }

  lemma {:induction false} RetirePrefix(pvcs: seq<Claim>, volumes: seq<(Volume, Volume)>, i: nat)
    requires i <= |pvcs|
    ensures RetireAll(pvcs[..i], volumes) <= RetireAll(pvcs, volumes)
  {
    if i == |pvcs| {
      assert pvcs[..i] == pvcs;
    } else {
      RetirePrefix(pvcs[..|pvcs| - 1], volumes, i);
      assert pvcs[..|pvcs| - 1][..i] == pvcs[..i];
    }
  }

  lemma RetireCut(pvcs: seq<Claim>, volumes: seq<(Volume, Volume)>, i: nat, before: seq<Op>, after: seq<Op>)
    requires i <= |pvcs| && Followed(before, after, RetireAll(pvcs[..i], volumes), false)
    ensures Followed(before, after, RetireAll(pvcs, volumes), false)
  {
    var some, all := RetireAll(pvcs[..i], volumes), RetireAll(pvcs, volumes);
    RetirePrefix(pvcs, volumes, i);
    assert some == all[..|some|];
    FollowedPart(before, after, all, |some|);
  }

  lemma ResumeCut(r: Revert, obs: Obs, before: seq<Op>, after: seq<Op>)
    requires r.reverts != [] && Followed(before, after, [ReadSts(obs.replicas)], false) && !obs.scaled
    ensures Followed(before, after, ResumePlan(r, obs, []).ops, false)
  {
    FollowedCut(before, after, [ReadSts(obs.replicas)],
      [AwaitPods(if obs.replicas.Some? then obs.replicas.value else 1)]);
  }

  lemma ResumePieces(r: Revert, obs: Obs, count: nat)
    requires LastOf(r).replicas == Some(count)
    ensures ResumePlan(r, obs, []).ops == [ReadSts(obs.replicas)] + ResumeOps(obs.replicas, obs.scaled, count)[1..]
  {
  }

  lemma ReplacePieces(r: Revert, pvcs: seq<Claim>, obs: Obs, chosen: Option<map<string, Snapshot>>)
    requires r.reverts != [] && pvcs == LastOf(r).oldClaims
    requires chosen == Selection.Select(pvcs, obs.snaps, obs.failed, r.action.fromTime, r.action.toTime)
    ensures chosen.None? ==> ReplacePlan(r, obs) == Plan([ListSnapshots(obs.snaps, obs.failed)], None)
    ensures chosen.Some? ==>
      && ReplacePlan(r, obs).ops == [ListSnapshots(obs.snaps, obs.failed)]
          + ReplaceOps(r.stsType, pvcs, chosen.value, obs.volumes)
      && ReplacePlan(r, obs).result.Some?
  {
  }

  /** The run to create, if the snapshots for it are there. */
  function NewRunFor(r: Revert, v: ValidationObs): Option<Run>
    requires Validates(r)
  {
    var chosen := Selection.Select(LastOf(r).oldClaims, v.snaps, v.failed, r.action.fromTime, r.action.toTime);
    if chosen.None? then None else Some(NewRun(r.namespace, r.validation.value, v.suffix, chosen.value))
  }

  /** The calls are those of the validation plan, and it can complete if they are complete. */
  ghost predicate RanValidation(r: Revert, v: ValidationObs, before: seq<Op>, after: seq<Op>, complete: bool)
    requires Validates(r)
  {
    var plan := RevertPlan.RunValidation(r, r.validation.value, v);
    Followed(before, after, plan.0, complete) && (complete ==> plan.1)
  }

  lemma Adopted(r: Revert, v: ValidationObs, before: seq<Op>, after: seq<Op>, complete: bool)
    requires Validates(r) && v.second.Some? && v.last.name == v.second.value.name
    requires Followed(before, after,
      [SeeRun(r.validation.value, v.second)] + [AwaitFinished(v.second.value.name), RequestCleanup(v.last)], complete)
    ensures RanValidation(r, v, before, after, complete)
  {
    assert [SeeRun(r.validation.value, v.second)] + [AwaitFinished(v.second.value.name), RequestCleanup(v.last)]
        == RevertPlan.RunValidation(r, r.validation.value, v).0;
  }

  lemma Created(r: Revert, v: ValidationObs, before: seq<Op>, after: seq<Op>, complete: bool)
    requires Validates(r) && v.second.None?
    requires NewRunFor(r, v).Some? ==> v.last.name == NewRunFor(r, v).value.name
    requires var asked, run := [SeeRun(r.validation.value, None)], NewRunFor(r, v);
      if run.None? then Followed(before, after, asked + ([ListSnapshots(v.snaps, v.failed)] + []), false) && !complete
      else Followed(before, after, asked + ([ListSnapshots(v.snaps, v.failed)] + [Op.CreateRun(run.value)])
                                 + [AwaitFinished(run.value.name), RequestCleanup(v.last)], complete)
    ensures RanValidation(r, v, before, after, complete)
  {
    var asked, run := [SeeRun(r.validation.value, None)], NewRunFor(r, v);
    if run.Some? {
      assert asked + ([ListSnapshots(v.snaps, v.failed)] + [Op.CreateRun(run.value)])
          + [AwaitFinished(run.value.name), RequestCleanup(v.last)]
          == RevertPlan.RunValidation(r, r.validation.value, v).0;
    } else {
      assert asked + ([ListSnapshots(v.snaps, v.failed)] + []) == RevertPlan.RunValidation(r, r.validation.value, v).0;
    }
  }

  lemma ValidationSplits(r: Revert, v: ValidationObs)
    requires Validates(r)
    ensures RevertPlan.MissingValidation(v) ==>
      var run := RevertPlan.RunValidation(r, r.validation.value, v);
      ValidationPlan(r, v) == (FirstLook(r.validation.value, v) + run.0, run.1)
    ensures !RevertPlan.MissingValidation(v) ==> ValidationPlan(r, v) == (FirstLook(r.validation.value, v), true)
  {
  }

  lemma StageIgnores(r: Revert, obs: Obs, v: ValidationObs)
    ensures StagePlan(r, obs.(validation := v)) == StagePlan(r, obs)
  {
  }

  lemma InTail(ops: seq<Op>, n: nat, i: nat)
    requires n <= i < |ops|
    ensures ops[i] in ops[n..]
  {
    assert ops[n..][i - n] == ops[i];
  }

  lemma RestPlan(r: Revert, obs: Obs)
    requires r.action.kind !in {Latest, Undo}
    ensures PlanFor(r, obs) == Plan([], Some(r))
  {
    assert !Validates(r) && Trim(r) == r;
  }

  lemma PlanSplits(r: Revert, obs: Obs)
    ensures !Validates(r) ==> PlanFor(r, obs) == StagePlan(r, obs)
    ensures Validates(r) && ValidationPlan(r, obs.validation).1 ==>
      PlanFor(r, obs) == Plan(ValidationPlan(r, obs.validation).0 + StagePlan(r, obs).ops, StagePlan(r, obs).result)
    ensures Validates(r) && !ValidationPlan(r, obs.validation).1 ==>
        PlanFor(r, obs) == Plan(ValidationPlan(r, obs.validation).0, None)
  {
  }

  lemma InitializeResult(r: Revert, other: Revert, obs: Obs)
    requires StageOf(r) == Initialize
    ensures StagePlan(r, obs).ops == InitializePlan(other, obs).ops
    ensures obs.replicas.Some? && obs.replicas.value != 0 ==>
      var all := WithDetails(r.reverts);
      StagePlan(r, obs).result ==
        Some(r.(reverts := Retain(r, all[|all| - 1 := Details(State.Init, obs.replicas, obs.claims)])))
    ensures obs.replicas.None? || obs.replicas.value == 0 ==> GivesUpOn(r, ReadSts(obs.replicas))
  {
  }

  lemma StuckResult(r: Revert)
    requires StageOf(r) == Stuck
    ensures Unknown(r)
  {
  }

  lemma PauseResult(r: Revert, obs: Obs)
    requires StageOf(r) == Stage.Pause || StageOf(r) == UndoPause
    requires r.reverts != []
    ensures StagePlan(r, obs) ==
        Plan(PauseOps(obs.replicas), Some(r.(reverts := Retain(r, RevertPlan.SetState(r.reverts, Paused)))))
  {
  }

  lemma ReplaceResult(r: Revert, obs: Obs)
    requires StageOf(r) == Replace && r.reverts != []
    ensures StagePlan(r, obs).ops == ReplacePlan(r, obs).ops
    ensures ReplacePlan(r, obs).result.Some? ==>
      StagePlan(r, obs).result == Some(r.(reverts := Retain(r, RevertPlan.SetState(r.reverts, Reverted))))
    ensures LacksSnapshots(LastOf(r).oldClaims, obs.snaps, obs.failed, r.action.fromTime, r.action.toTime) ==>
      GivesUpOn(r, ListSnapshots(obs.snaps, obs.failed))
  {
  }

  lemma ResumeResult(r: Revert, obs: Obs)
    requires (StageOf(r) == Resume || StageOf(r) == UndoResume) && r.reverts != []
    ensures LastOf(r).replicas.None? ==> GivesUpOn(r, ReadSts(obs.replicas))
    ensures StagePlan(r, obs).ops == ResumePlan(r, obs, []).ops
    ensures LastOf(r).replicas.Some? ==>
      StagePlan(r, obs).result == Some(r.(
        action := r.action.(kind := Idle),
        reverts := if StageOf(r) == Resume then Retain(r, RevertPlan.SetState(r.reverts, Finished))
          else r.reverts[..|r.reverts| - 1]))
  {
  }

  lemma PlanCut(a: seq<Op>, b: seq<Op>, r: Revert, obs: Obs)
    requires Validates(r) && Followed(a, b, ValidationPlan(r, obs.validation).0, false)
    ensures Followed(a, b, PlanFor(r, obs).ops, false)
  {
    PlanSplits(r, obs);
    FollowedCut(a, b, ValidationPlan(r, obs.validation).0, StagePlan(r, obs).ops);
  }

  lemma PlanJoins(a: seq<Op>, b: seq<Op>, c: seq<Op>, r: Revert, obs: Obs, v: ValidationObs, complete: bool)
    requires Followed(a, b, if Validates(r) then ValidationPlan(r, v).0 else [], true)
    requires Validates(r) ==> ValidationPlan(r, v).1
    requires Followed(b, c, StagePlan(r, obs).ops, complete)
    ensures Followed(a, c, PlanFor(r, obs.(validation := v)).ops, complete)
    ensures PlanFor(r, obs.(validation := v)).result == StagePlan(r, obs).result
  {
    StageIgnores(r, obs, v);
    PlanSplits(r, obs.(validation := v));
    FollowedBoth(a, b, c, if Validates(r) then ValidationPlan(r, v).0 else [], StagePlan(r, obs).ops, complete);
  }
}
