/** Retention refines an unbounded history: dropping old records never changes what the controller does, as long as
    undo still meets a kept record. */
module RevertRetention {
  import opened Types
  import opened RevertPlan

  /** The user edits the request, or the controller processes the stored object with some answers to its reads. */
  datatype Move = Edit(action: Action, keepStatus: nat) | Process(obs: Obs)

  /** A processing that fails leaves the stored object alone. */
  function Processed(r: Revert, obs: Obs): Revert {
    if PlanFor(r, obs).result.Some? then PlanFor(r, obs).result.value else r
  }

  function Bounded(r: Revert, m: Move): Revert {
    match m
    case Edit(action, keep) => r.(action := action, keepStatus := keep)
    case Process(obs) => Processed(r, obs)
  }

  /** The reference: the same controller told to keep every record. */
  function Unbounded(r: Revert, m: Move): Revert {
    match m
    case Edit(action, _) => r.(action := action, keepStatus := 0)
    case Process(obs) => Processed(r, obs)
  }

  function Follow(r: Revert, moves: seq<Move>): Revert {
    if moves == [] then r else Bounded(Follow(r, moves[..|moves| - 1]), moves[|moves| - 1])
  }

  function FollowUnbounded(r: Revert, moves: seq<Move>): Revert {
    if moves == [] then r.(keepStatus := 0)
    else Unbounded(FollowUnbounded(r, moves[..|moves| - 1]), moves[|moves| - 1])
  }

  predicate Suffix(kept: seq<Details>, all: seq<Details>) {
    |kept| <= |all| && kept == all[|all| - |kept|..]
  }

  /** Undo is not asked for once every record has been dropped or undone, unless there never was one left. */
  predicate UndoMeetsRecord(r: Revert, moves: seq<Move>) {
    moves == [] ||
    (UndoMeetsRecord(r, moves[..|moves| - 1]) &&
     var before := Follow(r, moves[..|moves| - 1]);
     moves[|moves| - 1].Process? && before.action.kind == Undo ==>
       before.reverts != [] || FollowUnbounded(r, moves[..|moves| - 1]).reverts == [])
  }

  /** The bounded object is the unbounded one without some of its oldest, finished records. */
  predicate Mirrors(b: Revert, u: Revert) {
    && u == b.(reverts := u.reverts, keepStatus := 0)
    && Suffix(b.reverts, u.reverts)
    && (forall i | 0 <= i < |u.reverts| - 1 :: u.reverts[i].state == Finished)
    && (b.reverts == [] && u.reverts != [] ==> u.reverts[|u.reverts| - 1].state == Finished)
  }

  lemma SameLast(b: Revert, u: Revert)
    requires Mirrors(b, u) && b.reverts != []
    ensures u.reverts != [] && b.reverts[|b.reverts| - 1] == u.reverts[|u.reverts| - 1]
  {
  }

  /** The stage depends on the request and on the last record only. */
  lemma StageByLast(b: Revert, u: Revert)
    requires u == b.(reverts := u.reverts, keepStatus := u.keepStatus) && b.reverts != [] && u.reverts != []
    requires b.reverts[|b.reverts| - 1] == u.reverts[|u.reverts| - 1]
    ensures StageOf(b) == StageOf(u) && (Validates(b) <==> Validates(u))
  {
  }

  lemma SameStage(b: Revert, u: Revert)
    requires Mirrors(b, u)
    requires b.action.kind == Undo ==> b.reverts != [] || u.reverts == []
    ensures StageOf(b) == StageOf(u) && (Validates(b) <==> Validates(u))
    ensures b.reverts != [] ==> u.reverts != [] && b.reverts[|b.reverts| - 1] == u.reverts[|u.reverts| - 1]
  {
    if b.reverts != [] {
      SameLast(b, u);
      StageByLast(b, u);
    }
  }

  lemma SameStagePlan(b: Revert, u: Revert, obs: Obs)
    requires Mirrors(b, u)
    requires b.action.kind == Undo ==> b.reverts != [] || u.reverts == []
    ensures StagePlan(b, obs).ops == StagePlan(u, obs).ops
    ensures StagePlan(b, obs).result.Some? == StagePlan(u, obs).result.Some?
  {
    SameStage(b, u);
  }

  /** The records a stage arrives at, before retention. */
  function Advance(reverts: seq<Details>, stage: Stage, obs: Obs): seq<Details> {
    match stage
    case Initialize => reverts + [Details(Init, obs.replicas, obs.claims)]
    case UndoResume => if reverts == [] then [] else reverts[..|reverts| - 1]
    case Rest => reverts
    case Stuck => reverts
    case _ => if reverts == [] then [] else SetState(reverts, Target(stage))
  }

  function Request(r: Revert): Action {
    if StageOf(r) == Resume || StageOf(r) == UndoResume then r.action.(kind := Idle) else r.action
  }

  /** The stored result in terms of the records alone. */
  function Outcome(r: Revert, obs: Obs): Revert {
    r.(reverts := Retain(r, Advance(r.reverts, StageOf(r), obs)), action := Request(r))
  }

  lemma InitializeAdvances(r: Revert, obs: Obs)
    requires StagePlan(r, obs).result.Some? && StageOf(r) == Initialize && NoFresh(r.reverts)
    ensures StagePlan(r, obs).result.value == Outcome(r, obs)
  {
    InitializeMeansFinished(r);
    var all := WithDetails(r.reverts);
    assert all == r.reverts + [FRESH];
    assert all[|all| - 1 := Details(Init, obs.replicas, obs.claims)] == r.reverts
        + [Details(Init, obs.replicas, obs.claims)];
  }

  lemma ResultAdvances(r: Revert, obs: Obs)
    requires StagePlan(r, obs).result.Some? && NoFresh(r.reverts)
    ensures StagePlan(r, obs).result.value == Outcome(r, obs)
  {
    if StageOf(r) == Initialize {
      InitializeAdvances(r, obs);
    }
  }

  lemma SuffixAdvances(b: seq<Details>, u: seq<Details>, stage: Stage, obs: Obs)
    requires Suffix(b, u) && (b == [] && u != [] ==> stage in {Initialize, Rest})
    ensures Suffix(Advance(b, stage, obs), Advance(u, stage, obs))
  {
  }

  lemma TrimmedSuffix(b: seq<Details>, u: seq<Details>, keep: nat)
    requires Suffix(b, u)
    ensures Suffix(Trimmed(b, keep), u)
    ensures b != [] ==> Trimmed(b, keep) != []
  {
  }

  lemma AdvancedFinished(reverts: seq<Details>, stage: Stage, obs: Obs)
    requires forall i | 0 <= i < |reverts| - 1 :: reverts[i].state == Finished
    requires stage == Initialize ==> reverts == [] || reverts[|reverts| - 1].state == Finished
    ensures var a := Advance(reverts, stage, obs); forall i | 0 <= i < |a| - 1 :: a[i].state == Finished
    ensures stage == UndoResume ==> var a := Advance(reverts, stage, obs); a == [] || a[|a| - 1].state == Finished
  {
  }

  ghost predicate NoFresh(reverts: seq<Details>) {
    forall d <- reverts :: d.state != Fresh
  }

  lemma InitializeMeansFinished(r: Revert)
    requires NoFresh(r.reverts) && StageOf(r) == Initialize
    ensures r.reverts == [] || r.reverts[|r.reverts| - 1].state == Finished
  {
    if r.reverts != [] {
      assert r.reverts[|r.reverts| - 1] in r.reverts;
    }
  }

  predicate RecordsMirror(b: seq<Details>, u: seq<Details>) {
    && Suffix(b, u)
    && (forall i | 0 <= i < |u| - 1 :: u[i].state == Finished)
    && (b == [] && u != [] ==> u[|u| - 1].state == Finished)
  }

  lemma AdvancedMirror(b: seq<Details>, u: seq<Details>, stage: Stage, obs: Obs)
    requires RecordsMirror(b, u)
    requires b == [] ==> stage in {Initialize, Rest}
    requires stage == Initialize ==> u == [] || u[|u| - 1].state == Finished
    ensures RecordsMirror(Advance(b, stage, obs), Advance(u, stage, obs))
  {
    SuffixAdvances(b, u, stage, obs);
    AdvancedFinished(u, stage, obs);
    if stage == UndoResume {
      assert |Advance(u, stage, obs)| == |u| - 1;
    }
  }

  lemma StageAllowed(b: Revert, u: Revert)
    requires Mirrors(b, u) && NoFresh(u.reverts)
    requires b.action.kind == Undo ==> b.reverts != [] || u.reverts == []
    ensures StageOf(u) == StageOf(b)
    ensures b.reverts == [] ==> StageOf(b) in {Initialize, Rest}
    ensures StageOf(b) == Initialize ==> u.reverts == [] || u.reverts[|u.reverts| - 1].state == Finished
  {
    SameStage(b, u);
    if StageOf(u) == Initialize {
      InitializeMeansFinished(u);
    }
  }

  lemma OutcomesMirror(b: Revert, u: Revert, obs: Obs)
    requires Mirrors(b, u) && NoFresh(u.reverts)
    requires b.action.kind == Undo ==> b.reverts != [] || u.reverts == []
    ensures Mirrors(Outcome(b, obs), Outcome(u, obs))
  {
    StageAllowed(b, u);
    AdvancedMirror(b.reverts, u.reverts, StageOf(b), obs);
    KeepingMirror(b, u, Advance(b.reverts, StageOf(b), obs), Advance(u.reverts, StageOf(b), obs));
  }

  lemma KeepingMirror(b: Revert, u: Revert, advanced: seq<Details>, all: seq<Details>)
    requires u.keepStatus == 0 && RecordsMirror(advanced, all)
    ensures Retain(u, all) == all && RecordsMirror(Retain(b, advanced), all)
  {
    TrimmedSuffix(advanced, all, b.keepStatus);
  }

  lemma OutcomeNoFresh(u: Revert, obs: Obs)
    requires NoFresh(u.reverts) && u.keepStatus == 0
    ensures NoFresh(Outcome(u, obs).reverts)
  {
  }

  /** The records of a processing mirror each other again. */
  lemma ProcessedRecords(b: Revert, u: Revert, obs: Obs)
    requires Mirrors(b, u) && NoFresh(u.reverts)
    requires b.action.kind == Undo ==> b.reverts != [] || u.reverts == []
    requires StagePlan(b, obs).result.Some? && StagePlan(u, obs).result.Some?
    ensures Mirrors(StagePlan(b, obs).result.value, StagePlan(u, obs).result.value)
    ensures NoFresh(StagePlan(u, obs).result.value.reverts)
  {
    assert forall d <- b.reverts :: d in u.reverts;
    ResultAdvances(b, obs);
    ResultAdvances(u, obs);
    OutcomesMirror(b, u, obs);
    OutcomeNoFresh(u, obs);
  }

  lemma SameResult(b: Revert, u: Revert, obs: Obs)
    requires Mirrors(b, u)
    requires b.action.kind == Undo ==> b.reverts != [] || u.reverts == []
    ensures PlanFor(b, obs).ops == PlanFor(u, obs).ops
    ensures PlanFor(b, obs).result.Some? == PlanFor(u, obs).result.Some?
    ensures PlanFor(b, obs).result.Some? ==>
      && StagePlan(b, obs).result == PlanFor(b, obs).result && StagePlan(u, obs).result == PlanFor(u, obs).result
  {
    SameStage(b, u);
    SameStagePlan(b, u, obs);
    if Validates(b) {
      assert ValidationPlan(b, obs.validation) == ValidationPlan(u, obs.validation);
    }
  }

  lemma {:induction false} AlwaysMirrors(r: Revert, moves: seq<Move>)
    requires r.reverts == [] && UndoMeetsRecord(r, moves)
    ensures Mirrors(Follow(r, moves), FollowUnbounded(r, moves)) && NoFresh(FollowUnbounded(r, moves).reverts)
  {
    if moves != [] {
      var before, m := moves[..|moves| - 1], moves[|moves| - 1];
      AlwaysMirrors(r, before);
      if m.Process? {
        MirrorStep(Follow(r, before), FollowUnbounded(r, before), m.obs);
      }
    }
  }

  lemma MirrorStep(b: Revert, u: Revert, obs: Obs)
    requires Mirrors(b, u) && NoFresh(u.reverts)
    requires b.action.kind == Undo ==> b.reverts != [] || u.reverts == []
    ensures Mirrors(Processed(b, obs), Processed(u, obs)) && NoFresh(Processed(u, obs).reverts)
  {
    SameResult(b, u, obs);
    if PlanFor(b, obs).result.Some? {
      ProcessedRecords(b, u, obs);
    }
  }

  /** Retention refines unbounded history: for any sequence of edits, with any KeepStatus values, and processings,
      in which undo meets a kept record, the kept records are the newest ones of an unbounded history, they include
      the record in progress, and the next processing issues exactly the same API calls. */
  lemma RetentionRefines(r: Revert, moves: seq<Move>, obs: Obs)
    requires r.reverts == [] && UndoMeetsRecord(r, moves + [Process(obs)])
    ensures var b, u := Follow(r, moves), FollowUnbounded(r, moves);
      && Suffix(b.reverts, u.reverts)
      && (u.reverts != [] && u.reverts[|u.reverts| - 1].state != Finished ==>
            b.reverts != [] && b.reverts[|b.reverts| - 1] == u.reverts[|u.reverts| - 1])
      && PlanFor(b, obs).ops == PlanFor(u, obs).ops
      && StageOf(b) == StageOf(u)
  {
    assert (moves + [Process(obs)])[..|moves|] == moves;
    AlwaysMirrors(r, moves);
    SameStage(Follow(r, moves), FollowUnbounded(r, moves));
    SameResult(Follow(r, moves), FollowUnbounded(r, moves), obs);
  }

  /** Retention keeps exactly as many records as it is told: after a stored step of a `latest` request, all of them, or
      the newest KeepStatus of them if that is positive and there are more. */
  lemma RetentionExact(r: Revert, obs: Obs)
    requires NoFresh(r.reverts) && r.action.kind == Latest && StagePlan(r, obs).result.Some?
    ensures var all, kept := Advance(r.reverts, StageOf(r), obs), StagePlan(r, obs).result.value.reverts;
      && Suffix(kept, all)
      && |kept| == (if r.keepStatus == 0 || |all| <= r.keepStatus then |all| else r.keepStatus)
      && |all| == |r.reverts| + if StageOf(r) == Initialize then 1 else 0
  {
    ResultAdvances(r, obs);
    TrimmedExact(Advance(r.reverts, StageOf(r), obs), r.keepStatus);
    AdvanceGrows(r, obs);
  }

  lemma TrimmedExact(all: seq<Details>, keep: nat)
    ensures Suffix(Trimmed(all, keep), all)
    ensures |Trimmed(all, keep)| == if keep == 0 || |all| <= keep then |all| else keep
  {
  }

  lemma AdvanceGrows(r: Revert, obs: Obs)
    requires r.action.kind == Latest
    ensures |Advance(r.reverts, StageOf(r), obs)| == |r.reverts| + if StageOf(r) == Initialize then 1 else 0
  {
  }
}
