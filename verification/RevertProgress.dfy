/** Each request does at most one unit of work: a rank falls by one with every step that is stored, and the request is
    idle when none is left. Whether a step can be stored is in RevertEnds. */
module RevertProgress {
  import opened Wrappers
  import opened Types
  import opened RevertPlan
  import opened RevertMachine
  import opened RevertDowntime
  import opened RevertRetention

  /** How many stored steps the request still needs. */
  function Rank(r: Revert): nat {
    match StageOf(r)
    case Initialize => 4
    case Pause => 3
    case Replace => 2
    case Resume => 1
    case UndoPause => 3
    case Restore => 2
    case UndoResume => 1
    case Rest => 0
    case Stuck => 0
  }

  lemma RetainedLast(r: Revert, reverts: seq<Details>)
    ensures reverts == [] <==> Retain(r, reverts) == []
    ensures reverts != [] ==> Last(Retain(r, reverts)) == Last(reverts)
  {
  }

  lemma OutcomeRank(r: Revert, obs: Obs)
    requires NoFresh(r.reverts) && Rank(r) > 0
    ensures Rank(Outcome(r, obs)) == Rank(r) - 1
    ensures Outcome(r, obs).action.kind == if Rank(r) == 1 then Idle else r.action.kind
  {
    if Rank(r) > 1 {
      OutcomeLast(r, obs);
      RankByLast(r);
      RankByLast(Outcome(r, obs));
    }
  }

  lemma OutcomeLast(r: Revert, obs: Obs)
    requires NoFresh(r.reverts) && Rank(r) > 1
    ensures var next := Outcome(r, obs);
      && next.action == r.action && next.stsType == r.stsType && next.reverts != []
      && Last(next.reverts).state == if StageOf(r) == Initialize then Init else Target(StageOf(r))
  {
    RetainedLast(r, Advance(r.reverts, StageOf(r), obs));
  }

  /** The rank depends on the request and on the state of the last record only. */
  lemma RankByLast(r: Revert)
    requires NoFresh(r.reverts) || r.reverts != []
    ensures r.stsType.Some? && r.action.kind == Latest ==>
      Rank(r) ==
        if r.reverts == [] then 4
        else match Last(r.reverts).state {
          case Fresh => 4 case Finished => 4 case Init => 3 case Paused => 2 case Reverted => 1 case Undone => 0
        }
    ensures r.stsType.Some? && r.action.kind == Undo && r.reverts != [] ==>
      Rank(r) == match Last(r.reverts).state { case Finished => 3 case Paused => 2 case Undone => 1 case _ => 0 }
    ensures r.stsType.None? || r.action.kind !in {Latest, Undo} || (r.action.kind == Undo && r.reverts == []) ==>
        Rank(r) == 0
  {
  }

  /** A processing that stores something either brings the request one step closer to its end, where it turns idle,
      or had nothing to do and only applies retention. */
  lemma StoredStepLowersRank(r: Revert, obs: Obs)
    requires NoFresh(r.reverts) && PlanFor(r, obs).result.Some?
    ensures var next := PlanFor(r, obs).result.value;
      if Rank(r) > 0 then Rank(next) == Rank(r) - 1
          && next.action.kind == (if Rank(r) == 1 then Idle else r.action.kind)
      else next == Trim(r)
    ensures PlanFor(r, obs).result.value == Outcome(r, obs)
  {
    assert PlanFor(r, obs).result == StagePlan(r, obs).result;
    ResultAdvances(r, obs);
    if Rank(r) > 0 {
      OutcomeRank(r, obs);
    }
  }

  /** The object after processings that all store their result. */
  function Chain(r: Revert, answers: seq<Obs>): Option<Revert> {
    if answers == [] then Some(r)
    else
      var before := Chain(r, answers[..|answers| - 1]);
      if before.None? then None else PlanFor(before.value, answers[|answers| - 1]).result
  }

  /** The records after the first `n` stored steps of a `latest` request. */
  function LatestRecords(r: Revert, first: Obs, n: nat): seq<Details>
    requires n <= 4
  {
    if n == 0 then r.reverts
    else
      Trimmed(r.reverts + [Details(LatestState(n), first.replicas, first.claims)], r.keepStatus)
  }

  lemma TrimmedReplace(reverts: seq<Details>, d: Details, state: State, keep: nat)
    ensures var kept := Trimmed(reverts + [d], keep);
      Trimmed(SetState(kept, state), keep) == Trimmed(reverts + [d.(state := state)], keep)
  {
    var kept := Trimmed(reverts + [d], keep);
    assert SetState(kept, state) == kept[..|kept| - 1] + [d.(state := state)];
  }

  lemma ChainLast(r: Revert, answers: seq<Obs>, n: nat)
    requires n < |answers| && Chain(r, answers[..n + 1]).Some?
    ensures Chain(r, answers[..n]).Some?
    ensures PlanFor(Chain(r, answers[..n]).value, answers[n]).result == Chain(r, answers[..n + 1])
  {
    assert answers[..n + 1][..n] == answers[..n];
  }

  function LatestState(n: nat): State {
    match n
    case 1 => Init
    case 2 => Paused
    case 3 => Reverted
    case _ => Finished
  }

  lemma LatestFirst(r: Revert, obs: Obs)
    requires NoFresh(r.reverts) && StageOf(r) == Initialize
    ensures Outcome(r, obs) == r.(reverts := LatestRecords(r, obs, 1))
  {
  }

  lemma TrimmedNoFresh(reverts: seq<Details>, d: Details, keep: nat)
    requires NoFresh(reverts) && d.state != Fresh
    ensures NoFresh(Trimmed(reverts + [d], keep))
  {
    assert forall x <- Trimmed(reverts + [d], keep) :: x in reverts + [d];
  }

  lemma LatestNext(r: Revert, r': Revert, first: Obs, n: nat, obs: Obs)
    requires 0 < n < 4 && NoFresh(r.reverts) && StageOf(r) == Initialize
    requires r' == r.(reverts := LatestRecords(r, first, n))
    ensures NoFresh(r'.reverts)
    ensures Outcome(r', obs) ==
      r.(reverts := LatestRecords(r, first, n + 1), action := if n == 3 then r.action.(kind := Idle) else r.action)
  {
    var d := Details(LatestState(n), first.replicas, first.claims);
    TrimmedLast(r.reverts + [d], r.keepStatus);
    TrimmedNoFresh(r.reverts, d, r.keepStatus);
    LatestStage(r', n);
    TrimmedReplace(r.reverts, d, LatestState(n + 1), r.keepStatus);
    assert Advance(r'.reverts, StageOf(r'), obs) == SetState(r'.reverts, LatestState(n + 1));
  }

  lemma LatestStage(r: Revert, n: nat)
    requires 0 < n < 4 && r.action.kind == Latest && r.stsType.Some?
    requires r.reverts != [] && Last(r.reverts).state == LatestState(n)
    ensures StageOf(r) == if n == 1 then Pause else if n == 2 then Replace else Resume
    ensures Target(StageOf(r)) == LatestState(n + 1)
  {
  }

  lemma LatestStep(r: Revert, r': Revert, first: Obs, n: nat, obs: Obs)
    requires n < 4 && NoFresh(r.reverts) && StageOf(r) == Initialize
    requires r' == r.(reverts := LatestRecords(r, first, n))
    requires PlanFor(r', obs).result.Some? && (n == 0 ==> obs == first)
    ensures PlanFor(r', obs).result.value ==
      r.(reverts := LatestRecords(r, first, n + 1), action := if n == 3 then r.action.(kind := Idle) else r.action)
  {
    if n == 0 {
      LatestFirst(r, obs);
    } else {
      LatestNext(r, r', first, n, obs);
    }
    StoredStepLowersRank(r', obs);
  }

  /** A `latest` request that meets no stored record in progress takes exactly four stored steps, through "init",
      "paused", "reverted" and "finished", adds one record with the replicas and claims found by the first of them,
      and is idle after the last and not before. */
  lemma {:induction false} LatestAddsOneRecord(r: Revert, answers: seq<Obs>, n: nat)
    requires NoFresh(r.reverts) && StageOf(r) == Initialize
    requires n <= |answers| <= 4 && Chain(r, answers[..n]).Some?
    ensures var first := if n == 0 then NO_ANSWERS else answers[0];
      Chain(r, answers[..n]).value ==
        r.(reverts := LatestRecords(r, first, n), action := if n == 4 then r.action.(kind := Idle) else r.action)
  {
    if n > 0 {
      ChainLast(r, answers, n - 1);
      LatestAddsOneRecord(r, answers, n - 1);
      var before := Chain(r, answers[..n - 1]).value;
      LatestStep(r, before, answers[0], n - 1, answers[n - 1]);
    }
  }

  function UndoRecords(r: Revert, n: nat): seq<Details>
    requires r.reverts != [] && n <= 3
  {
    match n
    case 0 => r.reverts
    case 1 => SetState(r.reverts, Paused)
    case 2 => SetState(r.reverts, Undone)
    case _ => r.reverts[..|r.reverts| - 1]
  }

  lemma UndoStep(r: Revert, r': Revert, n: nat, obs: Obs)
    requires n < 3 && NoFresh(r.reverts) && StageOf(r) == UndoPause
    requires r' == r.(reverts := UndoRecords(r, n))
    requires PlanFor(r', obs).result.Some?
    ensures PlanFor(r', obs).result.value ==
      r.(reverts := UndoRecords(r, n + 1), action := if n == 2 then r.action.(kind := Idle) else r.action)
  {
    UndoStage(r, r', n);
    StoredStepLowersRank(r', obs);
    assert Outcome(r', obs).reverts == UndoRecords(r, n + 1);
  }

  lemma UndoStage(r: Revert, r': Revert, n: nat)
    requires n < 3 && StageOf(r) == UndoPause && r.reverts != []
    requires r' == r.(reverts := UndoRecords(r, n))
    ensures StageOf(r') == if n == 0 then UndoPause else if n == 1 then Restore else UndoResume
    ensures NoFresh(r.reverts) ==> NoFresh(r'.reverts)
  {
  }

  /** An `undo` request on a finished record takes exactly three stored steps, through "paused" and "undone", drops
      that record and no other, and is idle after the last and not before. */
  lemma {:induction false} UndoDropsOneRecord(r: Revert, answers: seq<Obs>, n: nat)
    requires NoFresh(r.reverts) && StageOf(r) == UndoPause
    requires n <= |answers| <= 3 && Chain(r, answers[..n]).Some?
    ensures Chain(r, answers[..n]).value ==
      r.(reverts := UndoRecords(r, n), action := if n == 3 then r.action.(kind := Idle) else r.action)
  {
    if n > 0 {
      ChainLast(r, answers, n - 1);
      UndoDropsOneRecord(r, answers, n - 1);
      UndoStep(r, Chain(r, answers[..n - 1]).value, n - 1, answers[n - 1]);
    }
  }

  // ---- Whole runs ----

  predicate NoEdits(labels: seq<Label>) {
    forall l <- labels :: l.Outside? ==> !l.e.EditAction?
  }

  predicate Advances(w: World) {
    && w.worker.Busy? && w.worker.at < |w.worker.ops|
    && w.worker.ops[w.worker.at].UpdateRevert? && Rank(w.worker.r) > 0
  }

  /** The number of stored steps of a run that are part of a request. */
  ghost function StoredSteps(w: World, labels: seq<Label>): nat {
    if labels == [] then 0
    else
      var before := labels[..|labels| - 1];
      StoredSteps(w, before) +
      if labels[|labels| - 1] == Call && Exec(w, before).Some? && Advances(Exec(w, before).value) then 1 else 0
  }

  ghost predicate UpToDate(w: World) {
    match w.worker
    case Waiting => true
    case Loaded(r) => r == w.c.stored
    case Busy(r, ops, _) => r == w.c.stored && exists obs :: ops == AllOps(r, obs)
  }

  lemma UpdateStoresResult(r: Revert, obs: Obs, at: nat)
    requires NoFresh(r.reverts) && at < |AllOps(r, obs)| && AllOps(r, obs)[at].UpdateRevert?
    ensures Rank(AllOps(r, obs)[at].next) == if Rank(r) > 0 then Rank(r) - 1 else 0
  {
    UpdateIsResult(r, obs, at);
    StoredStepLowersRank(r, obs);
    StageStuckStoresNothing(r, obs);
    if Rank(r) == 0 {
      RestStaysAtRest(r);
    }
  }

  lemma StageStuckStoresNothing(r: Revert, obs: Obs)
    requires PlanFor(r, obs).result.Some?
    ensures StageOf(r) != Stuck
  {
  }

  lemma UpdateIsResult(r: Revert, obs: Obs, at: nat)
    requires at < |AllOps(r, obs)| && AllOps(r, obs)[at].UpdateRevert?
    ensures PlanFor(r, obs).result.Some? && AllOps(r, obs)[at].next == PlanFor(r, obs).result.value
  {
    var ops := PlanFor(r, obs).ops;
    PreludeAside(r, obs);
    StageStoresNothing(r, obs);
    assert forall op <- ops :: op in Prelude(r, obs) || op in StagePlan(r, obs).ops;
    assert forall i | 0 <= i < |ops| :: ops[i] in ops && AllOps(r, obs)[i] == ops[i];
  }

  lemma RestStaysAtRest(r: Revert)
    requires NoFresh(r.reverts) && Rank(r) == 0 && StageOf(r) != Stuck
    ensures Rank(Trim(r)) == 0
  {
    TrimmedLast(r.reverts, r.keepStatus);
  }

  /** Only storing the object moves the rank. */
  lemma QuietStepKeepsRank(w: World, l: Label)
    requires UpToDate(w) && Step(w, l).Some?
    requires l.Outside? ==> !l.e.EditAction?
    requires l == Call ==> !w.worker.ops[w.worker.at].UpdateRevert?
    ensures UpToDate(Step(w, l).value) && Step(w, l).value.c.stored == w.c.stored
  {
  }

  lemma UpdateSpendsRank(count: nat, w: World)
    requires Sound(count, w) && UpToDate(w) && Step(w, Call).Some? && w.worker.ops[w.worker.at].UpdateRevert?
    ensures Rank(w.c.stored) == Rank(Step(w, Call).value.c.stored) + if Rank(w.worker.r) > 0 then 1 else 0
  {
    var Busy(r, ops, at) := w.worker;
    assert NoFresh(r.reverts);
    assert TameOp(count, r, ops[at]);
    var obs :| ops == AllOps(r, obs);
    UpdateStoresResult(r, obs, at);
  }

  lemma StepSpendsRank(count: nat, w: World, l: Label)
    requires Sound(count, w) && UpToDate(w) && Step(w, l).Some?
    requires l.Outside? ==> !l.e.EditAction?
    ensures var m := Step(w, l).value;
      UpToDate(m) && Rank(w.c.stored) == Rank(m.c.stored) + if l == Call && Advances(w) then 1 else 0
  {
    if l == Call && w.worker.ops[w.worker.at].UpdateRevert? {
      UpdateSpendsRank(count, w);
    } else {
      QuietStepKeepsRank(w, l);
    }
  }

  /** In a run in which the action is not edited, the stored steps taken and the rank of the stored object always add
      up to the rank at the start: failures change nothing, no request takes a step too many, and once the rank is
      used up no further step is stored. */
  lemma {:induction false} StepsSpendRank(count: nat, w: World, labels: seq<Label>)
    requires Sound(count, w) && w.worker == Waiting && NoEdits(labels) && Exec(w, labels).Some?
    ensures var m := Exec(w, labels).value;
      Sound(count, m) && UpToDate(m) && StoredSteps(w, labels) + Rank(m.c.stored) == Rank(w.c.stored)
  {
    if labels != [] {
      var before, l := labels[..|labels| - 1], labels[|labels| - 1];
      assert l in labels;
      StepsSpendRank(count, w, before);
      StepKeepsSound(count, Exec(w, before).value, l);
      StepSpendsRank(count, Exec(w, before).value, l);
    }
  }
}
