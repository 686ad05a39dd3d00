/** Undo is last in, first out: whenever the stack of records is back where it was, the claims are what they were. */
module RevertUndo {
  import opened Wrappers
  import opened Types
  import opened RevertCluster
  import opened RevertPlan
  import opened RevertMachine
  import opened Selection
  import opened RevertDowntime
  import opened RevertClaims

  /** Same name, namespace, labels and whole spec, the volume included. */
  predicate Same(a: Claim, b: Claim) {
    a.Key() == b.Key() && a.labels == b.labels && a.spec == b.spec
  }

  predicate Selected(c: Cluster, k: Key) {
    k in c.claims && Matches(c.sts.selector, c.claims[k].labels)
  }

  /** No revert in progress, and the claims of the application name their volumes. */
  ghost predicate Settled(count: nat, w: World) {
    && Sound(count, w) && w.worker == Waiting
    && (w.c.stored.reverts == [] || Last(w.c.stored.reverts).state == Finished)
    && (forall k <- w.c.claims :: Selected(w.c, k) ==> w.c.claims[k].spec.volumeName != "")
  }

  /** The records present at the start stay, and retention drops none. */
  predicate OnTop(base: seq<Details>, r: Revert) {
    base <= r.reverts && (r.keepStatus == 0 || |r.reverts| < r.keepStatus)
  }

  ghost predicate Steady(w0: World, labels: seq<Label>) {
    && (labels == [] || Steady(w0, labels[..|labels| - 1]))
    && (Exec(w0, labels).Some? ==> OnTop(w0.c.stored.reverts, Exec(w0, labels).value.c.stored))
  }

  /** A record's claims are those the selector picked at the start, with their labels. */
  ghost predicate OnKeys(c0: Cluster, claims: seq<Claim>) {
    && (forall claim <- claims :: Selected(c0, claim.Key()) && claim.labels == c0.claims[claim.Key()].labels)
    && (forall k <- c0.claims :: Selected(c0, k) ==> exists claim <- claims :: claim.Key() == k)
  }

  ghost predicate Originals(c0: Cluster, claims: seq<Claim>) {
    forall claim <- claims :: claim.Key() in c0.claims && Same(c0.claims[claim.Key()], claim)
  }

  predicate Present(c0: Cluster, c: Cluster) {
    forall k <- c0.claims :: Selected(c0, k) ==> k in c.claims
  }

  predicate Intact(c0: Cluster, c: Cluster) {
    forall k <- c0.claims :: Selected(c0, k) ==> k in c.claims && Same(c0.claims[k], c.claims[k])
  }

  /** What never changes about the claims as a whole. */
  predicate Frame(c0: Cluster, c: Cluster) {
    && c.sts.selector == c0.sts.selector
    && (forall k <- c.claims :: k in c0.claims && c.claims[k].labels == c0.claims[k].labels && c.claims[k].Key() == k)
    && (forall k <- c0.claims :: !Selected(c0, k) ==> k in c.claims && Settles(c0.claims[k], c.claims[k]))
    && (forall k <- c0.claims :: c0.claims[k].Key() == k && (Selected(c0, k) ==> c0.claims[k].spec.volumeName != ""))
  }

  ghost predicate RecordsStacked(c0: Cluster, reverts: seq<Details>) {
    var b := |c0.stored.reverts|;
    && c0.stored.reverts <= reverts
    && (c0.stored.reverts == [] || Last(c0.stored.reverts).state == Finished)
    && (forall i | b <= i < |reverts| :: OnKeys(c0, reverts[i].oldClaims))
    && (|reverts| > b ==> Originals(c0, reverts[b].oldClaims))
  }

  /** The live claims, as far as the last record determines them. */
  ghost predicate ClaimsStacked(c0: Cluster, c: Cluster, reverts: seq<Details>) {
    if |reverts| <= |c0.stored.reverts| then Intact(c0, c)
    else
      && (Last(reverts).state != Paused ==> Present(c0, c))
      && (Last(reverts).state == Undone ==> RestoredFrom(c, Last(reverts).oldClaims))
  }

  predicate RestoredFrom(c: Cluster, claims: seq<Claim>) {
    forall claim <- claims :: claim.Key() in c.claims && Settles(Restoring(claim), c.claims[claim.Key()])
  }

  /** The same key and labels, and no other volume. */
  predicate Recreates(made: Claim, claim: Claim) {
    claim.Key() == made.Key() && claim.labels == made.labels && made.spec.volumeName in {"", claim.spec.volumeName}
  }

  /** Claims are deleted and created only for the claims of the last record. */
  ghost predicate OnOld(r: Revert, op: Op) {
    match op
    case DeletePVC(k) => r.reverts != [] && exists claim <- Last(r.reverts).oldClaims :: claim.Key() == k
    case CreatePVC(made) => r.reverts != [] &&
      exists claim <- Last(r.reverts).oldClaims :: Recreates(made, claim)
    case _ => true
  }

  ghost predicate WorkerStacked(c0: Cluster, c: Cluster, worker: Worker) {
    worker.Busy? ==>
      && worker.at <= |worker.ops|
      && (forall op <- worker.ops :: OnOld(worker.r, op))
      && (worker.at > 0 && worker.ops[worker.at - 1].ListClaims? && StageOf(worker.r) == Initialize ==>
            Listed(c0, c, worker.ops[worker.at - 1].found))
  }

  ghost predicate Listed(c0: Cluster, c: Cluster, found: seq<Claim>) {
    OnKeys(c0, found) && (|c.stored.reverts| <= |c0.stored.reverts| ==> Originals(c0, found))
  }

  ghost predicate Stacked(c0: Cluster, w: World) {
    && Frame(c0, w.c)
    && RecordsStacked(c0, w.c.stored.reverts)
    && ClaimsStacked(c0, w.c, w.c.stored.reverts)
    && WorkerStacked(c0, w.c, w.worker)
  }

  lemma RetireOnOld(claims: seq<Claim>, volumes: seq<(Volume, Volume)>)
    ensures forall op <- RetireAll(claims, volumes) :: op.DeletePVC? ==> exists claim <- claims :: claim.Key() == op.key
    ensures forall op <- RetireAll(claims, volumes) :: !op.CreatePVC?
  {
    if claims != [] {
      RetireOnOld(claims[..|claims| - 1], volumes);
      assert forall claim <- claims[..|claims| - 1] :: claim in claims;
      assert claims[|claims| - 1] in claims;
    }
  }

  /** The same, in terms of the claims alone. */
  ghost predicate OnClaims(claims: seq<Claim>, op: Op) {
    match op
    case DeletePVC(k) => exists claim <- claims :: claim.Key() == k
    case CreatePVC(made) => exists claim <- claims :: Recreates(made, claim)
    case _ => true
  }

  lemma ReplaceOpsOnOld(stsType: Option<StatefulSetType>, claims: seq<Claim>, chosen: map<string, Snapshot>,
      volumes: seq<(Volume, Volume)>)
    ensures forall op <- ReplaceOps(stsType, claims, chosen, volumes) :: OnClaims(claims, op)
  {
    RetireOnOld(claims, volumes);
    forall i | 0 <= i < |claims| ensures OnClaims(claims, CreateAll(stsType, claims, chosen)[i]) {
      assert claims[i] in claims;
    }
  }

  lemma ReplaceOnOld(r: Revert, obs: Obs)
    requires StageOf(r) == Replace
    ensures forall op <- StagePlan(r, obs).ops :: OnOld(r, op)
  {
    PausedStage(r);
    var claims := LastOf(r).oldClaims;
    var chosen := Select(claims, obs.snaps, obs.failed, r.action.fromTime, r.action.toTime);
    if chosen.Some? {
      ReplaceOpsOnOld(r.stsType, claims, chosen.value, obs.volumes);
      forall op | op in StagePlan(r, obs).ops ensures OnOld(r, op) {
        assert op.ListSnapshots? || op in ReplaceOps(r.stsType, claims, chosen.value, obs.volumes);
      }
    }
  }

  lemma RestoreOnOld(r: Revert, obs: Obs)
    requires StageOf(r) == Restore
    ensures forall op <- StagePlan(r, obs).ops :: OnOld(r, op)
  {
    var claims := Last(r.reverts).oldClaims;
    forall i | 0 <= i < |claims| ensures claims[i] in claims {}
  }

  lemma PlanOnOld(r: Revert, obs: Obs)
    ensures forall op <- AllOps(r, obs) :: OnOld(r, op)
  {
    AllOpsParts(r, obs);
    PreludeAside(r, obs);
    match StageOf(r)
    case Replace => ReplaceOnOld(r, obs);
    case Restore => RestoreOnOld(r, obs);
    case _ => assert forall op <- StagePlan(r, obs).ops :: OnOld(r, op);
  }

  lemma EventKeepsFrame(c0: Cluster, c: Cluster, e: Event)
    requires Frame(c0, c) && Possible(c, e)
    ensures Frame(c0, Change(c, e))
  {
  }

  lemma EventKeepsClaims(c0: Cluster, c: Cluster, e: Event, reverts: seq<Details>)
    requires Frame(c0, c) && Possible(c, e) && ClaimsStacked(c0, c, reverts)
    ensures ClaimsStacked(c0, Change(c, e), reverts)
  {
    if |reverts| <= |c0.stored.reverts| {
      EventKeepsIntact(c0, c, e);
    } else {
      EventKeepsPresent(c0, c, e);
      EventKeepsRestored(c, e, Last(reverts).oldClaims);
    }
  }

  lemma EventKeepsIntact(c0: Cluster, c: Cluster, e: Event)
    requires Frame(c0, c) && Possible(c, e) && Intact(c0, c)
    ensures Intact(c0, Change(c, e))
  {
  }

  lemma EventKeepsPresent(c0: Cluster, c: Cluster, e: Event)
    requires Possible(c, e) && Frame(c0, c)
    ensures Present(c0, c) ==> Present(c0, Change(c, e))
  {
  }

  lemma EventKeepsRestored(c: Cluster, e: Event, claims: seq<Claim>)
    requires Possible(c, e)
    ensures RestoredFrom(c, claims) ==> RestoredFrom(Change(c, e), claims)
  {
  }

  lemma EventKeepsStacked(c0: Cluster, w: World, e: Event)
    requires Stacked(c0, w) && Possible(w.c, e)
    ensures Stacked(c0, w.(c := Change(w.c, e)))
  {
    EventKeepsFrame(c0, w.c, e);
    EventKeepsClaims(c0, w.c, e, w.c.stored.reverts);
    assert Change(w.c, e).stored.reverts == w.c.stored.reverts;
  }

  lemma DeleteKeepsFrame(c0: Cluster, c: Cluster, r: Revert, op: Op)
    requires Frame(c0, c) && op.DeletePVC? && OnOld(r, op)
    requires OnKeys(c0, Last(r.reverts).oldClaims)
    ensures Frame(c0, Effect(c, op))
  {
  }

  lemma CreateKeepsFrame(c0: Cluster, c: Cluster, r: Revert, op: Op)
    requires Frame(c0, c) && op.CreatePVC? && OnOld(r, op)
    requires OnKeys(c0, Last(r.reverts).oldClaims)
    ensures Frame(c0, Effect(c, op))
  {
    var claim :| claim in Last(r.reverts).oldClaims && claim.Key() == op.claim.Key() && claim.labels == op.claim.labels;
    assert Selected(c0, op.claim.Key());
  }

  /** Calls on claims happen while the last record is paused, and only on its claims. */
  lemma ClaimCallKeepsStacked(count: nat, c0: Cluster, w: World)
    requires Sound(count, w) && Stacked(c0, w) && w.worker.Busy? && w.worker.at < |w.worker.ops|
    requires var op := w.worker.ops[w.worker.at]; Accepts(w.c, op) && ChangesClaims(op)
    ensures Stacked(c0, AfterCall(w))
  {
    var Busy(r, ops, at) := w.worker;
    assert TameOp(count, r, ops[at]);
    assert OnOld(r, ops[at]);
    PausedIsOnTop(c0, r.reverts);
    if ops[at].DeletePVC? {
      DeleteKeepsFrame(c0, w.c, r, ops[at]);
    } else {
      CreateKeepsFrame(c0, w.c, r, ops[at]);
    }
    assert ClaimsStacked(c0, Effect(w.c, ops[at]), r.reverts);
  }

  lemma PausedIsOnTop(c0: Cluster, reverts: seq<Details>)
    requires RecordsStacked(c0, reverts) && reverts != [] && Last(reverts).state != Finished
    ensures |reverts| > |c0.stored.reverts| && OnKeys(c0, Last(reverts).oldClaims)
  {
  }

  lemma PlainCallKeepsStacked(count: nat, c0: Cluster, w: World)
    requires Sound(count, w) && Stacked(c0, w) && w.worker.Busy? && w.worker.at < |w.worker.ops|
    requires var op := w.worker.ops[w.worker.at]; Accepts(w.c, op) && !ChangesClaims(op) && !op.UpdateRevert?
    ensures Stacked(c0, AfterCall(w))
  {
    var Busy(r, ops, at) := w.worker;
    PlainCallKeepsClaims(c0, w.c, ops[at]);
    if ops[at].ListClaims? && StageOf(r) == Initialize {
      ListingIsStacked(count, c0, w.c, ops[at].found);
    }
  }

  lemma PlainCallKeepsClaims(c0: Cluster, c: Cluster, op: Op)
    requires !ChangesClaims(op) && !op.UpdateRevert?
    ensures Effect(c, op).claims == c.claims && Effect(c, op).stored == c.stored
    ensures Effect(c, op).sts.selector == c.sts.selector
    ensures Frame(c0, c) ==> Frame(c0, Effect(c, op))
    ensures ClaimsStacked(c0, c, c.stored.reverts) ==> ClaimsStacked(c0, Effect(c, op), c.stored.reverts)
  {
  }

  lemma ListingIsStacked(count: nat, c0: Cluster, c: Cluster, found: seq<Claim>)
    requires Frame(c0, c) && ClaimsStacked(c0, c, c.stored.reverts) && Lists(found, c.claims, c.sts.selector)
    requires c.stored.reverts == [] || Last(c.stored.reverts).state == Finished
    ensures Listed(c0, c, found)
  {
    forall k | k in c0.claims && Selected(c0, k) ensures exists claim <- found :: claim.Key() == k {
      assert k in c.claims && c.claims[k] in found;
    }
  }

  // ---- Storing the object ----

  lemma RoomyKeepsAll(r: Revert, ops: seq<Op>)
    requires r.keepStatus == 0 || |r.reverts| < r.keepStatus
    ensures Retain(r, Grown(r, ops)) == Grown(r, ops)
  {
  }

  /** The records after a processing, when none is dropped and those of the start stay. */
  lemma GrownStacked(count: nat, c0: Cluster, c: Cluster, r: Revert, ops: seq<Op>)
    requires Shape(count, r.reverts) && RecordsStacked(c0, r.reverts) && c0.stored.reverts <= Grown(r, ops)
    requires c.stored.reverts == r.reverts
    requires StageOf(r) == Initialize ==>
        |ops| == 3 && ops[0].ReadSts? && ops[1].ListClaims? && Listed(c0, c, ops[1].found)
    ensures RecordsStacked(c0, Grown(r, ops))
  {
    var grown, b := Grown(r, ops), |c0.stored.reverts|;
    GrownOldClaims(r, ops);
    forall i | b <= i < |grown| ensures OnKeys(c0, grown[i].oldClaims) {
      assert i < |r.reverts| ==> OnKeys(c0, r.reverts[i].oldClaims);
    }
  }

  lemma GrownOldClaims(r: Revert, ops: seq<Op>)
    ensures var grown := Grown(r, ops);
      && |grown| <= |r.reverts| + 1
      && (forall i | 0 <= i < |grown| && i < |r.reverts| :: grown[i].oldClaims == r.reverts[i].oldClaims)
      && (|grown| > |r.reverts| ==>
            StageOf(r) == Initialize && |ops| == 3 && ops[1].ListClaims?
              && grown[|r.reverts|].oldClaims == ops[1].found)
  {
  }

  /** After replacing, every claim is there; after restoring, every claim is what the record says. */
  lemma CompletedClaims(count: nat, c0: Cluster, m: World)
    requires Sound(count, m) && Tracked(m) && (Completes(m, Replace) || Completes(m, Restore))
    requires OnKeys(c0, Last(m.worker.r.reverts).oldClaims)
    ensures Present(c0, m.c)
    ensures StageOf(m.worker.r) == Restore ==> RestoredFrom(m.c, Last(m.worker.r.reverts).oldClaims)
  {
    if StageOf(m.worker.r) == Replace {
      ReplaceCompletes(count, m);
    } else {
      RestoreCompletes(count, m);
    }
  }

  /** Going back below a restored record whose claims are the originals makes the claims intact again. */
  lemma PopIsIntact(c0: Cluster, c: Cluster, claims: seq<Claim>)
    requires Frame(c0, c) && OnKeys(c0, claims) && Originals(c0, claims) && RestoredFrom(c, claims)
    ensures Intact(c0, c)
  {
  }

  lemma PopClaims(c0: Cluster, c: Cluster, r: Revert, ops: seq<Op>)
    requires Frame(c0, c) && RecordsStacked(c0, r.reverts) && ClaimsStacked(c0, c, r.reverts)
    requires StageOf(r) == UndoResume
    requires c0.stored.reverts <= Grown(r, ops)
    requires forall i | 0 <= i < |r.reverts| - 1 :: r.reverts[i].state == Finished
    ensures ClaimsStacked(c0, c, Grown(r, ops))
  {
    PausedIsOnTop(c0, r.reverts);
    var b := |c0.stored.reverts|;
    if |r.reverts| == b + 1 {
      assert OnKeys(c0, r.reverts[b].oldClaims);
      PopIsIntact(c0, c, r.reverts[b].oldClaims);
    } else {
      assert Last(Grown(r, ops)) == r.reverts[|r.reverts| - 2];
    }
  }

  lemma AdvanceClaims(count: nat, c0: Cluster, c: Cluster, r: Revert, ops: seq<Op>)
    requires Shape(count, r.reverts) && RecordsStacked(c0, r.reverts) && ClaimsStacked(c0, c, r.reverts)
    requires StageOf(r) in {Initialize, Pause, UndoPause, Resume, Rest}
    requires StageOf(r) == Initialize ==> |ops| == 3 && ops[0].ReadSts? && ops[1].ListClaims?
    requires c0.stored.reverts <= Grown(r, ops)
    ensures ClaimsStacked(c0, c, Grown(r, ops))
  {
    var grown, b := Grown(r, ops), |c0.stored.reverts|;
    if r.reverts != [] {
      assert Last(r.reverts) in r.reverts;
    }
    if |grown| <= b {
      assert grown == c0.stored.reverts;
      assert StageOf(r) == Rest;
    } else if StageOf(r) == Initialize {
      assert r.reverts == [] || Last(r.reverts).state == Finished;
    }
  }

  lemma GrownClaims(count: nat, c0: Cluster, m: World)
    requires Sound(count, m) && Tracked(m) && Stacked(c0, m)
    requires m.worker.Busy? && m.worker.at < |m.worker.ops| && m.worker.ops[m.worker.at].UpdateRevert?
    requires c0.stored.reverts <= Grown(m.worker.r, m.worker.ops)
    ensures ClaimsStacked(c0, m.c, Grown(m.worker.r, m.worker.ops))
  {
    var Busy(r, ops, at) := m.worker;
    assert TameAt(r, ops, at);
    match StageOf(r)
    case UndoResume => PopClaims(c0, m.c, r, ops);
    case Replace => ReplacedClaims(count, c0, m);
    case Restore => ReplacedClaims(count, c0, m);
    case _ => AdvanceClaims(count, c0, m.c, r, ops);
  }

  lemma ReplacedClaims(count: nat, c0: Cluster, m: World)
    requires Sound(count, m) && Tracked(m) && (Completes(m, Replace) || Completes(m, Restore))
    requires RecordsStacked(c0, m.worker.r.reverts) && c0.stored.reverts <= Grown(m.worker.r, m.worker.ops)
    ensures ClaimsStacked(c0, m.c, Grown(m.worker.r, m.worker.ops))
  {
    RebuiltIsOnTop(c0, m.worker.r);
    CompletedClaims(count, c0, m);
    RebuiltAreStacked(c0, m.c, m.worker.r, m.worker.ops);
  }

  lemma RebuiltIsOnTop(c0: Cluster, r: Revert)
    requires (StageOf(r) == Replace || StageOf(r) == Restore) && RecordsStacked(c0, r.reverts)
    ensures |r.reverts| > |c0.stored.reverts| && OnKeys(c0, Last(r.reverts).oldClaims)
  {
    PausedIsOnTop(c0, r.reverts);
  }

  lemma RebuiltAreStacked(c0: Cluster, c: Cluster, r: Revert, ops: seq<Op>)
    requires (StageOf(r) == Replace || StageOf(r) == Restore) && |r.reverts| > |c0.stored.reverts| && Present(c0, c)
    requires StageOf(r) == Restore ==> RestoredFrom(c, Last(r.reverts).oldClaims)
    ensures ClaimsStacked(c0, c, Grown(r, ops))
  {
    ReplacedTop(r, ops);
  }

  lemma ReplacedTop(r: Revert, ops: seq<Op>)
    requires StageOf(r) == Replace || StageOf(r) == Restore
    ensures var grown := Grown(r, ops);
      && |grown| == |r.reverts| && Last(grown).oldClaims == Last(r.reverts).oldClaims
      && Last(grown).state == if StageOf(r) == Replace then Reverted else Undone
  {
  }

  lemma UpdateKeepsStacked(count: nat, c0: Cluster, w: World)
    requires Sound(count, w) && Tracked(w) && Stacked(c0, w) && w.worker.Busy? && w.worker.at < |w.worker.ops|
    requires var op := w.worker.ops[w.worker.at]; Accepts(w.c, op) && op.UpdateRevert?
    requires OnTop(c0.stored.reverts, w.c.stored)
    requires c0.stored.reverts <= AfterCall(w).c.stored.reverts
    ensures Stacked(c0, AfterCall(w))
  {
    var Busy(r, ops, at) := w.worker;
    assert TameAt(r, ops, at);
    GrownIsStored(count, w, c0.stored.reverts);
    GrownStacked(count, c0, w.c, r, ops);
    GrownClaims(count, c0, w);
    StoredStacked(c0, w.c, ops[at].next);
    assert AfterCall(w).c == w.c.(stored := ops[at].next) && AfterCall(w).worker == Waiting;
  }

  /** Storing changes no claim. */
  lemma StoredStacked(c0: Cluster, c: Cluster, next: Revert)
    requires Frame(c0, c) && RecordsStacked(c0, next.reverts) && ClaimsStacked(c0, c, next.reverts)
    ensures var d := c.(stored := next);
      Frame(c0, d) && RecordsStacked(c0, d.stored.reverts) && ClaimsStacked(c0, d, d.stored.reverts)
  {
  }

  lemma GrownIsStored(count: nat, w: World, base: seq<Details>)
    requires Sound(count, w) && w.worker.Busy? && w.worker.at < |w.worker.ops|
    requires var op := w.worker.ops[w.worker.at]; Accepts(w.c, op) && op.UpdateRevert?
    requires OnTop(base, w.c.stored) && base <= AfterCall(w).c.stored.reverts
    ensures w.worker.ops[w.worker.at].next.reverts == Grown(w.worker.r, w.worker.ops)
  {
    var Busy(r, ops, at) := w.worker;
    assert TameOp(count, r, ops[at]) && TameAt(r, ops, at);
    RoomyKeepsAll(r, ops);
  }

  lemma StepKeepsStacked(count: nat, c0: Cluster, w: World, l: Label)
    requires Sound(count, w) && Tracked(w) && Stacked(c0, w) && Step(w, l).Some?
    requires OnTop(c0.stored.reverts, w.c.stored) && OnTop(c0.stored.reverts, Step(w, l).value.c.stored)
    ensures Stacked(c0, Step(w, l).value)
  {
    match l
    case Outside(e) => EventKeepsStacked(c0, w, e);
    case Load =>
    case Drop =>
    case Begin(obs) => PlanOnOld(w.worker.r, obs);
    case Call =>
      var op := w.worker.ops[w.worker.at];
      if op.UpdateRevert? {
        UpdateKeepsStacked(count, c0, w);
      } else if ChangesClaims(op) {
        ClaimCallKeepsStacked(count, c0, w);
      } else {
        PlainCallKeepsStacked(count, c0, w);
      }
  }

  lemma {:induction false} AlwaysStacked(count: nat, w0: World, labels: seq<Label>)
    requires Settled(count, w0) && Steady(w0, labels) && Exec(w0, labels).Some?
    ensures var m := Exec(w0, labels).value; Sound(count, m) && Tracked(m) && Stacked(w0.c, m)
  {
    if labels != [] {
      var before := labels[..|labels| - 1];
      AlwaysStacked(count, w0, before);
      var m := Exec(w0, before).value;
      StepKeepsSound(count, m, labels[|labels| - 1]);
      StepKeepsTracked(m, labels[|labels| - 1]);
      assert Steady(w0, before);
      StepKeepsStacked(count, w0.c, m, labels[|labels| - 1]);
    }
  }

  lemma SameRecords(base: seq<Details>, reverts: seq<Details>)
    requires base <= reverts && |reverts| == |base|
    ensures reverts == base
  {
  }

  /** Undo is last in, first out: take any run, with any failures, that never goes below the records it started with
      and in which retention drops none. Whenever all reverts made on top have been undone, exactly the claims of
      the start are there again, each with its name, namespace and labels; those of the application have their
      whole spec back, the volume included, and the others are as they were up to binding. */
  lemma UndoIsLastInFirstOut(count: nat, w0: World, labels: seq<Label>)
    requires Settled(count, w0) && Steady(w0, labels) && Exec(w0, labels).Some?
    requires |Exec(w0, labels).value.c.stored.reverts| == |w0.c.stored.reverts|
    ensures var c0, c := w0.c, Exec(w0, labels).value.c;
      && c.stored.reverts == c0.stored.reverts
      && c.claims.Keys == c0.claims.Keys
      && (forall k <- c0.claims :: Selected(c0, k) ==> Same(c0.claims[k], c.claims[k]))
      && (forall k <- c0.claims :: !Selected(c0, k) ==> Settles(c0.claims[k], c.claims[k]))
  {
    AlwaysStacked(count, w0, labels);
    SameRecords(w0.c.stored.reverts, Exec(w0, labels).value.c.stored.reverts);
  }
}
