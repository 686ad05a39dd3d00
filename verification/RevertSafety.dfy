/** No original data is lost: a volume named by the old claims of a kept record still exists, in every run in which
    the action is edited only while no request is pending. */
module RevertSafety {
  import opened Wrappers
  import opened Types
  import opened RevertCluster
  import opened RevertPlan
  import opened RevertMachine
  import opened RevertDowntime

  predicate Retained(c: Cluster, volume: string) {
    volume in c.volumes && c.volumes[volume].retain
  }

  /** The recorded claim is still the live one and its volume is bound to it, so nothing can reclaim the volume. */
  predicate Pinned(c: Cluster, claim: Claim) {
    && claim.Key() in c.claims && c.claims[claim.Key()].uid == claim.uid
    && claim.spec.volumeName in c.volumes
    && c.volumes[claim.spec.volumeName].claimRef == Some(ClaimRef(claim.Key(), claim.uid))
  }

  predicate Protected(c: Cluster, claim: Claim) {
    claim.bound ==> Retained(c, claim.spec.volumeName) || Pinned(c, claim)
  }

  predicate Outlives(c: Cluster, claim: Claim) {
    claim.bound ==> Retained(c, claim.spec.volumeName)
  }

  /** A revert that has not yet replaced the claims of its last record. */
  predicate Forward(r: Revert) {
    r.action.kind == Latest && (TopIs(r.reverts, Init) || TopIs(r.reverts, Paused))
  }

  predicate Pending(r: Revert) { r.action.kind == Latest || r.action.kind == Undo }

  /** A request only meets the states it produces itself. */
  predicate InOrder(r: Revert) {
    r.reverts == [] || Last(r.reverts).state == Finished ||
    match r.action.kind
    case Latest => Last(r.reverts).state in {Init, Paused, Reverted}
    case Undo => Last(r.reverts).state in {Paused, Undone}
    case _ => false
  }

  predicate ClaimsSafe(c: Cluster, claims: seq<Claim>, forward: bool) {
    forall claim <- claims :: if forward then Protected(c, claim) else Outlives(c, claim)
  }

  predicate RecordsSafe(c: Cluster, reverts: seq<Details>, forward: bool) {
    forall i | 0 <= i < |reverts| :: ClaimsSafe(c, reverts[i].oldClaims, forward && i == |reverts| - 1)
  }

  /** After this call the volume is known to survive the loss of its claim. */
  predicate Secures(op: Op, volume: string) {
    match op
    case GetPV(v, read) => v == volume && read.retain
    case UpdatePV(v, _, write) => v == volume && write.retain
    case _ => false
  }

  ghost predicate Before(ops: seq<Op>, j: nat, volume: string)
    requires j <= |ops|
  {
    exists i | 0 <= i < j :: Secures(ops[i], volume)
  }

  /** In the stage that replaces claims, a claim is deleted and a volume is handed back only after the volume of the
      claim has been secured, and all of them have been secured in the end. */
  ghost predicate CarefulAt(claims: seq<Claim>, ops: seq<Op>, j: nat)
    requires j < |ops|
  {
    match ops[j]
    case DeletePVC(k) => forall claim <- claims | claim.Key() == k :: Before(ops, j, claim.spec.volumeName)
    case UpdatePV(v, read, write) => (write.retain || Before(ops, j, v)) && (read.retain ==> write.retain)
    case UpdateRevert(_, _) => forall claim <- claims :: Before(ops, j, claim.spec.volumeName)
    case _ => true
  }

  predicate HandlesVolumes(op: Op) { op.UpdatePV? || op.DeletePVC? }

  ghost predicate Careful(r: Revert, ops: seq<Op>) {
    && (StageOf(r) == Replace ==> forall j: nat | j < |ops| :: CarefulAt(Last(r.reverts).oldClaims, ops, j))
    && (StageOf(r) != Replace ==> forall op <- ops :: !op.UpdatePV? && (op.DeletePVC? ==> StageOf(r) == Restore))
    && (forall op <- ops | op.UpdateRevert? ::
          op.next.action.kind == if Resuming(StageOf(r)) then Idle else r.action.kind)
    && (StageOf(r) == Rest && !Pending(r) ==> ops == [UpdateRevert(r, r)])
  }

  ghost predicate WorkerSafe(c: Cluster, worker: Worker) {
    match worker
    case Waiting => true
    case Loaded(r) => r == c.stored || !Pending(r)
    case Busy(r, ops, at) =>
      && (r == c.stored || !Pending(r))
      && at <= |ops|
      && Careful(r, ops)
      && (forall i | 0 <= i < at :: forall v: string :: Secures(ops[i], v) ==> Retained(c, v))
      && (StageOf(r) == Initialize && at > 0 && ops[at - 1].ListClaims? ==>
            forall claim <- ops[at - 1].found :: Protected(c, claim))
  }

  ghost predicate Safe(w: World) {
    && InOrder(w.c.stored)
    && RecordsSafe(w.c, w.c.stored.reverts, Forward(w.c.stored))
    && (forall k <- w.c.claims :: Protected(w.c, w.c.claims[k]))
    && WorkerSafe(w.c, w.worker)
  }

  /** `after` keeps every guarantee `before` gives. */
  ghost predicate KeepsGuarantees(before: Cluster, after: Cluster) {
    && (forall v: string :: Retained(before, v) ==> Retained(after, v))
    && (forall claim: Claim :: Protected(before, claim) ==> Protected(after, claim))
  }

  lemma EventKeepsGuarantees(c: Cluster, e: Event)
    requires Possible(c, e)
    ensures KeepsGuarantees(c, Change(c, e))
  {
  }

  lemma EventKeepsSafe(w: World, e: Event)
    requires (forall k <- w.c.claims :: w.c.claims[k].Key() == k)
    requires Safe(w) && Possible(w.c, e)
    requires e.EditAction? ==> !Pending(w.c.stored)
    ensures Safe(w.(c := Change(w.c, e)))
  {
    EventKeepsGuarantees(w.c, e);
    var c' := Change(w.c, e);
    forall k | k in c'.claims ensures Protected(c', c'.claims[k]) {
      assert k in w.c.claims && Protected(w.c, w.c.claims[k]);
    }
  }

  /** The facts about already issued calls carry over to a cluster that keeps the guarantees. */
  lemma CarryOver(c: Cluster, c': Cluster, worker: Worker)
    requires worker.Busy? && worker.at < |worker.ops| && WorkerSafe(c, worker)
    requires KeepsGuarantees(c, c') && c'.stored == c.stored
    requires forall v: string :: Secures(worker.ops[worker.at], v) ==> Retained(c', v)
    requires worker.ops[worker.at].ListClaims? ==> forall claim <- worker.ops[worker.at].found :: Protected(c', claim)
    ensures WorkerSafe(c', worker.(at := worker.at + 1))
  {
  }

  /** Calls that neither delete a claim nor update a volume or the stored object. */
  lemma PlainCallKeepsSafe(count: nat, w: World)
    requires Sound(count, w) && Safe(w) && w.worker.Busy? && w.worker.at < |w.worker.ops|
    requires var op := w.worker.ops[w.worker.at]; Accepts(w.c, op) && !op.UpdateRevert? && !HandlesVolumes(op)
    ensures Safe(AfterCall(w))
  {
    var op := w.worker.ops[w.worker.at];
    var c' := Effect(w.c, op);
    assert KeepsGuarantees(w.c, c');
    CarryOver(w.c, c', w.worker);
    forall k | k in c'.claims ensures Protected(c', c'.claims[k]) {
      if k in w.c.claims && c'.claims[k] == w.c.claims[k] {
        assert Protected(w.c, w.c.claims[k]);
      }
    }
  }

  lemma UpdatePVKeepsSafe(count: nat, w: World)
    requires Sound(count, w) && Safe(w) && w.worker.Busy? && w.worker.at < |w.worker.ops|
    requires var op := w.worker.ops[w.worker.at]; Accepts(w.c, op) && op.UpdatePV?
    ensures Safe(AfterCall(w))
  {
    var Busy(r, ops, at) := w.worker;
    var c' := Effect(w.c, ops[at]);
    var claims := Last(r.reverts).oldClaims;
    assert CarefulAt(claims, ops, at);
    assert Retained(c', ops[at].volume);
    assert KeepsGuarantees(w.c, c');
    CarryOver(w.c, c', w.worker);
    forall k | k in c'.claims ensures Protected(c', c'.claims[k]) {
      assert Protected(w.c, w.c.claims[k]);
    }
  }

  /** Deleting a claim harms only what is pinned to it. */
  lemma DeleteHarms(c: Cluster, k: Key, claim: Claim)
    requires Protected(c, claim)
    requires claim.Key() == k ==> Outlives(c, claim)
    ensures Protected(Effect(c, DeletePVC(k)), claim)
  {
  }

  lemma DeleteKeepsRecords(w: World)
    requires Safe(w) && w.worker.Busy? && w.worker.at < |w.worker.ops|
    requires w.worker.ops[w.worker.at].DeletePVC?
    ensures RecordsSafe(Effect(w.c, w.worker.ops[w.worker.at]), w.c.stored.reverts, Forward(w.c.stored))
  {
    var Busy(r, ops, at) := w.worker;
    var k := ops[at].key;
    var c' := Effect(w.c, ops[at]);
    assert Pending(r);
    forall i | 0 <= i < |r.reverts|
      ensures ClaimsSafe(c', r.reverts[i].oldClaims, Forward(r) && i == |r.reverts| - 1)
    {
      assert ClaimsSafe(w.c, r.reverts[i].oldClaims, Forward(r) && i == |r.reverts| - 1);
      forall claim | claim in r.reverts[i].oldClaims && i == |r.reverts| - 1 && Forward(r)
          ensures Protected(c', claim) {
        assert CarefulAt(Last(r.reverts).oldClaims, ops, at);
        DeleteHarms(w.c, k, claim);
      }
    }
  }

  lemma DeleteKeepsSafe(count: nat, w: World)
    requires Sound(count, w) && Safe(w) && w.worker.Busy? && w.worker.at < |w.worker.ops|
    requires var op := w.worker.ops[w.worker.at]; Accepts(w.c, op) && op.DeletePVC?
    ensures Safe(AfterCall(w))
  {
    DeleteKeepsRecords(w);
    var c' := Effect(w.c, w.worker.ops[w.worker.at]);
    forall k | k in c'.claims ensures Protected(c', c'.claims[k]) {
      DeleteHarms(w.c, w.worker.ops[w.worker.at].key, w.c.claims[k]);
    }
  }

  lemma TrimmedSafe(c: Cluster, reverts: seq<Details>, keep: nat, forward: bool)
    requires RecordsSafe(c, reverts, forward)
    ensures RecordsSafe(c, Trimmed(reverts, keep), forward)
  {
    var kept := Trimmed(reverts, keep);
    forall i | 0 <= i < |kept| ensures ClaimsSafe(c, kept[i].oldClaims, forward && i == |kept| - 1) {
      var j := i + |reverts| - |kept|;
      assert ClaimsSafe(c, reverts[j].oldClaims, forward && j == |reverts| - 1);
    }
  }

  /** Nothing of a record gets lost when the record no longer counts as forward with all its volumes secured. */
  lemma GrownSafe(count: nat, c: Cluster, r: Revert, ops: seq<Op>)
    requires r == c.stored && InOrder(r) && Pending(r) && Shape(count, r.reverts)
    requires RecordsSafe(c, r.reverts, Forward(r))
    requires StageOf(r) == Initialize ==>
        |ops| == 3 && ops[0].ReadSts? && ops[1].ListClaims? && ClaimsSafe(c, ops[1].found, true)
    requires StageOf(r) == Replace ==> ClaimsSafe(c, Last(r.reverts).oldClaims, false)
    ensures RecordsSafe(c, Grown(r, ops), StageOf(r) in {Initialize, Pause}
        || (StageOf(r) in {Rest, Stuck} && Forward(r)))
  {
    var grown := Grown(r, ops);
    var forward := StageOf(r) in {Initialize, Pause} || (StageOf(r) in {Rest, Stuck} && Forward(r));
    forall i | 0 <= i < |grown| ensures ClaimsSafe(c, grown[i].oldClaims, forward && i == |grown| - 1) {
      if i < |r.reverts| {
        assert ClaimsSafe(c, r.reverts[i].oldClaims, Forward(r) && i == |r.reverts| - 1);
      }
    }
  }

  lemma NextInOrder(count: nat, r: Revert, ops: seq<Op>, next: Revert)
    requires InOrder(r) && Pending(r) && Shape(count, r.reverts) && Stores(r, ops, next)
    requires next.action.kind == if Resuming(StageOf(r)) then Idle else r.action.kind
    ensures InOrder(next)
    ensures Forward(next) == (StageOf(r) in {Initialize, Pause} || (StageOf(r) == Rest && Forward(r)))
  {
    TrimmedLast(Grown(r, ops), r.keepStatus);
    GrownState(count, r, ops);
  }

  function StateAfter(r: Revert): State {
    match StageOf(r)
    case Initialize => Init
    case Rest => if r.reverts == [] then Fresh else Last(r.reverts).state
    case UndoResume => Finished
    case stage => Target(stage)
  }

  /** The state of the last record after a stage. */
  lemma GrownState(count: nat, r: Revert, ops: seq<Op>)
    requires InOrder(r) && Pending(r) && Shape(count, r.reverts)
    requires StageOf(r) == Initialize ==> |ops| == 3 && ops[0].ReadSts? && ops[1].ListClaims?
    ensures StageOf(r) != Stuck
    ensures Grown(r, ops) != [] ==> Last(Grown(r, ops)).state == StateAfter(r)
    ensures StageOf(r) != UndoResume && StageOf(r) != Rest ==> Grown(r, ops) != []
    ensures StageOf(r) == Rest ==> Grown(r, ops) == r.reverts
  {
    if r.reverts != [] {
      assert Last(r.reverts) in r.reverts;
    }
  }

  lemma UpdateKeepsSafe(count: nat, w: World)
    requires Sound(count, w) && Safe(w) && w.worker.Busy? && w.worker.at < |w.worker.ops|
    requires var op := w.worker.ops[w.worker.at]; Accepts(w.c, op) && op.UpdateRevert?
    ensures Safe(AfterCall(w))
  {
    var Busy(r, ops, at) := w.worker;
    var next := ops[at].next;
    assert TameOp(count, r, ops[at]) && TameAt(r, ops, at);
    if Pending(r) {
      assert ops[at] in ops;
      NextInOrder(count, r, ops, next);
      if StageOf(r) == Initialize {
        assert at == 2;
      }
      if StageOf(r) == Replace {
        var claims := Last(r.reverts).oldClaims;
        forall claim | claim in claims ensures Outlives(w.c, claim) {
          assert CarefulAt(claims, ops, at);
        }
      }
      GrownSafe(count, w.c, r, ops);
      TrimmedSafe(w.c, Grown(r, ops), r.keepStatus, Forward(next));
      StoringKeepsRecords(w.c, next);
    }
  }

  /** Storing the object changes no claim and no volume. */
  lemma StoringKeepsRecords(c: Cluster, next: Revert)
    requires forall k <- c.claims :: Protected(c, c.claims[k])
    requires RecordsSafe(c, next.reverts, Forward(next))
    ensures forall k <- c.claims :: Protected(c.(stored := next), c.claims[k])
    ensures RecordsSafe(c.(stored := next), next.reverts, Forward(next))
  {
    var c' := c.(stored := next);
    assert KeepsGuarantees(c, c');
    forall k | k in c'.claims ensures Protected(c', c'.claims[k]) {
      assert Protected(c, c.claims[k]);
    }
    forall i | 0 <= i < |next.reverts|
        ensures ClaimsSafe(c', next.reverts[i].oldClaims, Forward(next) && i == |next.reverts| - 1) {
      assert ClaimsSafe(c, next.reverts[i].oldClaims, Forward(next) && i == |next.reverts| - 1);
    }
  }

  // ---- The plans are careful ----

  lemma BeforeShift(pre: seq<Op>, mid: seq<Op>, post: seq<Op>, j: nat, volume: string)
    requires j <= |mid| && Before(mid, j, volume)
    ensures Before(pre + mid + post, |pre| + j, volume)
  {
    var i :| 0 <= i < j && Secures(mid[i], volume);
    assert (pre + mid + post)[|pre| + i] == mid[i];
  }

  /** The retiring calls of claims that are all among `all`. */
  ghost predicate Retires(ops: seq<Op>, j: nat, claims: seq<Claim>)
    requires j < |ops|
  {
    match ops[j]
    case DeletePVC(k) =>
      exists n | 0 <= n < |claims| :: claims[n].Key() == k && Before(ops, j, claims[n].spec.volumeName)
    case UpdatePV(v, read, write) => (write.retain || Before(ops, j, v)) && (read.retain ==> write.retain)
    case op => op.GetPV?
  }

  lemma RetireOneGuarded(claim: Claim, seen: (Volume, Volume))
    ensures var ops := RetireOps(claim, seen);
      && Before(ops, |ops|, claim.spec.volumeName)
      && forall j: nat | j < |ops| :: Retires(ops, j, [claim])
  {
    var ops := RetireOps(claim, seen);
    var n := if seen.0.retain then 0 else 1;
    assert Secures(ops[n], claim.spec.volumeName);
    forall j: nat | j < |ops| ensures Retires(ops, j, [claim]) {
      assert j > n ==> Before(ops, j, claim.spec.volumeName);
      assert [claim][0].Key() == claim.Key();
    }
  }

  lemma {:induction false} RetireAllGuarded(claims: seq<Claim>, volumes: seq<(Volume, Volume)>)
    ensures var ops := RetireAll(claims, volumes);
      && (forall n | 0 <= n < |claims| :: Before(ops, |ops|, claims[n].spec.volumeName))
      && forall j: nat | j < |ops| :: Retires(ops, j, claims)
  {
    if claims != [] {
      var init, last := claims[..|claims| - 1], claims[|claims| - 1];
      var a, b := RetireAll(init, volumes), RetireOps(last, VolumeAt(volumes, |init|));
      var ops := RetireAll(claims, volumes);
      assert ops == a + b == a + b + [] == [] + a + b;
      RetireAllGuarded(init, volumes);
      RetireOneGuarded(last, VolumeAt(volumes, |init|));
      forall j: nat | j < |ops| ensures Retires(ops, j, claims) {
        if j < |a| {
          ShiftRetires([], a, b, j, init, claims);
        } else {
          ShiftRetires(a, b, [], j - |a|, [last], claims);
        }
      }
      forall n | 0 <= n < |claims| ensures Before(ops, |ops|, claims[n].spec.volumeName) {
        if n < |init| {
          assert Before(a, |a|, init[n].spec.volumeName);
          BeforeShift([], a, b, |a|, claims[n].spec.volumeName);
        } else {
          BeforeShift(a, b, [], |b|, claims[n].spec.volumeName);
        }
      }
    }
  }

  lemma ShiftRetires(pre: seq<Op>, mid: seq<Op>, post: seq<Op>, j: nat, some: seq<Claim>, all: seq<Claim>)
    requires j < |mid| && Retires(mid, j, some)
    requires forall claim <- some :: claim in all
    ensures Retires(pre + mid + post, |pre| + j, all)
  {
    var ops := pre + mid + post;
    assert ops[|pre| + j] == mid[j];
    match mid[j]
    case DeletePVC(k) =>
      var n :| 0 <= n < |some| && some[n].Key() == k && Before(mid, j, some[n].spec.volumeName);
      BeforeShift(pre, mid, post, j, some[n].spec.volumeName);
      assert some[n] in all;
    case UpdatePV(v, read, write) =>
      if Before(mid, j, v) {
        BeforeShift(pre, mid, post, j, v);
      }
    case _ =>
  }

  /** A replacing plan: list, retire every claim, and then only create, wait and store. */
  ghost predicate ReplaceShape(ops: seq<Op>, list: Op, retire: seq<Op>, post: seq<Op>) {
    && ops == [list] + retire + post
    && list.ListSnapshots?
    && forall op <- post :: op.CreatePVC? || op.AwaitBound? || op.UpdateRevert?
  }

  lemma ReplaceParts(r: Revert, obs: Obs) returns (post: seq<Op>)
    ensures var ops := ReplacePlan(r, obs).ops + Closing(r, ReplacePlan(r, obs).result);
      var list := ListSnapshots(obs.snaps, obs.failed);
      ops == [list] || ReplaceShape(ops, list, RetireAll(LastOf(r).oldClaims, obs.volumes), post)
  {
    var claims := LastOf(r).oldClaims;
    var chosen := Selection.Select(claims, obs.snaps, obs.failed, r.action.fromTime, r.action.toTime);
    post := [];
    if chosen.Some? {
      var result := ReplacePlan(r, obs).result;
      var creates := CreateAll(r.stsType, claims, chosen.value);
      post := creates + [AwaitBound(Keys(claims))] + Closing(r, result);
      Regroup([ListSnapshots(obs.snaps, obs.failed)], RetireAll(claims, obs.volumes), creates,
        [AwaitBound(Keys(claims))], Closing(r, result));
    }
  }

  lemma Regroup(a: seq<Op>, b: seq<Op>, c: seq<Op>, d: seq<Op>, e: seq<Op>)
    ensures a + (b + c + d) + e == a + b + (c + d + e)
  {
  }

  lemma ShapeCareful(claims: seq<Claim>, ops: seq<Op>, list: Op, retire: seq<Op>, post: seq<Op>,
      volumes: seq<(Volume, Volume)>)
    requires DistinctKeys(claims) && retire == RetireAll(claims, volumes) && ReplaceShape(ops, list, retire, post)
    ensures forall j: nat | j < |ops| :: CarefulAt(claims, ops, j)
  {
    RetireAllGuarded(claims, volumes);
    forall j: nat | j < |ops| ensures CarefulAt(claims, ops, j) {
      if 1 <= j < 1 + |retire| {
        ShiftRetires([list], retire, post, j - 1, claims, claims);
        assert Retires(ops, j, claims);
      } else if j >= 1 + |retire| {
        assert ops[j] in post;
        forall claim | claim in claims ensures Before(ops, j, claim.spec.volumeName) {
          var n :| 0 <= n < |claims| && claims[n] == claim;
          BeforeShift([list], retire, post, |retire|, claims[n].spec.volumeName);
        }
      }
    }
  }

  lemma ReplaceCareful(r: Revert, obs: Obs)
    requires StageOf(r) == Replace && DistinctKeys(Last(r.reverts).oldClaims)
    ensures forall j: nat | j < |AllOps(r, obs)| :: CarefulAt(Last(r.reverts).oldClaims, AllOps(r, obs), j)
  {
    ReplaceAllOps(r, obs);
    var post := ReplaceParts(r, obs);
    var list := ListSnapshots(obs.snaps, obs.failed);
    ListOrShapeCareful(LastOf(r).oldClaims, AllOps(r, obs), list, post, obs.volumes);
  }

  lemma ListOrShapeCareful(claims: seq<Claim>, ops: seq<Op>, list: Op, post: seq<Op>, volumes: seq<(Volume, Volume)>)
    requires DistinctKeys(claims) && list.ListSnapshots?
    requires ops == [list] || ReplaceShape(ops, list, RetireAll(claims, volumes), post)
    ensures forall j: nat | j < |ops| :: CarefulAt(claims, ops, j)
  {
    if ops != [list] {
      ShapeCareful(claims, ops, list, RetireAll(claims, volumes), post, volumes);
    }
  }

  lemma OtherStagesCareful(r: Revert, obs: Obs)
    requires StageOf(r) != Replace
    ensures forall op <- StagePlan(r, obs).ops :: !op.UpdatePV? && (op.DeletePVC? ==> StageOf(r) == Restore)
  {
  }

  lemma ResultAction(r: Revert, obs: Obs)
    requires StagePlan(r, obs).result.Some?
    ensures StagePlan(r, obs).result.value.action.kind == if Resuming(StageOf(r)) then Idle else r.action.kind
  {
  }

  lemma PlanCareful(count: nat, r: Revert, obs: Obs)
    requires Shape(count, r.reverts)
    ensures Careful(r, AllOps(r, obs))
  {
    var ops, plan := AllOps(r, obs), StagePlan(r, obs);
    AllOpsParts(r, obs);
    PreludeAside(r, obs);
    if Validates(r) {
      ValidationAside(r, obs.validation);
      ValidationKeepsVolumes(r, obs.validation);
    }
    if StageOf(r) == Replace {
      assert Last(r.reverts) in r.reverts;
      ReplaceCareful(r, obs);
    } else {
      OtherStagesCareful(r, obs);
    }
    if plan.result.Some? {
      ResultAction(r, obs);
    }
    StageStoresNothing(r, obs);
  }

  lemma ValidationKeepsVolumes(r: Revert, v: ValidationObs)
    requires Validates(r)
    ensures forall op <- ValidationPlan(r, v).0 :: !op.UpdatePV?
  {
  }

  lemma StepKeepsSafe(count: nat, w: World, l: Label)
    requires Sound(count, w) && Safe(w) && Step(w, l).Some?
    requires l.Outside? && l.e.EditAction? ==> !Pending(w.c.stored)
    ensures Safe(Step(w, l).value)
  {
    match l
    case Outside(e) => EventKeepsSafe(w, e);
    case Load =>
    case Drop =>
    case Begin(obs) => PlanCareful(count, w.worker.r, obs);
    case Call =>
      match w.worker.ops[w.worker.at]
      case UpdateRevert(_, _) => UpdateKeepsSafe(count, w);
      case UpdatePV(_, _, _) => UpdatePVKeepsSafe(count, w);
      case DeletePVC(_) => DeleteKeepsSafe(count, w);
      case _ => PlainCallKeepsSafe(count, w);
  }

  /** Claims that count as bound before the first revert have their volume. */
  ghost predicate BoundClaimsHaveVolumes(c: Cluster) {
    forall k <- c.claims :: Protected(c, c.claims[k])
  }

  lemma {:induction false} AlwaysSafe(count: nat, w: World, labels: seq<Label>)
    requires Start(w, count) && BoundClaimsHaveVolumes(w.c) && Polite(w, labels)
    requires Exec(w, labels).Some?
    ensures Safe(Exec(w, labels).value)
  {
    if labels != [] {
      var before := labels[..|labels| - 1];
      AlwaysSafe(count, w, before);
      AlwaysSound(count, w, before);
      StepKeepsSafe(count, Exec(w, before).value, labels[|labels| - 1]);
    }
  }

  /** What a safe record says about one of its claims. */
  lemma RecordedVolume(c: Cluster, reverts: seq<Details>, forward: bool, i: nat, claim: Claim)
    requires RecordsSafe(c, reverts, forward) && i < |reverts| && claim in reverts[i].oldClaims && claim.bound
    ensures claim.spec.volumeName in c.volumes
    ensures !(forward && i == |reverts| - 1) ==> c.volumes[claim.spec.volumeName].retain
  {
    assert ClaimsSafe(c, reverts[i].oldClaims, forward && i == |reverts| - 1);
  }

  lemma SafeVolume(c: Cluster, i: nat, claim: Claim)
    requires RecordsSafe(c, c.stored.reverts, Forward(c.stored)) && i < |c.stored.reverts|
    requires claim in c.stored.reverts[i].oldClaims && claim.bound
    ensures claim.spec.volumeName in c.volumes
    ensures c.stored.reverts[i].state !in {Init, Paused} ==> c.volumes[claim.spec.volumeName].retain
  {
    RecordedVolume(c, c.stored.reverts, Forward(c.stored), i, claim);
  }

  /** No original data is lost: in every run with failures and retries at any call, in which the action is edited
      only while no request is pending, every volume named by an old claim of a kept record still exists (if the
      claim was bound when it was recorded). Once the revert has replaced the claims, the volume also has policy
      Retain. */
  lemma NoDataLost(count: nat, w: World, labels: seq<Label>, i: nat, claim: Claim)
    requires Start(w, count) && BoundClaimsHaveVolumes(w.c) && Polite(w, labels)
    requires Exec(w, labels).Some?
    requires i < |Exec(w, labels).value.c.stored.reverts|
    requires claim in Exec(w, labels).value.c.stored.reverts[i].oldClaims && claim.bound
    ensures claim.spec.volumeName in Exec(w, labels).value.c.volumes
    ensures Exec(w, labels).value.c.stored.reverts[i].state !in {Init, Paused} ==>
      Exec(w, labels).value.c.volumes[claim.spec.volumeName].retain
  {
    AlwaysSafe(count, w, labels);
    SafeVolume(Exec(w, labels).value.c, i, claim);
  }
}
