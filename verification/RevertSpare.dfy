/** The original volumes of a finished revert are spare: there, kept, tied to no claim and named by none, in any run
    with any failures and any edits. So an undo can always begin, and all reverts can be undone one after the other. */
module RevertSpare {
  import opened Wrappers
  import opened Types
  import opened RevertCluster
  import opened RevertPlan
  import opened RevertMachine
  import opened RevertDowntime
  import opened RevertClaims
  import opened RevertVolumes
  import opened RevertOwnership
  import RevertReady
  import RevertSafety
  import RevertUndo
  import Selection

  // ---- The invariant ----

  predicate Unnamed(c: Cluster, volume: string) {
    forall k <- c.claims :: c.claims[k].spec.volumeName != volume
  }

  /** The volume waits, with policy Retain, for a claim that names it, and there is none. */
  predicate Spare(c: Cluster, volume: string) {
    volume in c.volumes && c.volumes[volume] == Volume(true, None) && Unnamed(c, volume)
  }

  predicate AllSpare(c: Cluster, claims: seq<Claim>) {
    forall claim <- claims :: claim.spec.volumeName != "" ==> Spare(c, claim.spec.volumeName)
  }

  /** The claims of the record have been replaced, and not been put back. */
  predicate Stands(d: Details) { d.state == Reverted || d.state == State.Finished }

  predicate RecordsSpare(c: Cluster, reverts: seq<Details>) {
    forall d <- reverts :: Stands(d) ==> AllSpare(c, d.oldClaims)
  }

  predicate NothingShared(a: seq<Claim>, b: seq<Claim>) {
    forall x <- a :: forall y <- b :: x.spec.volumeName != "" ==> x.spec.volumeName != y.spec.volumeName
  }

  predicate Disjoint(reverts: seq<Details>) {
    forall i, j | 0 <= i < j < |reverts| :: NothingShared(reverts[i].oldClaims, reverts[j].oldClaims)
  }

  ghost predicate Secured(ops: seq<Op>, volume: string) {
    exists op <- ops :: RevertSafety.Secures(op, volume)
  }

  predicate Retained(c: Cluster, volume: string) { volume in c.volumes && c.volumes[volume].retain }

  predicate Untied(c: Cluster, volume: string) { volume in c.volumes ==> c.volumes[volume].claimRef.None? }

  /** How far a replacing processing has come with this claim. */
  ghost predicate Retiring(c: Cluster, ops: seq<Op>, claim: Claim) {
    var v := claim.spec.volumeName;
    v != "" ==>
      && (WasDeleted(ops, claim) ==> Unnamed(c, v))
      && (WasFreed(ops, claim) ==> Untied(c, v))
      && (Secured(ops, v) ==> Retained(c, v))
  }

  /** A call that replaces claims makes none that names a volume. */
  predicate NamesNone(op: Op) { op.CreatePVC? ==> op.claim.spec.volumeName == "" }

  ghost predicate WorkerRetires(c: Cluster, worker: Worker) {
    worker.Busy? && StageOf(worker.r) == Replace ==>
      && worker.at <= |worker.ops|
      && (forall op <- worker.ops :: NamesNone(op))
      && (forall claim <- LastOf(worker.r).oldClaims :: Retiring(c, worker.ops[..worker.at], claim))
  }

  ghost predicate Kept(w: World) {
    && RecordsSpare(w.c, w.c.stored.reverts) && Disjoint(w.c.stored.reverts)
    && WorkerRetires(w.c, w.worker)
  }

  // ---- Events ----

  lemma EventKeepsUnnamed(c: Cluster, e: Event, volume: string)
    requires Possible(c, e) && RevertReady.Provides(c, e) && RevertReady.IsNamed(c, volume) && Unnamed(c, volume)
    ensures Unnamed(Change(c, e), volume)
    ensures Untied(c, volume) ==> Untied(Change(c, e), volume)
    ensures Spare(c, volume) ==> Spare(Change(c, e), volume)
  {
  }

  lemma EventKeepsRetained(c: Cluster, e: Event, volume: string)
    requires Possible(c, e) && Retained(c, volume)
    ensures Retained(Change(c, e), volume)
  {
  }

  lemma RecordNames(c: Cluster, d: Details, claim: Claim)
    requires d in c.stored.reverts && claim in d.oldClaims
    ensures RevertReady.IsNamed(c, claim.spec.volumeName)
  {
  }

  lemma EventKeepsRecords(c: Cluster, e: Event)
    requires Possible(c, e) && RevertReady.Provides(c, e) && RecordsSpare(c, c.stored.reverts)
    ensures RecordsSpare(Change(c, e), c.stored.reverts)
  {
    forall d, claim | d in c.stored.reverts && Stands(d) && claim in d.oldClaims && claim.spec.volumeName != ""
      ensures Spare(Change(c, e), claim.spec.volumeName)
    {
      RecordNames(c, d, claim);
      assert AllSpare(c, d.oldClaims);
      EventKeepsUnnamed(c, e, claim.spec.volumeName);
    }
  }

  lemma EventKeepsRetiring(c: Cluster, e: Event, ops: seq<Op>, claim: Claim)
    requires Possible(c, e) && RevertReady.Provides(c, e) && RevertReady.IsNamed(c, claim.spec.volumeName)
    requires Retiring(c, ops, claim)
    ensures Retiring(Change(c, e), ops, claim)
  {
    var v := claim.spec.volumeName;
    FreedMeansDeleted(ops, claim);
    if v != "" && WasDeleted(ops, claim) {
      EventKeepsUnnamed(c, e, v);
    }
    if v != "" && Secured(ops, v) {
      EventKeepsRetained(c, e, v);
    }
  }

  lemma FreedMeansDeleted(ops: seq<Op>, claim: Claim)
    ensures WasFreed(ops, claim) ==> WasDeleted(ops, claim)
  {
    if j :| 0 <= j < |ops| && Frees(ops[j], claim.spec.volumeName) && WasDeleted(ops[..j], claim) {
      var i :| 0 <= i < j && ops[..j][i] == DeletePVC(claim.Key());
      assert ops[i] == DeletePVC(claim.Key());
    }
  }

  lemma LastNames(c: Cluster, r: Revert, claim: Claim)
    requires r.reverts == c.stored.reverts && claim in LastOf(r).oldClaims
    ensures RevertReady.IsNamed(c, claim.spec.volumeName)
  {
    RecordNames(c, LastOf(r), claim);
  }

  lemma EventKeepsKept(count: nat, w: World, e: Event)
    requires Sound(count, w) && Kept(w) && Possible(w.c, e) && RevertReady.Provides(w.c, e)
    ensures Kept(w.(c := Change(w.c, e)))
  {
    EventKeepsRecords(w.c, e);
    if w.worker.Busy? && StageOf(w.worker.r) == Replace {
      forall claim | claim in LastOf(w.worker.r).oldClaims
        ensures Retiring(Change(w.c, e), w.worker.ops[..w.worker.at], claim)
      {
        LastNames(w.c, w.worker.r, claim);
        EventKeepsRetiring(w.c, e, w.worker.ops[..w.worker.at], claim);
      }
    }
  }

  // ---- Calls ----

  /** No claim of an earlier record shares a volume with one that is put back. */
  lemma CreateKeepsRecords(c: Cluster, r: Revert, made: Claim)
    requires RecordsSpare(c, c.stored.reverts) && Disjoint(c.stored.reverts) && r.reverts == c.stored.reverts
    requires TopIs(r.reverts, Paused) && RevertUndo.OnOld(r, CreatePVC(made))
    ensures RecordsSpare(Effect(c, CreatePVC(made)), c.stored.reverts)
  {
    var x :| x in Last(r.reverts).oldClaims && RevertUndo.Recreates(made, x);
    forall d, claim | d in r.reverts && Stands(d) && claim in d.oldClaims && claim.spec.volumeName != ""
      ensures Spare(Effect(c, CreatePVC(made)), claim.spec.volumeName)
    {
      var i :| 0 <= i < |r.reverts| && r.reverts[i] == d;
      assert i < |r.reverts| - 1;
      assert NothingShared(r.reverts[i].oldClaims, r.reverts[|r.reverts| - 1].oldClaims);
      assert AllSpare(c, d.oldClaims);
    }
  }

  lemma CallKeepsSpare(c: Cluster, op: Op, volume: string)
    requires Accepts(c, op) && KeepsRef(op) && !op.CreatePVC? && Spare(c, volume)
    ensures Spare(Effect(c, op), volume)
  {
  }

  lemma CallKeepsRecords(c: Cluster, r: Revert, op: Op)
    requires RecordsSpare(c, c.stored.reverts) && Disjoint(c.stored.reverts) && r.reverts == c.stored.reverts
    requires Accepts(c, op) && KeepsRef(op) && RevertUndo.OnOld(r, op) && !op.UpdateRevert?
    requires op.CreatePVC? ==> TopIs(r.reverts, Paused)
    ensures RecordsSpare(Effect(c, op), c.stored.reverts)
  {
    if op.CreatePVC? {
      CreateKeepsRecords(c, r, op.claim);
    } else {
      forall d, claim | d in r.reverts && Stands(d) && claim in d.oldClaims && claim.spec.volumeName != ""
        ensures Spare(Effect(c, op), claim.spec.volumeName)
      {
        assert AllSpare(c, d.oldClaims);
        CallKeepsSpare(c, op, claim.spec.volumeName);
      }
    }
  }

  /** Only the claim itself names its volume, so once it is deleted nobody does. */
  lemma DeleteUnnames(owner: Owners, c: Cluster, claim: Claim)
    requires AllOwned(owner, c) && Owns(owner, claim) && claim.spec.volumeName != ""
    ensures Unnamed(Effect(c, DeletePVC(claim.Key())), claim.spec.volumeName)
  {
  }

  lemma CallKeepsUnnamed(c: Cluster, op: Op, volume: string)
    requires Accepts(c, op) && KeepsRef(op) && NamesNone(op) && volume != ""
    ensures Unnamed(c, volume) ==> Unnamed(Effect(c, op), volume)
    ensures Untied(c, volume) || Frees(op, volume) ==> Untied(Effect(c, op), volume)
    ensures Retained(c, volume) || RevertSafety.Secures(op, volume) ==> Retained(Effect(c, op), volume)
  {
  }

  lemma OneMoreSecures(ops: seq<Op>, at: nat, volume: string)
    requires at < |ops|
    ensures Secured(ops[..at + 1], volume) <==> Secured(ops[..at], volume) || RevertSafety.Secures(ops[at], volume)
  {
    assert ops[..at + 1] == ops[..at] + [ops[at]];
  }

  lemma CallKeepsRetiring(owner: Owners, c: Cluster, ops: seq<Op>, at: nat, claim: Claim)
    requires AllOwned(owner, c) && Owns(owner, claim) && at < |ops| && Accepts(c, ops[at])
    requires KeepsRef(ops[at]) && NamesNone(ops[at]) && Retiring(c, ops[..at], claim)
    ensures Retiring(Effect(c, ops[at]), ops[..at + 1], claim)
  {
    var v := claim.spec.volumeName;
    if v != "" {
      OneMoreCall(ops, at, claim);
      OneMoreSecures(ops, at, v);
      CallKeepsUnnamed(c, ops[at], v);
      DeleteUnnames(owner, c, claim);
    }
  }

  lemma CallKeepsWorkerRetires(owner: Owners, c: Cluster, r: Revert, ops: seq<Op>, at: nat)
    requires AllOwned(owner, c) && r.reverts == c.stored.reverts && at < |ops| && Accepts(c, ops[at])
    requires KeepsRef(ops[at])
    requires WorkerRetires(c, Busy(r, ops, at))
    ensures WorkerRetires(Effect(c, ops[at]), Busy(r, ops, at + 1))
  {
    if StageOf(r) == Replace {
      assert NamesNone(ops[at]);
      forall claim | claim in LastOf(r).oldClaims ensures Retiring(Effect(c, ops[at]), ops[..at + 1], claim) {
        assert LastOf(r) in c.stored.reverts && Owns(owner, claim);
        CallKeepsRetiring(owner, c, ops, at, claim);
      }
    }
  }

  lemma QuietCallKeepsKept(count: nat, w: World)
    requires Sound(count, w) && Owned(w) && Kept(w) && Step(w, Call).Some?
    requires !w.worker.ops[w.worker.at].UpdateRevert?
    ensures Kept(AfterCall(w))
  {
    var Busy(r, ops, at) := w.worker;
    var owner :| AllOwned(owner, w.c);
    RecordsOfCopy(count, w);
    CallOfPlan(count, w);
    CallKeepsRecords(w.c, r, ops[at]);
    CallKeepsWorkerRetires(owner, w.c, r, ops, at);
    KeptAfterCall(w, AfterCall(w));
  }

  lemma CallOfPlan(count: nat, w: World)
    requires Sound(count, w) && Owned(w) && w.worker.Busy? && w.worker.at < |w.worker.ops|
    ensures var Busy(r, ops, at) := w.worker;
      && r.reverts == w.c.stored.reverts && KeepsRef(ops[at]) && RevertUndo.OnOld(r, ops[at])
      && (ops[at].CreatePVC? ==> TopIs(r.reverts, Paused))
  {
    var Busy(r, ops, at) := w.worker;
    assert ops[at] in ops && TameOp(count, r, ops[at]);
  }

  lemma EffectKeepsStored(c: Cluster, op: Op)
    requires !op.UpdateRevert?
    ensures Effect(c, op).stored == c.stored
  {
  }

  lemma KeptAfterCall(w: World, m: World)
    requires w.worker.Busy? && w.worker.at < |w.worker.ops| && !w.worker.ops[w.worker.at].UpdateRevert?
    requires m.c == Effect(w.c, w.worker.ops[w.worker.at]) && m.worker == w.worker.(at := w.worker.at + 1)
    requires Disjoint(w.c.stored.reverts) && RecordsSpare(m.c, w.c.stored.reverts) && WorkerRetires(m.c, m.worker)
    ensures Kept(m)
  {
    EffectKeepsStored(w.c, w.worker.ops[w.worker.at]);
  }

  // ---- Storing ----

  /** A completed replacing leaves the volumes of its record spare. */
  lemma RetiredIsSpare(c: Cluster, ops: seq<Op>, claim: Claim)
    requires Retiring(c, ops, claim) && WasFreed(ops, claim) && Secured(ops, claim.spec.volumeName)
    ensures claim.spec.volumeName != "" ==> Spare(c, claim.spec.volumeName)
  {
    FreedMeansDeleted(ops, claim);
  }

  lemma ReplacedIsSpare(count: nat, m: World)
    requires Sound(count, m) && Tracked(m) && Kept(m) && Completes(m, Replace)
    ensures AllSpare(m.c, LastOf(m.worker.r).oldClaims)
  {
    var Busy(r, ops, at) := m.worker;
    var obs :| ops == AllOps(r, obs);
    CompletingWorker(count, m);
    RevertSafety.ReplaceCareful(r, obs);
    forall claim | claim in LastOf(r).oldClaims
      ensures claim.spec.volumeName != "" ==> Spare(m.c, claim.spec.volumeName)
    {
      FreedWhenComplete(m.worker, obs, claim);
      SecuredBefore(LastOf(r).oldClaims, ops, at, claim);
      RetiredIsSpare(m.c, ops[..at], claim);
    }
  }

  lemma SecuredBefore(claims: seq<Claim>, ops: seq<Op>, at: nat, claim: Claim)
    requires at < |ops| && ops[at].UpdateRevert? && RevertSafety.CarefulAt(claims, ops, at) && claim in claims
    ensures Secured(ops[..at], claim.spec.volumeName)
  {
    var i :| 0 <= i < at && RevertSafety.Secures(ops[i], claim.spec.volumeName);
    assert ops[..at][i] == ops[i];
  }

  /** What a new record shares no volume with: nobody names the volumes of the others. */
  lemma FoundIsDisjoint(c: Cluster, d: Details, found: seq<Claim>)
    requires AllSpare(c, d.oldClaims) && Stay(c, found)
    ensures NothingShared(d.oldClaims, found)
  {
    forall x, y | x in d.oldClaims && y in found && x.spec.volumeName != ""
      ensures x.spec.volumeName != y.spec.volumeName
    {
      assert Spare(c, x.spec.volumeName);
    }
  }

  lemma GrownDisjoint(count: nat, c: Cluster, r: Revert, ops: seq<Op>)
    requires Shape(count, r.reverts) && RecordsSpare(c, r.reverts) && Disjoint(r.reverts)
    requires StageOf(r) == Initialize ==> |ops| == 3 && ops[1].ListClaims? && Stay(c, ops[1].found)
    ensures Disjoint(Grown(r, ops))
  {
    var grown := Grown(r, ops);
    RevertUndo.GrownOldClaims(r, ops);
    forall i, j | 0 <= i < j < |grown| ensures NothingShared(grown[i].oldClaims, grown[j].oldClaims) {
      if j == |r.reverts| {
        AllStand(count, r, i);
        FoundIsDisjoint(c, r.reverts[i], ops[1].found);
      } else {
        assert NothingShared(r.reverts[i].oldClaims, r.reverts[j].oldClaims);
      }
    }
  }

  lemma AllStand(count: nat, r: Revert, i: nat)
    requires Shape(count, r.reverts) && StageOf(r) == Initialize && i < |r.reverts|
    ensures Stands(r.reverts[i]) && r.reverts[i] in r.reverts
  {
    assert Last(r.reverts) in r.reverts;
  }

  /** The records but for the last keep their state, and a stage that makes the last one stand has made it spare. */
  lemma GrownSpare(c: Cluster, r: Revert, ops: seq<Op>)
    requires RecordsSpare(c, r.reverts)
    requires StageOf(r) == Replace ==> AllSpare(c, LastOf(r).oldClaims)
    requires StageOf(r) == Resume ==> TopIs(r.reverts, Reverted)
    ensures RecordsSpare(c, Grown(r, ops))
  {
    var grown := Grown(r, ops);
    forall d | d in grown && Stands(d) ensures AllSpare(c, d.oldClaims) {
      var i :| 0 <= i < |grown| && grown[i] == d;
      if i < |r.reverts| && grown[i] == r.reverts[i] {
        assert r.reverts[i] in r.reverts;
      } else if StageOf(r) == Resume {
        assert Last(r.reverts) in r.reverts;
      }
    }
  }

  lemma ResumingStands(r: Revert)
    requires StageOf(r) == Resume
    ensures r.reverts != [] && Last(r.reverts).state == Reverted
  {
  }

  lemma TrimmedKept(c: Cluster, r: Revert, reverts: seq<Details>)
    requires RecordsSpare(c, reverts) && Disjoint(reverts)
    ensures RecordsSpare(c, Retain(r, reverts)) && Disjoint(Retain(r, reverts))
  {
    var kept, cut := Retain(r, reverts), |reverts| - |Retain(r, reverts)|;
    assert forall i | 0 <= i < |kept| :: kept[i] == reverts[cut + i];
    forall i, j | 0 <= i < j < |kept| ensures NothingShared(kept[i].oldClaims, kept[j].oldClaims) {
      assert NothingShared(reverts[cut + i].oldClaims, reverts[cut + j].oldClaims);
    }
  }

  lemma StoringKeepsSpare(c: Cluster, next: Revert)
    requires RecordsSpare(c, next.reverts)
    ensures RecordsSpare(c.(stored := next), next.reverts)
  {
    forall d, claim | d in next.reverts && Stands(d) && claim in d.oldClaims && claim.spec.volumeName != ""
      ensures Spare(c.(stored := next), claim.spec.volumeName)
    {
      assert AllSpare(c, d.oldClaims);
    }
  }

  lemma UpdateKeepsKept(count: nat, w: World)
    requires Sound(count, w) && Owned(w) && Tracked(w) && Kept(w) && Step(w, Call).Some?
    requires w.worker.ops[w.worker.at].UpdateRevert?
    ensures Kept(AfterCall(w))
  {
    var Busy(r, ops, at) := w.worker;
    if StageOf(r) == Replace {
      ReplacedIsSpare(count, w);
    }
    ListedStay(count, w);
    RecordsOfCopy(count, w);
    StoredKept(count, w.c, r, ops, ops[at].next);
    KeptAfterStoring(w);
  }

  lemma ListedStay(count: nat, w: World)
    requires Sound(count, w) && Owned(w) && w.worker.Busy? && w.worker.at < |w.worker.ops|
    requires w.worker.ops[w.worker.at].UpdateRevert?
    ensures var Busy(r, ops, at) := w.worker;
      && ops[at].next.reverts == Retain(r, Grown(r, ops))
      && (StageOf(r) == Initialize ==> |ops| == 3 && ops[1].ListClaims? && Stay(w.c, ops[1].found))
  {
    var Busy(r, ops, at) := w.worker;
    assert TameAt(r, ops, at);
  }

  lemma RecordsOfCopy(count: nat, w: World)
    requires Sound(count, w) && Kept(w) && w.worker.Busy?
    ensures var r := w.worker.r; Shape(count, r.reverts) && RecordsSpare(w.c, r.reverts) && Disjoint(r.reverts)
  {
  }

  lemma KeptAfterStoring(w: World)
    requires w.worker.Busy? && w.worker.at < |w.worker.ops| && w.worker.ops[w.worker.at].UpdateRevert?
    requires var next := w.worker.ops[w.worker.at].next;
      RecordsSpare(w.c.(stored := next), next.reverts) && Disjoint(next.reverts)
    ensures Kept(AfterCall(w))
  {
  }

  lemma StoredKept(count: nat, c: Cluster, r: Revert, ops: seq<Op>, next: Revert)
    requires Shape(count, r.reverts) && RecordsSpare(c, r.reverts) && Disjoint(r.reverts)
    requires StageOf(r) == Replace ==> AllSpare(c, LastOf(r).oldClaims)
    requires StageOf(r) == Initialize ==> |ops| == 3 && ops[1].ListClaims? && Stay(c, ops[1].found)
    requires next.reverts == Retain(r, Grown(r, ops))
    ensures RecordsSpare(c.(stored := next), next.reverts) && Disjoint(next.reverts)
  {
    if StageOf(r) == Resume {
      ResumingStands(r);
    }
    GrownSpare(c, r, ops);
    GrownDisjoint(count, c, r, ops);
    TrimmedKept(c, r, Grown(r, ops));
    StoringKeepsSpare(c, next);
  }

  // ---- All runs ----

  lemma PlanNamesNone(r: Revert, obs: Obs)
    requires StageOf(r) == Replace
    ensures forall op <- AllOps(r, obs) :: NamesNone(op)
  {
    ReplaceAllOps(r, obs);
    var claims := LastOf(r).oldClaims;
    var chosen := Selection.Select(claims, obs.snaps, obs.failed, r.action.fromTime, r.action.toTime);
    if chosen.Some? {
      ReplaceOpsNameNone(r.stsType, claims, chosen.value, obs.volumes);
    }
  }

  lemma ReplaceOpsNameNone(stsType: Option<StatefulSetType>, claims: seq<Claim>, chosen: map<string, Snapshot>,
      volumes: seq<(Volume, Volume)>)
    ensures forall op <- ReplaceOps(stsType, claims, chosen, volumes) :: NamesNone(op)
  {
    RevertUndo.RetireOnOld(claims, volumes);
    assert forall op <- CreateAll(stsType, claims, chosen) :: NamesNone(op);
  }

  lemma BeginKeepsKept(w: World, obs: Obs)
    requires Kept(w) && w.worker.Loaded?
    ensures Kept(Step(w, Begin(obs)).value)
  {
    var r := w.worker.r;
    if StageOf(r) == Replace {
      PlanNamesNone(r, obs);
      assert AllOps(r, obs)[..0] == [];
    }
  }

  lemma StepKeepsKept(count: nat, w: World, l: Label)
    requires Sound(count, w) && Owned(w) && Tracked(w) && Kept(w) && Step(w, l).Some?
    requires l.Outside? ==> RevertReady.Provides(w.c, l.e)
    ensures Kept(Step(w, l).value)
  {
    match l
    case Outside(e) => EventKeepsKept(count, w, e);
    case Load =>
    case Drop =>
    case Begin(obs) => BeginKeepsKept(w, obs);
    case Call =>
      if w.worker.ops[w.worker.at].UpdateRevert? {
        UpdateKeepsKept(count, w);
      } else {
        QuietCallKeepsKept(count, w);
      }
  }

  lemma {:induction false} AlwaysKept(count: nat, w: World, labels: seq<Label>)
    requires Start(w, count) && Apart(w.c) && OnDemand(w, labels) && Exec(w, labels).Some?
    ensures Kept(Exec(w, labels).value)
  {
    if labels != [] {
      var before := labels[..|labels| - 1];
      AlwaysKept(count, w, before);
      AlwaysOwned(count, w, before);
      AlwaysSound(count, w, before);
      AlwaysTracked(w, before);
      StepKeepsKept(count, Exec(w, before).value, labels[|labels| - 1]);
    }
  }

  /** From the moment an old claim has been replaced until its revert is undone, its original volume is there, has
      policy Retain, is tied to no claim, and is named by no claim, not even by the one that replaced it. */
  lemma OldVolumesAreSpare(count: nat, w: World, labels: seq<Label>, d: Details, claim: Claim)
    requires Start(w, count) && Apart(w.c) && OnDemand(w, labels) && Exec(w, labels).Some?
    requires d in Exec(w, labels).value.c.stored.reverts && Stands(d) && claim in d.oldClaims
    requires claim.spec.volumeName != ""
    ensures Spare(Exec(w, labels).value.c, claim.spec.volumeName)
  {
    AlwaysKept(count, w, labels);
    assert AllSpare(Exec(w, labels).value.c, d.oldClaims);
  }

  /** No volume is needed for two claims of a record. */
  lemma OwnedDiffer(owner: Owners, claims: seq<Claim>, i: nat, j: nat)
    requires (forall claim <- claims :: Owns(owner, claim)) && DistinctKeys(claims) && i < j < |claims|
    ensures claims[i].spec.volumeName != "" ==> claims[i].spec.volumeName != claims[j].spec.volumeName
  {
    assert claims[i] in claims && claims[j] in claims;
  }

  /** So an undo finds all it needs: the condition under which its claims can be put back always holds when it begins.
      */
  lemma UndoFindsVolumes(count: nat, w: World, labels: seq<Label>, d: Details)
    requires Start(w, count) && Apart(w.c) && OnDemand(w, labels) && Exec(w, labels).Some?
    requires d in Exec(w, labels).value.c.stored.reverts && Stands(d)
    ensures RevertReady.Restorable(Exec(w, labels).value.c, d.oldClaims)
  {
    var m := Exec(w, labels).value;
    AlwaysKept(count, w, labels);
    AlwaysOwned(count, w, labels);
    AlwaysSound(count, w, labels);
    SpareIsRestorable(count, m, d);
  }

  lemma SpareIsRestorable(count: nat, m: World, d: Details)
    requires Sound(count, m) && Owned(m) && Kept(m) && d in m.c.stored.reverts && Stands(d)
    ensures RevertReady.Restorable(m.c, d.oldClaims)
  {
    var owner :| AllOwned(owner, m.c);
    var claims := d.oldClaims;
    forall i | 0 <= i < |claims| && claims[i].spec.volumeName != ""
      ensures RevertReady.Free(m.c, claims[i].spec.volumeName)
    {
      assert claims[i] in claims;
    }
    forall i, j | 0 <= i < j < |claims| && claims[i].spec.volumeName != ""
      ensures claims[i].spec.volumeName != claims[j].spec.volumeName
    {
      OwnedDiffer(owner, claims, i, j);
    }
  }
}
