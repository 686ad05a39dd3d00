/** Where claims get volumes of their own: the volume of a recorded claim is never bound to another claim, in any run
    with any failures and any edits. */
module RevertOwnership {
  import opened Types
  import opened RevertCluster
  import opened RevertPlan
  import opened RevertMachine
  import opened RevertDowntime
  import RevertReady
  import RevertUndo
  import RevertVolumes

  type Owners = map<string, Key>

  /** Volumes are made for claims that name none. */
  ghost predicate OnDemand(w: World, labels: seq<Label>) {
    labels == [] ||
    (OnDemand(w, labels[..|labels| - 1]) &&
     var mid, last := Exec(w, labels[..|labels| - 1]), labels[|labels| - 1];
     mid.Some? && last.Outside? ==> RevertReady.Provides(mid.value.c, last.e))
  }

  /** No two claims name one volume, and a volume that a claim names is bound to that claim if to any. */
  predicate Apart(c: Cluster) {
    && (forall j <- c.claims, k <- c.claims ::
          c.claims[j].spec.volumeName == c.claims[k].spec.volumeName != "" ==> j == k)
    && (forall k <- c.claims ::
          var v := c.claims[k].spec.volumeName;
          v in c.volumes && c.volumes[v].claimRef.Some? ==> c.volumes[v].claimRef.value.key == k)
  }

  /** The volume the claim names, if it names one, belongs to it. */
  predicate Owns(owner: Owners, claim: Claim) {
    var v := claim.spec.volumeName;
    v == "" || (v in owner && owner[v] == claim.Key())
  }

  predicate RecordsOwn(owner: Owners, reverts: seq<Details>) {
    forall d <- reverts :: forall claim <- d.oldClaims :: Owns(owner, claim)
  }

  predicate ClaimsOwn(owner: Owners, claims: map<Key, Claim>) {
    forall k <- claims :: claims[k].Key() == k && Owns(owner, claims[k])
  }

  predicate VolumesOwned(owner: Owners, volumes: map<string, Volume>) {
    forall v <- volumes :: volumes[v].claimRef.Some? && v in owner ==> owner[v] == volumes[v].claimRef.value.key
  }

  predicate AllOwned(owner: Owners, c: Cluster) {
    ClaimsOwn(owner, c.claims) && RecordsOwn(owner, c.stored.reverts) && VolumesOwned(owner, c.volumes)
  }

  /** The claims that were found are there, on the volumes they had. */
  predicate Stay(c: Cluster, found: seq<Claim>) {
    forall claim <- found :: claim.spec.volumeName != "" ==>
      claim.Key() in c.claims && c.claims[claim.Key()].spec.volumeName == claim.spec.volumeName
  }

  ghost predicate WorkerFine(c: Cluster, worker: Worker) {
    worker.Busy? ==>
      && worker.at <= |worker.ops|
      && (forall op <- worker.ops :: RevertUndo.OnOld(worker.r, op) && RevertVolumes.KeepsRef(op))
      && (StageOf(worker.r) == Initialize ==>
            forall i | 0 <= i < worker.at :: worker.ops[i].ListClaims? ==> Stay(c, worker.ops[i].found))
  }

  ghost predicate Owned(w: World) {
    WorkerFine(w.c, w.worker) && exists owner :: AllOwned(owner, w.c)
  }

  // ---- Events ----

  lemma EventKeepsStay(c: Cluster, e: Event, found: seq<Claim>)
    requires Possible(c, e) && Stay(c, found)
    ensures Stay(Change(c, e), found)
  {
  }

  lemma BindKeepsOwned(c: Cluster, owner: Owners, k: Key, v: string, retain: bool) returns (owner': Owners)
    requires AllOwned(owner, c) && Possible(c, Bind(k, v, retain)) && RevertReady.Provides(c, Bind(k, v, retain))
    ensures AllOwned(owner', Change(c, Bind(k, v, retain)))
  {
    owner' := if c.claims[k].spec.volumeName == "" then owner[v := k] else owner;
    var c' := Change(c, Bind(k, v, retain));
    if c.claims[k].spec.volumeName == "" {
      NotNamed(c, v);
    }
    assert Owns(owner, c.claims[k]);
    assert c'.claims[k].Key() == k && c'.claims[k].spec.volumeName == v;
  }

  lemma NotNamed(c: Cluster, v: string)
    requires !RevertReady.IsNamed(c, v)
    ensures forall k <- c.claims :: c.claims[k].spec.volumeName != v
    ensures forall d <- c.stored.reverts :: forall claim <- d.oldClaims :: claim.spec.volumeName != v
  {
  }

  lemma EventKeepsOwned(w: World, e: Event)
    requires Owned(w) && Possible(w.c, e) && RevertReady.Provides(w.c, e)
    ensures Owned(w.(c := Change(w.c, e)))
  {
    var owner :| AllOwned(owner, w.c);
    if e.Bind? {
      var owner' := BindKeepsOwned(w.c, owner, e.key, e.volume, e.retain);
    } else {
      assert AllOwned(owner, Change(w.c, e));
    }
    EventKeepsWorker(w.c, w.worker, e);
  }

  lemma EventKeepsWorker(c: Cluster, worker: Worker, e: Event)
    requires WorkerFine(c, worker) && Possible(c, e)
    ensures WorkerFine(Change(c, e), worker)
  {
    if worker.Busy? && StageOf(worker.r) == Initialize {
      forall i | 0 <= i < worker.at && worker.ops[i].ListClaims? ensures Stay(Change(c, e), worker.ops[i].found) {
        EventKeepsStay(c, e, worker.ops[i].found);
      }
    }
  }

  // ---- Calls ----

  lemma CallKeepsOwners(owner: Owners, c: Cluster, r: Revert, op: Op)
    requires AllOwned(owner, c) && Accepts(c, op) && r.reverts == c.stored.reverts
    requires RevertUndo.OnOld(r, op) && RevertVolumes.KeepsRef(op) && !op.UpdateRevert?
    ensures AllOwned(owner, Effect(c, op))
  {
    if op.CreatePVC? {
      CreateKeepsOwners(owner, c, r, op.claim);
    }
  }

  lemma CreateKeepsOwners(owner: Owners, c: Cluster, r: Revert, made: Claim)
    requires AllOwned(owner, c) && r.reverts == c.stored.reverts && RevertUndo.OnOld(r, CreatePVC(made))
    ensures AllOwned(owner, Effect(c, CreatePVC(made)))
  {
    var claim :| claim in Last(r.reverts).oldClaims && RevertUndo.Recreates(made, claim);
    assert Last(r.reverts) in c.stored.reverts && Owns(owner, claim);
    assert Owns(owner, made);
  }

  lemma CallKeepsWorker(count: nat, w: World)
    requires Sound(count, w) && WorkerFine(w.c, w.worker) && Step(w, Call).Some?
    requires !w.worker.ops[w.worker.at].UpdateRevert?
    ensures WorkerFine(AfterCall(w).c, AfterCall(w).worker)
  {
    var Busy(r, ops, at) := w.worker;
    assert ops[at] in ops && TameOp(count, r, ops[at]);
    if StageOf(r) == Initialize {
      forall i | 0 <= i <= at && ops[i].ListClaims? ensures Stay(Effect(w.c, ops[at]), ops[i].found) {
        CallKeepsStay(w.c, ops[at], ops[i].found, i == at);
      }
    }
  }

  lemma CallKeepsStay(c: Cluster, op: Op, found: seq<Claim>, now: bool)
    requires Accepts(c, op) && !op.DeletePVC? && (if now then op == ListClaims(found) else Stay(c, found))
    ensures Stay(Effect(c, op), found)
  {
  }

  lemma QuietCallKeepsOwned(count: nat, w: World)
    requires Sound(count, w) && Owned(w) && Step(w, Call).Some? && !w.worker.ops[w.worker.at].UpdateRevert?
    ensures Owned(AfterCall(w))
  {
    var owner :| AllOwned(owner, w.c);
    var op := w.worker.ops[w.worker.at];
    assert op in w.worker.ops;
    CallKeepsOwners(owner, w.c, w.worker.r, op);
    CallKeepsWorker(count, w);
  }

  // ---- Storing ----

  lemma FoundOwn(owner: Owners, c: Cluster, found: seq<Claim>)
    requires AllOwned(owner, c) && Stay(c, found)
    ensures forall claim <- found :: Owns(owner, claim)
  {
  }

  lemma GrownOwn(owner: Owners, c: Cluster, r: Revert, ops: seq<Op>)
    requires AllOwned(owner, c) && r.reverts == c.stored.reverts
    requires StageOf(r) == Initialize ==> |ops| == 3 && ops[1].ListClaims? && Stay(c, ops[1].found)
    ensures RecordsOwn(owner, Grown(r, ops))
  {
    var grown := Grown(r, ops);
    RevertUndo.GrownOldClaims(r, ops);
    forall i | 0 <= i < |grown| ensures forall claim <- grown[i].oldClaims :: Owns(owner, claim) {
      if i < |r.reverts| {
        assert r.reverts[i] in r.reverts;
      } else {
        FoundOwn(owner, c, ops[1].found);
      }
    }
  }

  lemma TrimmedOwn(owner: Owners, r: Revert, reverts: seq<Details>)
    requires RecordsOwn(owner, reverts)
    ensures RecordsOwn(owner, Retain(r, reverts))
  {
    assert forall d <- Retain(r, reverts) :: d in reverts;
  }

  lemma UpdateKeepsOwned(count: nat, w: World)
    requires Sound(count, w) && Owned(w) && Step(w, Call).Some? && w.worker.ops[w.worker.at].UpdateRevert?
    ensures Owned(AfterCall(w))
  {
    var Busy(r, ops, at) := w.worker;
    var owner :| AllOwned(owner, w.c);
    assert TameAt(r, ops, at);
    GrownOwn(owner, w.c, r, ops);
    TrimmedOwn(owner, r, Grown(r, ops));
    assert AllOwned(owner, AfterCall(w).c);
  }

  // ---- All runs ----

  lemma StepKeepsOwned(count: nat, w: World, l: Label)
    requires Sound(count, w) && Owned(w) && Step(w, l).Some?
    requires l.Outside? ==> RevertReady.Provides(w.c, l.e)
    ensures Owned(Step(w, l).value)
  {
    match l
    case Outside(e) => EventKeepsOwned(w, e);
    case Load =>
    case Drop =>
    case Begin(obs) =>
      RevertUndo.PlanOnOld(w.worker.r, obs);
      RevertVolumes.PlanKeepsRef(w.worker.r, obs);
    case Call =>
      if w.worker.ops[w.worker.at].UpdateRevert? {
        UpdateKeepsOwned(count, w);
      } else {
        QuietCallKeepsOwned(count, w);
      }
  }

  lemma StartIsOwned(count: nat, w: World)
    requires Start(w, count) && Apart(w.c)
    ensures Owned(w)
  {
    var owner: Owners := map k | k in w.c.claims && w.c.claims[k].spec.volumeName != "" ::
        w.c.claims[k].spec.volumeName := k;
    assert AllOwned(owner, w.c);
  }

  lemma {:induction false} AlwaysOwned(count: nat, w: World, labels: seq<Label>)
    requires Start(w, count) && Apart(w.c) && OnDemand(w, labels) && Exec(w, labels).Some?
    ensures Owned(Exec(w, labels).value)
  {
    if labels == [] {
      StartIsOwned(count, w);
    } else {
      var before := labels[..|labels| - 1];
      AlwaysOwned(count, w, before);
      AlwaysSound(count, w, before);
      StepKeepsOwned(count, Exec(w, before).value, labels[|labels| - 1]);
    }
  }

  /** The volume of a recorded claim stays with that claim's name: no claim of another name ever names it or is bound to
      it. That the claim that replaced it does not hold it either is in RevertSpare. */
  lemma VolumesStayTheirs(count: nat, w: World, labels: seq<Label>, d: Details, claim: Claim)
    requires Start(w, count) && Apart(w.c) && OnDemand(w, labels) && Exec(w, labels).Some?
    requires d in Exec(w, labels).value.c.stored.reverts && claim in d.oldClaims && claim.spec.volumeName != ""
    ensures var c, v := Exec(w, labels).value.c, claim.spec.volumeName;
      && (v in c.volumes && c.volumes[v].claimRef.Some? ==> c.volumes[v].claimRef.value.key == claim.Key())
      && (forall k <- c.claims :: c.claims[k].spec.volumeName == v ==> k == claim.Key())
  {
    AlwaysOwned(count, w, labels);
    var owner :| AllOwned(owner, Exec(w, labels).value.c);
    assert Owns(owner, claim);
  }
}
