/** What else holds when the claims have been replaced or put back: every one of them is bound, and no original volume
    is tied any longer to the claim that was deleted. */
module RevertVolumes {
  import opened Wrappers
  import opened Types
  import opened RevertCluster
  import opened RevertPlan
  import opened RevertMachine
  import opened RevertDowntime
  import opened RevertClaims
  import opened Selection

  /** The server gives every claim a UID of its own. */
  predicate FreshUids(c: Cluster) {
    && (forall k <- c.claims :: c.claims[k].Key() == k && c.claims[k].uid < c.nextUid)
    && (forall j <- c.claims, k <- c.claims :: c.claims[j].uid == c.claims[k].uid ==> j == k)
  }

  /** A live claim with the UID of this one is this one. */
  predicate Fits(c: Cluster, claim: Claim) {
    claim.uid < c.nextUid && forall k <- c.claims :: c.claims[k].uid == claim.uid ==> k == claim.Key()
  }

  predicate AllFit(c: Cluster, claims: seq<Claim>) {
    forall claim <- claims :: Fits(c, claim)
  }

  predicate RecordsFit(c: Cluster, reverts: seq<Details>) {
    forall d <- reverts :: AllFit(c, d.oldClaims)
  }

  /** The very claim is no more. */
  predicate Gone(c: Cluster, claim: Claim) {
    forall k <- c.claims :: c.claims[k].uid != claim.uid
  }

  /** The claim's volume is not bound to the very claim. */
  predicate Loose(c: Cluster, claim: Claim) {
    var v := claim.spec.volumeName;
    v in c.volumes && c.volumes[v].claimRef.Some? ==> c.volumes[v].claimRef.value.uid != claim.uid
  }

  predicate Frees(op: Op, volume: string) {
    op.UpdatePV? && op.volume == volume && op.write.claimRef.None?
  }

  predicate WasDeleted(ops: seq<Op>, claim: Claim) {
    exists i | 0 <= i < |ops| :: ops[i] == DeletePVC(claim.Key())
  }

  predicate WasFreed(ops: seq<Op>, claim: Claim) {
    exists j | 0 <= j < |ops| :: Frees(ops[j], claim.spec.volumeName) && WasDeleted(ops[..j], claim)
  }

  /** An update of a volume lets go of its claim or leaves it alone, and does not take policy Retain back. */
  predicate KeepsRef(op: Op) {
    op.UpdatePV? ==>
      (op.write.claimRef.None? || op.write.claimRef == op.read.claimRef) && (op.read.retain ==> op.write.retain)
  }

  /** What the calls issued so far have brought about. */
  predicate Achieved(c: Cluster, ops: seq<Op>, claim: Claim) {
    (WasDeleted(ops, claim) ==> Gone(c, claim)) && (WasFreed(ops, claim) ==> Loose(c, claim))
  }

  predicate LastAchieved(c: Cluster, op: Op) {
    match op
    case ListClaims(found) => AllFit(c, found)
    case AwaitBound(keys) => AllBound(keys, c.claims)
    case _ => true
  }

  predicate WorkerFits(c: Cluster, worker: Worker) {
    match worker
    case Waiting => true
    case Loaded(r) => RecordsFit(c, r.reverts)
    case Busy(r, ops, at) =>
      && RecordsFit(c, r.reverts) && at <= |ops|
      && (forall op <- ops :: KeepsRef(op))
      && (forall claim <- LastOf(r).oldClaims :: Achieved(c, ops[..at], claim))
      && (at > 0 ==> LastAchieved(c, ops[at - 1]))
  }

  predicate Fit(w: World) {
    FreshUids(w.c) && RecordsFit(w.c, w.c.stored.reverts) && WorkerFits(w.c, w.worker)
  }

  // ---- Events ----

  /** Claims keep their UIDs, new ones get new UIDs, and bound claims stay bound. */
  predicate Evolves(c: Cluster, c': Cluster) {
    && c.nextUid <= c'.nextUid
    && forall k <- c'.claims :: (k in c.claims && c'.claims[k].uid == c.claims[k].uid) || c'.claims[k].uid >= c.nextUid
  }

  lemma EvolvingKeepsFit(c: Cluster, c': Cluster, claim: Claim)
    requires Evolves(c, c') && Fits(c, claim)
    ensures Fits(c', claim) && (Gone(c, claim) ==> Gone(c', claim))
  {
  }

  lemma EvolvingKeepsRecords(c: Cluster, c': Cluster, reverts: seq<Details>)
    requires Evolves(c, c') && RecordsFit(c, reverts)
    ensures RecordsFit(c', reverts)
  {
    forall d, claim | d in reverts && claim in d.oldClaims ensures Fits(c', claim) {
      EvolvingKeepsFit(c, c', claim);
    }
  }

  lemma EventEvolves(c: Cluster, e: Event)
    requires FreshUids(c) && Possible(c, e)
    ensures FreshUids(Change(c, e)) && Evolves(c, Change(c, e)) && Change(c, e).stored.reverts == c.stored.reverts
    ensures forall keys :: AllBound(keys, c.claims) ==> AllBound(keys, Change(c, e).claims)
  {
  }

  lemma EventKeepsLoose(c: Cluster, e: Event, claim: Claim)
    requires Possible(c, e) && Gone(c, claim) && Loose(c, claim)
    ensures Loose(Change(c, e), claim)
  {
  }

  lemma FreedMeansDeleted(ops: seq<Op>, claim: Claim)
    requires WasFreed(ops, claim)
    ensures WasDeleted(ops, claim)
  {
    var j :| 0 <= j < |ops| && Frees(ops[j], claim.spec.volumeName) && WasDeleted(ops[..j], claim);
    var i :| 0 <= i < j && ops[..j][i] == DeletePVC(claim.Key());
    assert ops[i] == DeletePVC(claim.Key());
  }

  lemma EventKeepsFit(w: World, e: Event)
    requires Fit(w) && Possible(w.c, e)
    ensures Fit(w.(c := Change(w.c, e)))
  {
    var c, c' := w.c, Change(w.c, e);
    EventEvolves(c, e);
    EvolvingKeepsRecords(c, c', c.stored.reverts);
    match w.worker
    case Waiting =>
    case Loaded(r) => EvolvingKeepsRecords(c, c', r.reverts);
    case Busy(r, ops, at) =>
      EvolvingKeepsRecords(c, c', r.reverts);
      forall claim | claim in LastOf(r).oldClaims ensures Achieved(c', ops[..at], claim) {
        LastFits(c, r, claim);
        EvolvingKeepsFit(c, c', claim);
        if WasFreed(ops[..at], claim) {
          FreedMeansDeleted(ops[..at], claim);
          EventKeepsLoose(c, e, claim);
        }
      }
      if at > 0 && ops[at - 1].ListClaims? {
        forall claim | claim in ops[at - 1].found ensures Fits(c', claim) {
          EvolvingKeepsFit(c, c', claim);
        }
      }
  }

  lemma LastFits(c: Cluster, r: Revert, claim: Claim)
    requires RecordsFit(c, r.reverts) && claim in LastOf(r).oldClaims
    ensures Fits(c, claim)
  {
    assert r.reverts != [] ==> LastOf(r) in r.reverts;
  }

  // ---- Calls ----

  lemma CallEvolves(c: Cluster, op: Op)
    requires FreshUids(c) && Accepts(c, op)
    ensures FreshUids(Effect(c, op)) && Evolves(c, Effect(c, op))
  {
  }

  lemma OneMoreCall(ops: seq<Op>, at: nat, claim: Claim)
    requires at < |ops|
    ensures WasDeleted(ops[..at + 1], claim) <==> WasDeleted(ops[..at], claim) || ops[at] == DeletePVC(claim.Key())
    ensures WasFreed(ops[..at + 1], claim) <==>
            WasFreed(ops[..at], claim) || (Frees(ops[at], claim.spec.volumeName) && WasDeleted(ops[..at], claim))
  {
    assert forall j | 0 <= j <= at :: ops[..at + 1][..j] == ops[..at][..j];
    assert ops[..at + 1][at] == ops[at];
    assert ops[..at][..at] == ops[..at];
  }

  lemma CallAchieves(c: Cluster, ops: seq<Op>, at: nat, claim: Claim)
    requires at < |ops| && Accepts(c, ops[at]) && KeepsRef(ops[at]) && FreshUids(c)
    requires Fits(c, claim) && Achieved(c, ops[..at], claim)
    ensures Achieved(Effect(c, ops[at]), ops[..at + 1], claim)
  {
    var c' := Effect(c, ops[at]);
    CallEvolves(c, ops[at]);
    EvolvingKeepsFit(c, c', claim);
    OneMoreCall(ops, at, claim);
    assert Loose(c, claim) ==> Loose(c', claim);
  }

  lemma CallAchievesAll(c: Cluster, r: Revert, ops: seq<Op>, at: nat)
    requires at < |ops| && Accepts(c, ops[at]) && KeepsRef(ops[at]) && FreshUids(c) && RecordsFit(c, r.reverts)
    requires forall claim <- LastOf(r).oldClaims :: Achieved(c, ops[..at], claim)
    ensures forall claim <- LastOf(r).oldClaims :: Achieved(Effect(c, ops[at]), ops[..at + 1], claim)
  {
    forall claim | claim in LastOf(r).oldClaims ensures Achieved(Effect(c, ops[at]), ops[..at + 1], claim) {
      LastFits(c, r, claim);
      CallAchieves(c, ops, at, claim);
    }
  }

  lemma NextCallFits(c: Cluster, r: Revert, ops: seq<Op>, at: nat)
    requires at < |ops| && Accepts(c, ops[at]) && FreshUids(c) && WorkerFits(c, Busy(r, ops, at))
    ensures WorkerFits(Effect(c, ops[at]), Busy(r, ops, at + 1))
  {
    CallEvolves(c, ops[at]);
    EvolvingKeepsRecords(c, Effect(c, ops[at]), r.reverts);
    CallAchievesAll(c, r, ops, at);
    ListedFit(c, ops[at]);
  }

  lemma CallKeepsFit(w: World)
    requires Fit(w) && Step(w, Call).Some? && !w.worker.ops[w.worker.at].UpdateRevert?
    ensures Fit(AfterCall(w))
  {
    var Busy(r, ops, at) := w.worker;
    NextCallFits(w.c, r, ops, at);
    CallEvolves(w.c, ops[at]);
    EvolvingKeepsRecords(w.c, Effect(w.c, ops[at]), w.c.stored.reverts);
  }

  lemma ListedFit(c: Cluster, op: Op)
    requires FreshUids(c) && Accepts(c, op)
    ensures LastAchieved(Effect(c, op), op)
  {
    if op.ListClaims? {
      forall claim | claim in op.found ensures Fits(c, claim) {
        assert claim.Key() in c.claims && c.claims[claim.Key()] == claim;
      }
    }
  }

  /** The records a processing stores hold claims of the records it read, or those it has just listed. */
  lemma StoredFits(c: Cluster, r: Revert, ops: seq<Op>, next: Revert)
    requires RecordsFit(c, r.reverts) && Stores(r, ops, next)
    requires StageOf(r) == Initialize ==> AllFit(c, ops[1].found)
    ensures RecordsFit(c, next.reverts)
  {
    forall d | d in Grown(r, ops) ensures AllFit(c, d.oldClaims) {
      GrownFrom(r, ops, d);
    }
    assert forall d <- Retain(r, Grown(r, ops)) :: d in Grown(r, ops);
  }

  lemma GrownFrom(r: Revert, ops: seq<Op>, d: Details)
    requires d in Grown(r, ops)
    ensures (exists x <- r.reverts :: d.oldClaims == x.oldClaims)
         || (StageOf(r) == Initialize && |ops| == 3 && ops[1].ListClaims? && d.oldClaims == ops[1].found)
  {
    if r.reverts != [] {
      assert Last(r.reverts) in r.reverts;
    }
  }

  lemma UpdateKeepsFit(count: nat, w: World)
    requires Fit(w) && Sound(count, w) && Step(w, Call).Some? && w.worker.ops[w.worker.at].UpdateRevert?
    ensures Fit(AfterCall(w))
  {
    var Busy(r, ops, at) := w.worker;
    assert TameAt(r, ops, at);
    StoredFits(w.c, r, ops, ops[at].next);
  }

  // ---- Plans ----

  lemma RetireKeepsRef(claims: seq<Claim>, volumes: seq<(Volume, Volume)>)
    ensures forall op <- RetireAll(claims, volumes) :: KeepsRef(op)
  {
  }

  lemma PlanKeepsRef(r: Revert, obs: Obs)
    ensures forall op <- AllOps(r, obs) :: KeepsRef(op)
  {
    AllOpsParts(r, obs);
    PreludeKeepsRef(r, obs);
    StageKeepsRef(r, obs);
  }

  lemma PreludeKeepsRef(r: Revert, obs: Obs)
    ensures forall op <- Prelude(r, obs) :: !op.UpdatePV?
  {
  }

  lemma StageKeepsRef(r: Revert, obs: Obs)
    ensures forall op <- StagePlan(r, obs).ops :: KeepsRef(op)
  {
    if StageOf(r) == Replace {
      PausedStage(r);
      var claims := LastOf(r).oldClaims;
      var chosen := Select(claims, obs.snaps, obs.failed, r.action.fromTime, r.action.toTime);
      RetireKeepsRef(claims, obs.volumes);
      if chosen.Some? {
        assert forall op <- ReplaceOps(r.stsType, claims, chosen.value, obs.volumes) :: KeepsRef(op);
      }
    }
  }

  lemma {:induction false} RetireAllFrees(claims: seq<Claim>, volumes: seq<(Volume, Volume)>, n: nat)
    requires n < |claims|
    ensures WasFreed(RetireAll(claims, volumes), claims[n])
  {
    var last := |claims| - 1;
    var before, round := RetireAll(claims[..last], volumes), RetireOps(claims[last], VolumeAt(volumes, last));
    if n < last {
      RetireAllFrees(claims[..last], volumes, n);
      FreedLater([], before, round, claims[n]);
      assert [] + before + round == before + round;
    } else {
      RoundFrees(claims[n], VolumeAt(volumes, last));
      FreedLater(before, round, [], claims[n]);
      assert before + round + [] == before + round;
    }
  }

  lemma RoundFrees(claim: Claim, seen: (Volume, Volume))
    ensures WasFreed(RetireOps(claim, seen), claim)
  {
    var ops := RetireOps(claim, seen);
    var j := |ops| - 1;
    assert ops[..j][j - 2] == DeletePVC(claim.Key());
    assert Frees(ops[j], claim.spec.volumeName);
  }

  lemma FreedLater(pre: seq<Op>, mid: seq<Op>, post: seq<Op>, claim: Claim)
    requires WasFreed(mid, claim)
    ensures WasFreed(pre + mid + post, claim)
  {
    var all := pre + mid + post;
    var j :| 0 <= j < |mid| && Frees(mid[j], claim.spec.volumeName) && WasDeleted(mid[..j], claim);
    var i :| 0 <= i < j && mid[..j][i] == DeletePVC(claim.Key());
    assert all[|pre| + j] == mid[j] && all[..|pre| + j][|pre| + i] == mid[i];
  }

  lemma StepKeepsFit(count: nat, w: World, l: Label)
    requires Fit(w) && Sound(count, w) && Step(w, l).Some?
    ensures Fit(Step(w, l).value)
  {
    match l
    case Outside(e) => EventKeepsFit(w, e);
    case Load =>
    case Drop =>
    case Begin(obs) => PlanKeepsRef(w.worker.r, obs);
    case Call =>
      if w.worker.ops[w.worker.at].UpdateRevert? {
        UpdateKeepsFit(count, w);
      } else {
        CallKeepsFit(w);
      }
  }

  lemma {:induction false} AlwaysFit(count: nat, w: World, labels: seq<Label>)
    requires Start(w, count) && FreshUids(w.c) && Exec(w, labels).Some?
    ensures Fit(Exec(w, labels).value)
  {
    if labels != [] {
      var before := labels[..|labels| - 1];
      AlwaysFit(count, w, before);
      AlwaysSound(count, w, before);
      StepKeepsFit(count, Exec(w, before).value, labels[|labels| - 1]);
    }
  }

  /** The calls of a replacing processing that is about to store its result. */
  lemma ReplaceFreed(r: Revert, obs: Obs, claim: Claim)
    requires StageOf(r) == Replace && |AllOps(r, obs)| > 0 && AllOps(r, obs)[|AllOps(r, obs)| - 1].UpdateRevert?
    requires claim in LastOf(r).oldClaims
    ensures WasFreed(AllOps(r, obs)[..|AllOps(r, obs)| - 1], claim)
  {
    ReplaceAllOps(r, obs);
    var claims := LastOf(r).oldClaims;
    var chosen := Select(claims, obs.snaps, obs.failed, r.action.fromTime, r.action.toTime);
    assert chosen.Some?;
    var n :| 0 <= n < |claims| && claims[n] == claim;
    ReplaceOpsFree(r.stsType, claims, chosen.value, obs.volumes, ListSnapshots(obs.snaps, obs.failed), n);
    assert AllOps(r, obs)[..|AllOps(r, obs)| - 1] == ReplacePlan(r, obs).ops;
  }

  lemma ReplaceOpsFree(
    stsType: Option<StatefulSetType>, claims: seq<Claim>, chosen: map<string, Snapshot>,
      volumes: seq<(Volume, Volume)>, list: Op, n: nat)
    requires n < |claims|
    ensures WasFreed([list] + ReplaceOps(stsType, claims, chosen, volumes), claims[n])
  {
    RetireAllFrees(claims, volumes, n);
    var retire, post := RetireAll(claims, volumes), CreateAll(stsType, claims, chosen) + [AwaitBound(Keys(claims))];
    FreedLater([list], retire, post, claims[n]);
    assert [list] + retire + post == [list] + ReplaceOps(stsType, claims, chosen, volumes);
  }

  lemma LastIsAwait(r: Revert, obs: Obs)
    requires StageOf(r) == Replace || StageOf(r) == Restore
    requires var n := |AllOps(r, obs)|; n > 0 && AllOps(r, obs)[n - 1].UpdateRevert?
    ensures var n := |AllOps(r, obs)|; n > 1 && AllOps(r, obs)[n - 2] == AwaitBound(Keys(LastOf(r).oldClaims))
  {
    if StageOf(r) == Replace {
      ReplaceAllOps(r, obs);
    } else {
      RestoreAllOps(r, obs);
    }
  }

  /** When a replacing or restoring stage completes, in any run with any failures, every claim of the record is there
      and bound. */
  lemma ClaimsBoundOnCompletion(count: nat, w: World, labels: seq<Label>)
    requires Start(w, count) && FreshUids(w.c) && Exec(w, labels).Some?
    requires Completes(Exec(w, labels).value, Replace) || Completes(Exec(w, labels).value, Restore)
    ensures var m := Exec(w, labels).value;
      forall claim <- Last(m.worker.r.reverts).oldClaims :: claim.Key() in m.c.claims && m.c.claims[claim.Key()].bound
  {
    AlwaysFit(count, w, labels);
    AlwaysSound(count, w, labels);
    AlwaysTracked(w, labels);
    var m := Exec(w, labels).value;
    CompletingWorker(count, m);
    CompletingAwaited(m);
    BoundAtEnd(m, Last(m.worker.r.reverts).oldClaims);
  }

  lemma CompletingAwaited(m: World)
    requires Tracked(m) && m.worker.Busy? && m.worker.ops != [] && m.worker.at == |m.worker.ops| - 1
    requires Completes(m, Replace) || Completes(m, Restore)
    ensures m.worker.r.reverts != [] && m.worker.at > 0
    ensures m.worker.ops[m.worker.at - 1] == AwaitBound(Keys(Last(m.worker.r.reverts).oldClaims))
  {
    AwaitsLast(m.worker.r, m.worker.ops);
  }

  lemma BoundAtEnd(m: World, claims: seq<Claim>)
    requires Fit(m) && m.worker.Busy? && 0 < m.worker.at <= |m.worker.ops|
    requires m.worker.ops[m.worker.at - 1] == AwaitBound(Keys(claims))
    ensures forall claim <- claims :: claim.Key() in m.c.claims && m.c.claims[claim.Key()].bound
  {
    assert LastAchieved(m.c, m.worker.ops[m.worker.at - 1]);
    KeysOfAll(claims);
  }

  lemma AwaitsLast(r: Revert, ops: seq<Op>)
    requires (exists obs :: ops == AllOps(r, obs)) && (StageOf(r) == Replace || StageOf(r) == Restore)
    requires ops != [] && ops[|ops| - 1].UpdateRevert?
    ensures r.reverts != [] && LastOf(r) == Last(r.reverts)
    ensures |ops| > 1 && ops[|ops| - 2] == AwaitBound(Keys(LastOf(r).oldClaims))
  {
    var obs :| ops == AllOps(r, obs);
    LastIsAwait(r, obs);
    PausedStage(r);
  }

  lemma KeysOfAll(claims: seq<Claim>)
    ensures forall claim <- claims :: claim.Key() in Keys(claims)
  {
    forall claim | claim in claims ensures claim.Key() in Keys(claims) {
      var i :| 0 <= i < |claims| && claims[i] == claim;
      assert Keys(claims)[i] == claim.Key();
    }
  }

  /** When a replacing stage completes, in any run with any failures, the volume of an old claim is not tied to that
      claim any longer: it is available, or bound to another claim. */
  lemma OldVolumesReleased(count: nat, w: World, labels: seq<Label>, claim: Claim)
    requires Start(w, count) && FreshUids(w.c) && Exec(w, labels).Some?
    requires Completes(Exec(w, labels).value, Replace)
    requires claim in Last(Exec(w, labels).value.worker.r.reverts).oldClaims
    ensures var c, v := Exec(w, labels).value.c, claim.spec.volumeName;
      v in c.volumes && c.volumes[v].claimRef.Some? ==> c.volumes[v].claimRef.value.uid != claim.uid
  {
    AlwaysFit(count, w, labels);
    AlwaysSound(count, w, labels);
    AlwaysTracked(w, labels);
    var m := Exec(w, labels).value;
    CompletingWorker(count, m);
    var obs :| m.worker.ops == AllOps(m.worker.r, obs);
    FreedWhenComplete(m.worker, obs, claim);
    AchievedSoFar(m, claim);
  }

  lemma AchievedSoFar(m: World, claim: Claim)
    requires Fit(m) && m.worker.Busy? && claim in LastOf(m.worker.r).oldClaims
    ensures WasFreed(m.worker.ops[..m.worker.at], claim) ==> Loose(m.c, claim)
  {
    assert Achieved(m.c, m.worker.ops[..m.worker.at], claim);
  }

  lemma FreedWhenComplete(worker: Worker, obs: Obs, claim: Claim)
    requires worker.Busy? && worker.ops == AllOps(worker.r, obs) && StageOf(worker.r) == Replace
    requires worker.at == |worker.ops| - 1 && worker.ops[worker.at].UpdateRevert? && claim in LastOf(worker.r).oldClaims
    ensures WasFreed(worker.ops[..worker.at], claim)
  {
    ReplaceFreed(worker.r, obs, claim);
  }
}
