/** The two stages that change claims, when they are ready: a calm run that replaces or restores all claims. */
module RevertRebuild {
  import opened Wrappers
  import opened Types
  import opened RevertCluster
  import opened RevertPlan
  import opened RevertMachine
  import opened RevertDowntime
  import opened RevertReady
  import opened RevertSteps
  import opened Selection

  // ---- Binding ----

  /** A volume name that is not taken yet. */
  lemma FreshVolume(c: Cluster) returns (v: string)
    ensures v != "" && v !in c.volumes && !IsNamed(c, v)
  {
    var live := set k | k in c.claims :: c.claims[k].spec.volumeName;
    var recorded := set d, claim | d in c.stored.reverts && claim in d.oldClaims :: claim.spec.volumeName;
    v := FreshName(c.volumes.Keys + live + recorded + {""});
    assert forall k <- c.claims :: c.claims[k].spec.volumeName in live;
    assert forall d <- c.stored.reverts :: forall claim <- d.oldClaims :: claim.spec.volumeName in recorded;
  }

  /** The claims stand unbound as they were made, and the volumes they name are free and different. */
  ghost predicate Bindable(c: Cluster, made: seq<Claim>) {
    && DistinctKeys(made)
    && (forall i | 0 <= i < |made| ::
          made[i].Key() in c.claims && !c.claims[made[i].Key()].bound
          && c.claims[made[i].Key()].spec.volumeName == made[i].spec.volumeName)
    && Restorable(c, made)
  }

  function VolumesOf(claims: seq<Claim>): set<string> {
    set claim | claim in claims :: claim.spec.volumeName
  }

  function KeysOf(claims: seq<Claim>): set<Key> {
    set claim | claim in claims :: claim.Key()
  }

  /** What binding these claims changes, and what it leaves alone. */
  predicate OnlyBinds(c: Cluster, c': Cluster, keys: set<Key>, volumes: set<string>) {
    && c' == c.(claims := c'.claims, volumes := c'.volumes)
    && c'.claims.Keys == c.claims.Keys && c.volumes.Keys <= c'.volumes.Keys
    && (forall k <- c.claims :: k !in keys ==> c'.claims[k] == c.claims[k])
    && (forall v <- c.volumes :: v !in volumes ==> c'.volumes[v] == c.volumes[v])
    && (forall k <- keys :: k in c'.claims && c'.claims[k].bound)
  }

  lemma OnlyBindsJoin(c: Cluster, d: Cluster, e: Cluster, keys: set<Key>, volumes: set<string>, keys': set<Key>,
      volumes': set<string>)
    requires OnlyBinds(c, d, keys, volumes) && OnlyBinds(d, e, keys', volumes') && keys !! keys'
    ensures OnlyBinds(c, e, keys + keys', volumes + volumes')
  {
  }

  /** Binding one claim, to the volume it names or to a new one. */
  lemma BindsOne(w: World, claim: Claim) returns (m: World)
    requires claim.Key() in w.c.claims && !w.c.claims[claim.Key()].bound
    requires w.c.claims[claim.Key()].spec.volumeName == claim.spec.volumeName
    requires claim.spec.volumeName != "" ==> Free(w.c, claim.spec.volumeName)
    ensures Reaches(w, m) && m.worker == w.worker && OnlyBinds(w.c, m.c, {claim.Key()}, {claim.spec.volumeName})
  {
    var k, v := claim.Key(), claim.spec.volumeName;
    if v == "" {
      v := FreshVolume(w.c);
    }
    m := Happening(w, Bind(k, v, false));
  }

  lemma StillBindable(c: Cluster, d: Cluster, made: seq<Claim>, n: nat)
    requires Bindable(c, made) && n < |made| && OnlyBinds(c, d, KeysOf(made[..n]), VolumesOf(made[..n]))
    ensures made[n].Key() !in KeysOf(made[..n])
    ensures made[n].Key() in d.claims && d.claims[made[n].Key()] == c.claims[made[n].Key()]
    ensures made[n].spec.volumeName != "" ==> Free(d, made[n].spec.volumeName)
  {
  }

  lemma SetsOfNext(made: seq<Claim>, n: nat)
    requires n < |made|
    ensures KeysOf(made[..n + 1]) == KeysOf(made[..n]) + {made[n].Key()}
    ensures VolumesOf(made[..n + 1]) == VolumesOf(made[..n]) + {made[n].spec.volumeName}
  {
    assert made[..n + 1] == made[..n] + [made[n]];
    assert forall claim :: claim in made[..n + 1] <==> claim in made[..n] || claim == made[n];
  }

  lemma {:induction false} BindsFirst(w: World, made: seq<Claim>, n: nat) returns (m: World)
    requires Bindable(w.c, made) && n <= |made|
    ensures Reaches(w, m) && m.worker == w.worker && OnlyBinds(w.c, m.c, KeysOf(made[..n]), VolumesOf(made[..n]))
  {
    if n == 0 {
      m := w;
      ReachesSelf(w);
    } else {
      var some := BindsFirst(w, made, n - 1);
      StillBindable(w.c, some.c, made, n - 1);
      m := BindsOne(some, made[n - 1]);
      ReachesJoin(w, some, m);
      SetsOfNext(made, n - 1);
      OnlyBindsJoin(w.c, some.c, m.c, KeysOf(made[..n - 1]), VolumesOf(made[..n - 1]), {made[n - 1].Key()},
        {made[n - 1].spec.volumeName});
    }
  }

  lemma BindsAll(w: World, made: seq<Claim>) returns (m: World)
    requires Bindable(w.c, made)
    ensures Reaches(w, m) && m.worker == w.worker && OnlyBinds(w.c, m.c, KeysOf(made), VolumesOf(made))
  {
    m := BindsFirst(w, made, |made|);
    assert made[..|made|] == made;
  }

  lemma BoundKeys(c: Cluster, claims: seq<Claim>)
    requires forall k <- KeysOf(claims) :: k in c.claims && c.claims[k].bound
    ensures AllBound(Keys(claims), c.claims)
  {
    forall k | k in Keys(claims) ensures k in KeysOf(claims) {
      var i :| 0 <= i < |Keys(claims)| && Keys(claims)[i] == k;
      assert claims[i] in claims;
    }
  }

  // ---- Deleting and creating ----

  lemma {:induction false} DeletesAll(c: Cluster, claims: seq<Claim>, n: nat)
    requires n <= |claims|
    ensures Issue(c, DeleteAll(claims)[..n]) == Some(c.(claims := c.claims - KeysOf(claims[..n])))
  {
    var ops := DeleteAll(claims);
    if n == 0 {
      assert c.claims - KeysOf(claims[..0]) == c.claims;
    } else {
      DeletesAll(c, claims, n - 1);
      assert ops[..n][..n - 1] == ops[..n - 1];
      SetsOfNext(claims, n - 1);
      assert c.claims - KeysOf(claims[..n - 1]) - {claims[n - 1].Key()} == c.claims - KeysOf(claims[..n]);
    }
  }

  predicate Creates(ops: seq<Op>, made: seq<Claim>) {
    |ops| == |made| && forall i | 0 <= i < |made| :: ops[i] == CreatePVC(made[i]) && !made[i].bound
  }

  /** The first claims are there as made, and nothing else has changed. */
  predicate MadeFirst(c: Cluster, c': Cluster, made: seq<Claim>, n: nat)
    requires n <= |made|
  {
    && c' == c.(claims := c'.claims, nextUid := c'.nextUid)
    && c'.claims.Keys == c.claims.Keys + KeysOf(made[..n])
    && (forall k <- c.claims :: c'.claims[k] == c.claims[k])
    && (forall i | 0 <= i < n :: made[i].Key() in c'.claims && Unbound(c'.claims[made[i].Key()], made[i]))
  }

  predicate Unbound(live: Claim, made: Claim) {
    !live.bound && live == made.(uid := live.uid, bound := false)
  }

  lemma {:induction false} CreatesAll(c: Cluster, ops: seq<Op>, made: seq<Claim>, n: nat)
    requires Creates(ops, made) && n <= |made| && DistinctKeys(made)
    requires forall claim <- made :: claim.Key() !in c.claims
    ensures Issue(c, ops[..n]).Some? && MadeFirst(c, Issue(c, ops[..n]).value, made, n)
  {
    if n > 0 {
      CreatesAll(c, ops, made, n - 1);
      CreatesNext(c, Issue(c, ops[..n - 1]).value, made, n - 1);
      IssueNext(c, ops, n - 1);
    }
  }

  lemma IssueNext(c: Cluster, ops: seq<Op>, n: nat)
    requires n < |ops| && Issue(c, ops[..n]).Some? && Accepts(Issue(c, ops[..n]).value, ops[n])
    ensures Issue(c, ops[..n + 1]) == Some(Effect(Issue(c, ops[..n]).value, ops[n]))
  {
    assert ops[..n + 1][..n] == ops[..n];
  }

  lemma NewKey(made: seq<Claim>, n: nat)
    requires n < |made| && DistinctKeys(made)
    ensures made[n].Key() !in KeysOf(made[..n])
  {
  }

  lemma CreatesNext(c: Cluster, mid: Cluster, made: seq<Claim>, n: nat)
    requires n < |made| && MadeFirst(c, mid, made, n) && DistinctKeys(made) && made[n].Key() !in c.claims
    requires !made[n].bound
    ensures Accepts(mid, CreatePVC(made[n])) && MadeFirst(c, Effect(mid, CreatePVC(made[n])), made, n + 1)
  {
    SetsOfNext(made, n);
    NewKey(made, n);
    CreateAdds(mid, made[n]);
    MoreUnbound(mid, Effect(mid, CreatePVC(made[n])), made, n);
  }

  lemma MoreUnbound(c: Cluster, c': Cluster, made: seq<Claim>, n: nat)
    requires n < |made|
    requires forall i | 0 <= i < n :: made[i].Key() in c.claims && Unbound(c.claims[made[i].Key()], made[i])
    requires forall k <- c.claims :: k in c'.claims && c'.claims[k] == c.claims[k]
    requires made[n].Key() in c'.claims && Unbound(c'.claims[made[n].Key()], made[n])
    ensures forall i | 0 <= i < n + 1 :: made[i].Key() in c'.claims && Unbound(c'.claims[made[i].Key()], made[i])
  {
  }

  lemma CreateAdds(c: Cluster, made: Claim)
    requires made.Key() !in c.claims && !made.bound
    ensures var c' := Effect(c, CreatePVC(made));
      && c' == c.(claims := c'.claims, nextUid := c'.nextUid)
      && c'.claims.Keys == c.claims.Keys + {made.Key()} && Unbound(c'.claims[made.Key()], made)
      && forall k <- c.claims :: c'.claims[k] == c.claims[k]
  {
  }

  predicate SameKeys(made: seq<Claim>, claims: seq<Claim>) {
    |made| == |claims| && forall i | 0 <= i < |made| :: made[i].Key() == claims[i].Key()
  }

  /** The second half of both stages that change claims: create, let them bind, see that they are bound. */
  ghost predicate Recreated(c: Cluster, c': Cluster, made: seq<Claim>) {
    && c' == c.(claims := c'.claims, volumes := c'.volumes, nextUid := c'.nextUid)
    && c.volumes.Keys <= c'.volumes.Keys
    && (forall v <- c.volumes :: v !in VolumesOf(made) ==> c'.volumes[v] == c.volumes[v])
  }

  lemma CreatedAreBindable(c: Cluster, c': Cluster, made: seq<Claim>)
    requires MadeFirst(c, c', made, |made|) && DistinctKeys(made) && Restorable(c, made)
    ensures Bindable(c', made)
  {
  }

  lemma Creating(w: World, creates: seq<Op>, made: seq<Claim>) returns (m: World)
    requires Upcoming(w.worker, creates) && Creates(creates, made) && DistinctKeys(made)
    requires (forall claim <- made :: claim.Key() !in w.c.claims) && Restorable(w.c, made)
    ensures Reaches(w, m) && m.worker == w.worker.(at := w.worker.at + |creates|)
    ensures MadeFirst(w.c, m.c, made, |made|) && Bindable(m.c, made)
  {
    CreatesAll(w.c, creates, made, |made|);
    assert creates[..|made|] == creates;
    m := Issuing(w, creates);
    CreatedAreBindable(w.c, m.c, made);
  }

  lemma CreatingBound(w: World, creates: seq<Op>, made: seq<Claim>) returns (m: World)
    requires Upcoming(w.worker, creates) && Creates(creates, made) && DistinctKeys(made)
    requires (forall claim <- made :: claim.Key() !in w.c.claims) && Restorable(w.c, made)
    ensures Reaches(w, m) && m.worker == w.worker.(at := w.worker.at + |creates|) && Recreated(w.c, m.c, made)
    ensures forall k <- KeysOf(made) :: k in m.c.claims && m.c.claims[k].bound
  {
    var created := Creating(w, creates, made);
    m := BindsAll(created, made);
    ReachesJoin(w, created, m);
    RecreatedBy(w.c, created.c, m.c, made);
  }

  lemma Recreating(w: World, creates: seq<Op>, made: seq<Claim>, claims: seq<Claim>) returns (m: World)
    requires Upcoming(w.worker, creates + [AwaitBound(Keys(claims))]) && Creates(creates, made)
    requires SameKeys(made, claims)
    requires DistinctKeys(made) && (forall claim <- made :: claim.Key() !in w.c.claims) && Restorable(w.c, made)
    ensures Reaches(w, m) && m.worker == w.worker.(at := w.worker.at + |creates| + 1) && Recreated(w.c, m.c, made)
  {
    UpcomingSplits(w.worker, creates, AwaitBound(Keys(claims)));
    var bound := CreatingBound(w, creates, made);
    AwaitAccepted(bound.c, made, claims);
    m := Calling(w, bound);
  }

  lemma AwaitAccepted(c: Cluster, made: seq<Claim>, claims: seq<Claim>)
    requires SameKeys(made, claims) && forall k <- KeysOf(made) :: k in c.claims && c.claims[k].bound
    ensures Accepts(c, AwaitBound(Keys(claims))) && Effect(c, AwaitBound(Keys(claims))) == c
  {
    BoundKeys(c, made);
    assert Keys(made) == Keys(claims);
  }

  lemma RecreatedBy(c: Cluster, mid: Cluster, c': Cluster, made: seq<Claim>)
    requires MadeFirst(c, mid, made, |made|) && OnlyBinds(mid, c', KeysOf(made), VolumesOf(made))
    ensures Recreated(c, c', made)
  {
  }

  lemma UpcomingSplits(worker: Worker, list: seq<Op>, op: Op)
    requires Upcoming(worker, list + [op])
    ensures Upcoming(worker, list) && worker.at + |list| < |worker.ops| && worker.ops[worker.at + |list|] == op
  {
    assert forall i | 0 <= i < |list| :: (list + [op])[i] == list[i];
    assert (list + [op])[|list|] == op;
  }

  // ---- Restoring ----

  function RestoredClaims(claims: seq<Claim>): (made: seq<Claim>)
    ensures |made| == |claims|
  {
    seq(|claims|, i requires 0 <= i < |claims| => Restoring(claims[i]))
  }

  lemma RestoringOps(r: Revert, obs: Obs)
    requires StageOf(r) == Restore
    ensures PlanFor(r, obs).result.Some?
    ensures var claims := LastOf(r).oldClaims;
      AllOps(r, obs) == DeleteAll(claims) + (RestoreAll(claims) + [AwaitBound(Keys(claims))])
        + [UpdateRevert(r, PlanFor(r, obs).result.value)]
  {
    assert !Validates(r);
    RestoreAllOps(r, obs);
  }

  lemma RestoredAreReady(c: Cluster, claims: seq<Claim>)
    requires Restorable(c, claims) && DistinctKeys(claims)
    ensures var made, c' := RestoredClaims(claims), c.(claims := c.claims - KeysOf(claims));
      && Creates(RestoreAll(claims), made) && SameKeys(made, claims) && DistinctKeys(made) && Restorable(c', made)
      && VolumesOf(made) == VolumesOf(claims)
      && forall claim <- made :: claim.Key() !in c'.claims
  {
    var made := RestoredClaims(claims);
    forall i | 0 <= i < |made| ensures made[i].Key() in KeysOf(claims) {
      assert claims[i] in claims;
    }
    SameVolumes(made, claims);
    SameVolumes(claims, made);
  }

  lemma SameVolumes(a: seq<Claim>, b: seq<Claim>)
    requires |a| == |b| && forall i | 0 <= i < |a| :: a[i].spec.volumeName == b[i].spec.volumeName
    ensures VolumesOf(a) <= VolumesOf(b)
  {
    forall v | v in VolumesOf(a) ensures v in VolumesOf(b) {
      var claim :| claim in a && claim.spec.volumeName == v;
      var i :| 0 <= i < |a| && a[i] == claim;
      assert b[i] in b;
    }
  }

  lemma RestoreIsReached(count: nat, w: World) returns (m: World, obs: Obs)
    requires Sound(count, w) && w.worker == Waiting && StageOf(w.c.stored) == Restore && Ready(w.c, w.c.stored)
    ensures AboutToStore(w, m, obs)
    ensures m.c == w.c.(claims := m.c.claims, volumes := m.c.volumes, nextUid := m.c.nextUid)
  {
    var r := w.c.stored;
    var claims := LastOf(r).oldClaims;
    assert LastOf(r) in r.reverts;
    obs := NO_ANSWERS;
    m := Restores(w, claims);
  }

  lemma Restores(w: World, claims: seq<Claim>) returns (m: World)
    requires w.worker == Waiting && StageOf(w.c.stored) == Restore && claims == LastOf(w.c.stored).oldClaims
    requires DistinctKeys(claims) && Restorable(w.c, claims)
    ensures AboutToStore(w, m, NO_ANSWERS)
    ensures m.c == w.c.(claims := m.c.claims, volumes := m.c.volumes, nextUid := m.c.nextUid)
  {
    RestoringOps(w.c.stored, NO_ANSWERS);
    var begun := Beginning(w, NO_ANSWERS);
    DeletesAll(w.c, claims, |claims|);
    assert DeleteAll(claims)[..|claims|] == DeleteAll(claims) && claims[..|claims|] == claims;
    var deleted := Issuing(begun, DeleteAll(claims));
    ReachesJoin(w, begun, deleted);
    RestoredAreReady(w.c, claims);
    m := Recreating(deleted, RestoreAll(claims), RestoredClaims(claims), claims);
    ReachesJoin(w, deleted, m);
  }

  // ---- Replacing ----

  /** The volumes once the claims are retired: those they name are kept and free. */
  function Retired(volumes: map<string, Volume>, claims: seq<Claim>): map<string, Volume> {
    if claims == [] then volumes
    else Retired(volumes, claims[..|claims| - 1])[claims[|claims| - 1].spec.volumeName := Volume(true, None)]
  }

  /** What the reads of the retiring calls see. */
  function Seen(volumes: map<string, Volume>, claims: seq<Claim>): (seen: seq<(Volume, Volume)>)
    ensures |seen| == |claims|
  {
    if claims == [] then []
    else
      var n := |claims| - 1;
      var now, v := Retired(volumes, claims[..n]), claims[n].spec.volumeName;
      var volume := if v in now then now[v] else Volume(false, None);
      Seen(volumes, claims[..n]) + [(volume, volume.(retain := true))]
  }

  lemma {:induction false} RetiredVolumes(volumes: map<string, Volume>, claims: seq<Claim>)
    ensures Retired(volumes, claims).Keys == volumes.Keys + VolumesOf(claims)
    ensures forall v <- VolumesOf(claims) :: Retired(volumes, claims)[v] == Volume(true, None)
    ensures forall v <- volumes :: v !in VolumesOf(claims) ==> Retired(volumes, claims)[v] == volumes[v]
  {
    if claims != [] {
      var n := |claims| - 1;
      RetiredVolumes(volumes, claims[..n]);
      SetsOfNext(claims, n);
      assert claims[..n + 1] == claims;
    }
  }

  lemma KeepsVolume(c: Cluster, claim: Claim, volume: Volume)
    requires claim.spec.volumeName in c.volumes && c.volumes[claim.spec.volumeName] == volume
    ensures var v := claim.spec.volumeName;
      Issue(c, [GetPV(v, volume)] + (if volume.retain then [] else [UpdatePV(v, volume, volume.(retain := true))]))
      == Some(c.(volumes := c.volumes[v := volume.(retain := true)]))
  {
    var v := claim.spec.volumeName;
    IssueOne(c, GetPV(v, volume));
    if volume.retain {
      assert [GetPV(v, volume)] + [] == [GetPV(v, volume)];
      assert c.volumes[v := volume.(retain := true)] == c.volumes;
    } else {
      IssueOne(c, UpdatePV(v, volume, volume.(retain := true)));
      IssueConcat(c, [GetPV(v, volume)], [UpdatePV(v, volume, volume.(retain := true))]);
    }
  }

  lemma FreesVolume(c: Cluster, claim: Claim, volume: Volume)
    requires claim.spec.volumeName in c.volumes && c.volumes[claim.spec.volumeName] == volume && volume.retain
    ensures var v := claim.spec.volumeName;
      Issue(c, [DeletePVC(claim.Key())] + ([GetPV(v, volume)] + [UpdatePV(v, volume, volume.(claimRef := None))]))
      == Some(c.(claims := c.claims - {claim.Key()}, volumes := c.volumes[v := Volume(true, None)]))
  {
    var v := claim.spec.volumeName;
    var d := c.(claims := c.claims - {claim.Key()});
    IssueOne(c, DeletePVC(claim.Key()));
    IssueOne(d, GetPV(v, volume));
    IssueOne(d, UpdatePV(v, volume, volume.(claimRef := None)));
    IssueConcat(d, [GetPV(v, volume)], [UpdatePV(v, volume, volume.(claimRef := None))]);
    IssueConcat(c, [DeletePVC(claim.Key())], [GetPV(v, volume)] + [UpdatePV(v, volume, volume.(claimRef := None))]);
  }

  lemma RetiresOne(c: Cluster, claim: Claim, volume: Volume)
    requires claim.spec.volumeName in c.volumes && c.volumes[claim.spec.volumeName] == volume
    ensures Issue(c, RetireOps(claim, (volume, volume.(retain := true))))
         == Some(c.(claims := c.claims - {claim.Key()},
           volumes := c.volumes[claim.spec.volumeName := Volume(true, None)]))
  {
    var v, kept := claim.spec.volumeName, volume.(retain := true);
    var keep := [GetPV(v, volume)] + (if volume.retain then [] else [UpdatePV(v, volume, kept)]);
    var free := [DeletePVC(claim.Key())] + ([GetPV(v, kept)] + [UpdatePV(v, kept, kept.(claimRef := None))]);
    var d := c.(volumes := c.volumes[v := kept]);
    KeepsVolume(c, claim, volume);
    FreesVolume(d, claim, kept);
    IssueConcat(c, keep, free);
    assert RetireOps(claim, (volume, kept)) == keep + free;
    assert d.volumes[v := Volume(true, None)] == c.volumes[v := Volume(true, None)];
  }

  lemma {:induction false} RetiresAll(c: Cluster, claims: seq<Claim>)
    requires forall claim <- claims :: claim.spec.volumeName in c.volumes
    ensures Issue(c, RetireAll(claims, Seen(c.volumes, claims)))
         == Some(c.(claims := c.claims - KeysOf(claims), volumes := Retired(c.volumes, claims)))
  {
    if claims == [] {
      assert c.claims - KeysOf(claims) == c.claims;
    } else {
      var n := |claims| - 1;
      var seen := Seen(c.volumes, claims);
      RetiresAll(c, claims[..n]);
      RetireSame(claims[..n], Seen(c.volumes, claims[..n]), seen);
      RetiredVolumes(c.volumes, claims[..n]);
      var mid := c.(claims := c.claims - KeysOf(claims[..n]), volumes := Retired(c.volumes, claims[..n]));
      RetiresOne(mid, claims[n], mid.volumes[claims[n].spec.volumeName]);
      IssueConcat(c, RetireAll(claims[..n], seen), RetireOps(claims[n], VolumeAt(seen, n)));
      SetsOfNext(claims, n);
      assert claims[..n + 1] == claims;
      assert c.claims - KeysOf(claims[..n]) - {claims[n].Key()} == c.claims - KeysOf(claims);
    }
  }

  function AttachedClaims(stsType: Option<StatefulSetType>, claims: seq<Claim>,
      chosen: map<string, Snapshot>): (made: seq<Claim>)
    ensures |made| == |claims|
  {
    seq(|claims|, i requires 0 <= i < |claims| =>
      AttachSnapshot(stsType, claims[i], SnapshotFor(chosen, claims[i].name)))
  }

  lemma AttachedAreReady(c: Cluster, stsType: Option<StatefulSetType>, claims: seq<Claim>,
      chosen: map<string, Snapshot>)
    requires DistinctKeys(claims) && forall k <- KeysOf(claims) :: k !in c.claims
    ensures var made := AttachedClaims(stsType, claims, chosen);
      && Creates(CreateAll(stsType, claims, chosen), made) && SameKeys(made, claims) && DistinctKeys(made)
          && Restorable(c, made)
      && (forall claim <- made :: claim.Key() !in c.claims) && VolumesOf(made) <= {""}
  {
    var made := AttachedClaims(stsType, claims, chosen);
    forall i | 0 <= i < |made| ensures made[i].Key() in KeysOf(claims) {
      assert claims[i] in claims;
    }
  }

  function ReplaceAnswers(c: Cluster, claims: seq<Claim>): Obs {
    NO_ANSWERS.(snaps := c.snapshots, volumes := Seen(c.volumes, claims))
  }

  lemma ReplacingOps(r: Revert, obs: Obs, chosen: map<string, Snapshot>)
    requires StageOf(r) == Replace
    requires Select(LastOf(r).oldClaims, obs.snaps, obs.failed, r.action.fromTime, r.action.toTime) == Some(chosen)
    ensures PlanFor(r, obs).result.Some?
    ensures var claims := LastOf(r).oldClaims;
      AllOps(r, obs) == ([ListSnapshots(obs.snaps, obs.failed)] + RetireAll(claims, obs.volumes))
                      + (CreateAll(r.stsType, claims, chosen) + [AwaitBound(Keys(claims))])
                        + [UpdateRevert(r, PlanFor(r, obs).result.value)]
  {
    assert !Validates(r);
    ReplaceAllOps(r, obs);
  }

  /** How far the first half of a replacing stage goes. */
  function RetiredAt(claims: seq<Claim>, obs: Obs): nat { 1 + |RetireAll(claims, obs.volumes)| }

  lemma UpcomingParts(r: Revert, first: seq<Op>, second: seq<Op>, last: Op)
    requires forall op <- first + second :: !op.UpdateRevert?
    ensures var ops := first + second + [last];
      Upcoming(Busy(r, ops, 0), first) && Upcoming(Busy(r, ops, |first|), second)
  {
    var ops := first + second + [last];
    assert forall i | 0 <= i < |first| :: ops[i] == first[i] && first[i] in first + second;
    assert forall i | 0 <= i < |second| :: ops[|first| + i] == second[i] && second[i] in first + second;
  }

  lemma ReplacingUpcoming(r: Revert, obs: Obs, chosen: map<string, Snapshot>)
    requires StageOf(r) == Replace
    requires Select(LastOf(r).oldClaims, obs.snaps, obs.failed, r.action.fromTime, r.action.toTime) == Some(chosen)
    ensures var claims, ops := LastOf(r).oldClaims, AllOps(r, obs);
      && Upcoming(Busy(r, ops, 0), [ListSnapshots(obs.snaps, obs.failed)] + RetireAll(claims, obs.volumes))
      && Upcoming(Busy(r, ops, RetiredAt(claims, obs)),
          CreateAll(r.stsType, claims, chosen) + [AwaitBound(Keys(claims))])
      && |ops| == RetiredAt(claims, obs) + |claims| + 2
  {
    var claims := LastOf(r).oldClaims;
    ReplacingOps(r, obs, chosen);
    RetireAllKinds(claims, obs.volumes);
    UpcomingParts(r, [ListSnapshots(obs.snaps, obs.failed)] + RetireAll(claims, obs.volumes),
                  CreateAll(r.stsType, claims, chosen) + [AwaitBound(Keys(claims))],
                    UpdateRevert(r, PlanFor(r, obs).result.value));
  }

  lemma RetiringTaken(c: Cluster, claims: seq<Claim>)
    requires forall claim <- claims :: claim.spec.volumeName in c.volumes
    ensures var obs := ReplaceAnswers(c, claims);
      Issue(c, [ListSnapshots(obs.snaps, obs.failed)] + RetireAll(claims, obs.volumes))
      == Some(c.(claims := c.claims - KeysOf(claims), volumes := Retired(c.volumes, claims)))
  {
    var list := ListSnapshots(c.snapshots, false);
    assert Accepts(c, list);
    IssueOne(c, list);
    RetiresAll(c, claims);
    IssueConcat(c, [list], RetireAll(claims, Seen(c.volumes, claims)));
  }

  lemma Retires(w: World, claims: seq<Claim>, chosen: map<string, Snapshot>) returns (m: World)
    requires w.worker == Waiting && StageOf(w.c.stored) == Replace && claims == LastOf(w.c.stored).oldClaims
    requires forall claim <- claims :: claim.spec.volumeName in w.c.volumes
    requires Select(claims, w.c.snapshots, false, w.c.stored.action.fromTime, w.c.stored.action.toTime) == Some(chosen)
    ensures Reaches(w, m) && m.c == w.c.(claims := w.c.claims - KeysOf(claims), volumes := Retired(w.c.volumes, claims))
    ensures var obs := ReplaceAnswers(w.c, claims);
      m.worker == Busy(w.c.stored, AllOps(w.c.stored, obs), RetiredAt(claims, obs))
  {
    var obs := ReplaceAnswers(w.c, claims);
    ReplacingUpcoming(w.c.stored, obs, chosen);
    RetiringTaken(w.c, claims);
    var begun := Beginning(w, obs);
    m := Issuing(begun, [ListSnapshots(obs.snaps, obs.failed)] + RetireAll(claims, obs.volumes));
    ReachesJoin(w, begun, m);
  }

  lemma AttachesAll(w: World, stsType: Option<StatefulSetType>, claims: seq<Claim>, chosen: map<string, Snapshot>)
      returns (m: World)
    requires DistinctKeys(claims) && forall k <- KeysOf(claims) :: k !in w.c.claims
    requires Upcoming(w.worker, CreateAll(stsType, claims, chosen) + [AwaitBound(Keys(claims))])
    ensures Reaches(w, m) && m.worker == w.worker.(at := w.worker.at + |claims| + 1)
    ensures Recreated(w.c, m.c, AttachedClaims(stsType, claims, chosen))
  {
    AttachedAreReady(w.c, stsType, claims, chosen);
    m := Recreating(w, CreateAll(stsType, claims, chosen), AttachedClaims(stsType, claims, chosen), claims);
  }

  lemma Attaches(w: World, retired: World, claims: seq<Claim>, obs: Obs, chosen: map<string, Snapshot>)
      returns (m: World)
    requires Reaches(w, retired) && StageOf(w.c.stored) == Replace && claims == LastOf(w.c.stored).oldClaims
    requires DistinctKeys(claims)
    requires Select(claims, obs.snaps, obs.failed, w.c.stored.action.fromTime, w.c.stored.action.toTime) == Some(chosen)
    requires retired.c.stored == w.c.stored && forall k <- KeysOf(claims) :: k !in retired.c.claims
    requires retired.worker == Busy(w.c.stored, AllOps(w.c.stored, obs), RetiredAt(claims, obs))
    ensures AboutToStore(w, m, obs)
    ensures Recreated(retired.c, m.c, AttachedClaims(w.c.stored.stsType, claims, chosen))
  {
    ReplacingUpcoming(w.c.stored, obs, chosen);
    m := AttachesAll(retired, w.c.stored.stsType, claims, chosen);
    ReachesJoin(w, retired, m);
    ReplacingStores(w.c.stored, obs, chosen);
  }

  lemma ReplacingStores(r: Revert, obs: Obs, chosen: map<string, Snapshot>)
    requires StageOf(r) == Replace
    requires Select(LastOf(r).oldClaims, obs.snaps, obs.failed, r.action.fromTime, r.action.toTime) == Some(chosen)
    ensures PlanFor(r, obs).result.Some?
  {
    assert !Validates(r);
  }

  /** The volumes the old claims name are kept and free, whatever the new claims got. */
  lemma KeptAndFree(c: Cluster, retired: Cluster, c': Cluster, claims: seq<Claim>, made: seq<Claim>)
    requires retired.volumes == Retired(c.volumes, claims) && Recreated(retired, c', made) && VolumesOf(made) <= {""}
    ensures forall claim <- claims :: claim.spec.volumeName != "" ==>
      claim.spec.volumeName in c'.volumes && c'.volumes[claim.spec.volumeName] == Volume(true, None)
  {
    RetiredVolumes(c.volumes, claims);
    forall claim | claim in claims && claim.spec.volumeName != ""
      ensures claim.spec.volumeName in c'.volumes && c'.volumes[claim.spec.volumeName] == Volume(true, None)
    {
      assert claim.spec.volumeName in VolumesOf(claims);
    }
  }

  lemma ReplaceIsReached(count: nat, w: World) returns (m: World, obs: Obs)
    requires Sound(count, w) && w.worker == Waiting && StageOf(w.c.stored) == Replace && Ready(w.c, w.c.stored)
    ensures AboutToStore(w, m, obs)
    ensures m.c == w.c.(claims := m.c.claims, volumes := m.c.volumes, nextUid := m.c.nextUid)
    ensures forall claim <- LastOf(w.c.stored).oldClaims :: claim.spec.volumeName != "" ==>
      claim.spec.volumeName in m.c.volumes && m.c.volumes[claim.spec.volumeName] == Volume(true, None)
  {
    assert LastOf(w.c.stored) in w.c.stored.reverts;
    obs := ReplaceAnswers(w.c, LastOf(w.c.stored).oldClaims);
    m := Replaces(w, LastOf(w.c.stored).oldClaims);
  }

  lemma Replaces(w: World, claims: seq<Claim>) returns (m: World)
    requires w.worker == Waiting && StageOf(w.c.stored) == Replace && claims == LastOf(w.c.stored).oldClaims
    requires DistinctKeys(claims) && Replaceable(w.c, w.c.stored)
    ensures AboutToStore(w, m, ReplaceAnswers(w.c, claims))
    ensures m.c == w.c.(claims := m.c.claims, volumes := m.c.volumes, nextUid := m.c.nextUid)
    ensures forall claim <- claims :: claim.spec.volumeName != "" ==>
      claim.spec.volumeName in m.c.volumes && m.c.volumes[claim.spec.volumeName] == Volume(true, None)
  {
    var r := w.c.stored;
    var chosen := Chosen(claims, w.c.snapshots, r.action.fromTime, r.action.toTime);
    var retired := Retires(w, claims, chosen);
    m := Attaches(w, retired, claims, ReplaceAnswers(w.c, claims), chosen);
    AttachedAreReady(retired.c, r.stsType, claims, chosen);
    KeptAndFree(w.c, retired.c, m.c, claims, AttachedClaims(r.stsType, claims, chosen));
  }
}
