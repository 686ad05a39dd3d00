/** From the claims of a run to the claims of its copy of the application
    (pkg/apis/snapshotmanager/v1alpha1/types.go, pkg/manager/kustomization.go). */
module Kustomize {
  import opened Wrappers
  import opened Types

  /** The text after the last dash, or all of it: the last element of strings.Split(s, "-"). */
  function LastSegment(s: string): string {
    if s == "" || s[|s| - 1] == '-' then "" else LastSegment(s[..|s| - 1]) + [s[|s| - 1]]
  }

  function KustName(t: StatefulSetType, prefix: string, name: string): string {
    t.claim + "-" + (prefix + t.name) + "-" + LastSegment(name)
  }

  function KustClaim(strategy: Strategy, snap: string, claim: Claim): Claim {
    var t, k := strategy.stsType, strategy.kustomization;
    Claim(
      claim.namespace,
      if t.Some? then KustName(t.value, k.namePrefix, claim.name) else "",
      k.commonLabels,
      map[SNAPSHOT_KEY := snap] + k.commonAnnotations,
      ClaimSpec(if t.Some? then t.value.snapshotClass else None, claim.spec.accessModes, claim.spec.resources, ""),
      false, 0)
  }

  /** `order` lists the keys of a map, each once: the order in which a range loop visits them. */
  ghost predicate Enumerates(order: seq<string>, keys: set<string>) {
    && (forall i, j | 0 <= i < j < |order| :: order[i] != order[j])
    && (forall k: string :: k in order <==> k in keys)
  }

  /** One output per entry of the map, in whatever order the map is visited. */
  ghost predicate Kustomized(strategy: Strategy, claims: map<string, Claim>, order: seq<string>, made: seq<Claim>) {
    && Enumerates(order, claims.Keys)
    && |made| == |order|
    && (forall i | 0 <= i < |made| :: order[i] in claims && made[i] == KustClaim(strategy, order[i], claims[order[i]]))
  }

  method KustomizeClaims(strategy: Strategy, claims: map<string, Claim>)
      returns (made: seq<Claim>, ghost order: seq<string>)
    ensures Kustomized(strategy, claims, order, made)
    ensures exists visited: seq<string> :: Kustomized(strategy, claims, visited, made)
  {
    made, order := [], [];
    var rest := claims.Keys;
    while rest != {}
      invariant rest <= claims.Keys
      invariant Kustomized(strategy, map s | s in claims && s !in rest :: claims[s], order, made)
      decreases |rest|
    {
      var snap :| snap in rest;
      var claim := claims[snap];
      var annotations: Labels := map[SNAPSHOT_KEY := snap];
      annotations := annotations + strategy.kustomization.commonAnnotations;
      var copy := Claim(claim.namespace, "", strategy.kustomization.commonLabels, annotations,
                         ClaimSpec(None, claim.spec.accessModes, claim.spec.resources, ""), false, 0);
      if strategy.stsType.Some? {
        var t := strategy.stsType.value;
        copy := copy.(name := KustName(t, strategy.kustomization.namePrefix, claim.name),
                        spec := copy.spec.(storageClass := t.snapshotClass));
      }
      assert copy == KustClaim(strategy, snap, claim);
      made, order := made + [copy], order + [snap];
      rest := rest - {snap};
    }
    assert claims == map s | s in claims && s !in rest :: claims[s];
  }

  /** getClaims re-keys the claims of a run by their snapshots; of claims that share a snapshot the last one visited
      stays. */
  ghost predicate BySnapshot(entries: map<string, string>, live: map<string, Claim>, claims: map<string, Claim>) {
    && (forall c <- entries :: c in live && entries[c] in claims)
    && (forall s <- claims :: exists c :: c in entries && c in live && entries[c] == s && claims[s] == live[c])
  }

  // ---- Names ----

  lemma {:induction false} LastSegmentOf(pre: string, id: string)
    requires '-' !in id
    ensures LastSegment(pre + "-" + id) == id
  {
    var s := pre + "-" + id;
    if id == "" {
      assert s == pre + "-";
    } else {
      assert s[..|s| - 1] == pre + "-" + id[..|id| - 1];
      LastSegmentOf(pre, id[..|id| - 1]);
    }
  }

  /** The name of the claim of replica `id` for one claim template. */
  function MemberName(t: StatefulSetType, id: string): string {
    t.claim + "-" + t.name + "-" + id
  }

  predicate IsMember(t: StatefulSetType, name: string, id: string) {
    '-' !in id && name == MemberName(t, id)
  }

  /** The copy of replica `id` keeps its ordinal, and its whole name if there is no prefix. */
  lemma KustNameOf(t: StatefulSetType, prefix: string, name: string, id: string)
    requires IsMember(t, name, id)
    ensures KustName(t, prefix, name) == t.claim + "-" + (prefix + t.name) + "-" + id
    ensures prefix == "" ==> KustName(t, prefix, name) == name
  {
    LastSegmentOf(t.claim + "-" + t.name, id);
    assert t.claim + "-" + t.name + "-" + id == (t.claim + "-" + t.name) + "-" + id;
    if prefix == "" {
      assert prefix + t.name == t.name;
    }
  }

  lemma SuffixInjective(pre: string, a: string, b: string)
    requires pre + a == pre + b
    ensures a == b
  {
    assert (pre + a)[|pre|..] == a;
    assert (pre + b)[|pre|..] == b;
  }

  /** Different members have differently named copies. */
  lemma KustNamesDistinct(t: StatefulSetType, prefix: string, a: string, b: string, i: string, j: string)
    requires IsMember(t, a, i) && IsMember(t, b, j) && a != b
    ensures KustName(t, prefix, a) != KustName(t, prefix, b)
  {
    KustNameOf(t, prefix, a, i);
    KustNameOf(t, prefix, b, j);
    if KustName(t, prefix, a) == KustName(t, prefix, b) {
      SuffixInjective(t.claim + "-" + (prefix + t.name) + "-", i, j);
    }
  }

  /** What the caller of kustomize must have: members of one StatefulSet template, a snapshot of its own for each, and
      no common annotation in the place of the snapshot. */
  ghost predicate WellPosed(strategy: Strategy, entries: map<string, string>, live: map<string, Claim>) {
    && strategy.stsType.Some?
    && SNAPSHOT_KEY !in strategy.kustomization.commonAnnotations
    && (forall c <- entries :: c in live && live[c].name == c && exists id :: IsMember(strategy.stsType.value, c, id))
    && (forall a, b :: a in entries && b in entries && a != b ==> entries[a] != entries[b])
  }

  /** Output `made` is the copy of claim `c`: its own snapshot and ordinal, the size and access of the original, the
      labels and annotations common to the copy, and no volume yet. */
  ghost predicate CopyOf(strategy: Strategy, entries: map<string, string>, live: map<string, Claim>, made: Claim,
      c: string) {
    && c in entries && c in live && strategy.stsType.Some?
    && made.namespace == live[c].namespace && made.labels == strategy.kustomization.commonLabels
    && made.annotations.Keys == strategy.kustomization.commonAnnotations.Keys + {SNAPSHOT_KEY}
    && (forall a <- strategy.kustomization.commonAnnotations ::
        made.annotations[a] == strategy.kustomization.commonAnnotations[a])
    && made.spec == ClaimSpec(strategy.stsType.value.snapshotClass, live[c].spec.accessModes, live[c].spec.resources,
        "")
    && SNAPSHOT_KEY in made.annotations && made.annotations[SNAPSHOT_KEY] == entries[c]
    && made.name == KustName(strategy.stsType.value, strategy.kustomization.namePrefix, c)
    && (strategy.kustomization.namePrefix == "" ==> made.name == c)
  }

  ghost predicate IsSomeCopy(strategy: Strategy, entries: map<string, string>, live: map<string, Claim>, made: Claim) {
    exists c <- entries :: CopyOf(strategy, entries, live, made, c)
  }

  lemma OutputIsCopy(
    strategy: Strategy, entries: map<string, string>, live: map<string, Claim>,
    claims: map<string, Claim>, order: seq<string>, made: seq<Claim>, i: nat) returns (c: string)
    requires WellPosed(strategy, entries, live) && BySnapshot(entries, live, claims)
    requires Kustomized(strategy, claims, order, made) && i < |made|
    ensures CopyOf(strategy, entries, live, made[i], c) && entries[c] == order[i]
  {
    c :| c in entries && c in live && entries[c] == order[i] && claims[order[i]] == live[c];
    var id :| IsMember(strategy.stsType.value, c, id);
    KustNameOf(strategy.stsType.value, strategy.kustomization.namePrefix, c, id);
  }

  lemma EveryClaimHasCopy(
    strategy: Strategy, entries: map<string, string>, live: map<string, Claim>,
    claims: map<string, Claim>, order: seq<string>, made: seq<Claim>, c: string)
    requires WellPosed(strategy, entries, live) && BySnapshot(entries, live, claims)
    requires Kustomized(strategy, claims, order, made) && c in entries
    ensures exists i | 0 <= i < |made| :: CopyOf(strategy, entries, live, made[i], c)
  {
    assert entries[c] in claims;
    assert entries[c] in order;
    var i :| 0 <= i < |order| && order[i] == entries[c];
    var c' := OutputIsCopy(strategy, entries, live, claims, order, made, i);
    assert c' == c;
  }

  lemma CopiesDiffer(
    strategy: Strategy, entries: map<string, string>, live: map<string, Claim>,
    claims: map<string, Claim>, order: seq<string>, made: seq<Claim>, i: nat, j: nat)
    requires WellPosed(strategy, entries, live) && BySnapshot(entries, live, claims)
    requires Kustomized(strategy, claims, order, made) && i < j < |made|
    ensures made[i].name != made[j].name && made[i].annotations != made[j].annotations
  {
    var a := OutputIsCopy(strategy, entries, live, claims, order, made, i);
    var b := OutputIsCopy(strategy, entries, live, claims, order, made, j);
    assert order[i] != order[j];
    var t := strategy.stsType.value;
    var x, y :| IsMember(t, a, x) && IsMember(t, b, y);
    KustNamesDistinct(t, strategy.kustomization.namePrefix, a, b, x, y);
  }

  /** Kustomized claims correspond one to one to the claims of the run: every claim has exactly one copy, which
      carries its own snapshot and ordinal, names are pairwise distinct, and without a prefix a copy has the name of
      the original. */
  lemma KustomizedOneToOne(
    strategy: Strategy, entries: map<string, string>, live: map<string, Claim>,
    claims: map<string, Claim>, order: seq<string>, made: seq<Claim>)
    requires WellPosed(strategy, entries, live) && BySnapshot(entries, live, claims)
    requires Kustomized(strategy, claims, order, made)
    ensures forall c <- entries :: exists i | 0 <= i < |made| :: CopyOf(strategy, entries, live, made[i], c)
    ensures forall i | 0 <= i < |made| :: IsSomeCopy(strategy, entries, live, made[i])
    ensures forall i, j | 0 <= i < j < |made| :: made[i].name != made[j].name
    ensures forall i, j, c | 0 <= i < j < |made| ::
        !(CopyOf(strategy, entries, live, made[i], c) && CopyOf(strategy, entries, live, made[j], c))
  {
    forall c | c in entries ensures exists i | 0 <= i < |made| :: CopyOf(strategy, entries, live, made[i], c) {
      EveryClaimHasCopy(strategy, entries, live, claims, order, made, c);
    }
    forall i | 0 <= i < |made| ensures IsSomeCopy(strategy, entries, live, made[i]) {
      var c := OutputIsCopy(strategy, entries, live, claims, order, made, i);
    }
    forall i, j | 0 <= i < j < |made| ensures made[i].name != made[j].name {
      CopiesDiffer(strategy, entries, live, claims, order, made, i, j);
    }
  }

  /** The price of a missing prefix: the copy then has the very key of the original, so creating it is refused as
      existing and cleaning it up deletes the original claim. */
  lemma WithoutPrefixCopyIsOriginal(strategy: Strategy, snap: string, claim: Claim, id: string)
    requires strategy.stsType.Some? && IsMember(strategy.stsType.value, claim.name, id)
    ensures KustClaim(strategy, snap, claim).Key() == claim.Key() <==> strategy.kustomization.namePrefix == ""
  {
    var t, prefix := strategy.stsType.value, strategy.kustomization.namePrefix;
    KustNameOf(t, prefix, claim.name, id);
    if KustName(t, prefix, claim.name) == claim.name {
      assert |t.claim + "-" + (prefix + t.name) + "-" + id| == |t.claim + "-" + t.name + "-" + id|;
    }
  }

  /** A copy is filled from its snapshot unless a common annotation takes that place. */
  lemma FilledFromSnapshotIff(strategy: Strategy, snap: string, claim: Claim)
    ensures var made, common := KustClaim(strategy, snap, claim), strategy.kustomization.commonAnnotations;
      && "snapshot.alpha.kubernetes.io/snapshot" in made.annotations
      && (made.annotations["snapshot.alpha.kubernetes.io/snapshot"] == snap <==>
            "snapshot.alpha.kubernetes.io/snapshot" in common ==>
              common["snapshot.alpha.kubernetes.io/snapshot"] == snap)
  {
  }

  /** Without a StatefulSet type the copies have no name, so two of them in one namespace have the same key. */
  lemma CopiesCollideWithoutType(strategy: Strategy, snap: string, claim: Claim, snap': string, claim': Claim)
    requires strategy.stsType.None?
    ensures KustClaim(strategy, snap, claim).name == "" && KustClaim(strategy, snap, claim).spec.storageClass == None
    ensures KustClaim(strategy, snap, claim).Key() == KustClaim(strategy, snap', claim').Key() <==>
            claim.namespace == claim'.namespace
  {
  }
}
