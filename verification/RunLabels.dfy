/** Which snapshots a run validates and which it labels: the claims of a run are made from the snapshots of the version
    that was kustomized, the labels go to the snapshots of the version that finishes its validation. */
module RunLabels {
  import opened Wrappers
  import opened Types
  import opened Kustomize
  import opened RunPlan
  import opened RunMachine
  import opened RunSafety
  import opened RunCompleteness

  /** Some claim of the run is to be filled from this snapshot. */
  predicate MadeFrom(claims: seq<Claim>, snapshot: string) {
    exists claim <- claims :: SNAPSHOT_KEY in claim.annotations && claim.annotations[SNAPSHOT_KEY] == snapshot
  }

  /** The claims are what kustomize makes of version `k` for the strategy that owns it. */
  ghost predicate MadeBy(strategies: map<string, Strategy>, k: Run, claims: seq<Claim>) {
    && k.owner in strategies
    && exists obs :: KustAnswers(k, obs) && obs.strategy == Some(strategies[k.owner]) && obs.made == claims
  }

  /** Version `k` is the one that was kustomized. */
  ghost predicate Origin(strategies: map<string, Strategy>, k: Run, run: Run) {
    && k.name == run.name && k.owner == run.owner && k.claimsToSnapshots.Keys == run.claimsToSnapshots.Keys
    && StageOf(k.status) == 1 && MadeBy(strategies, k, run.claims)
  }

  ghost predicate HasOrigin(s: Site, run: Run) {
    run.status.kustFinished ==> exists k <- s.past :: Origin(s.strategies, k, run)
  }

  ghost predicate Sourced(s: Site) {
    forall run <- s.past :: HasOrigin(s, run)
  }

  // ---- Every kustomized version has its origin ----

  lemma OriginStays(s: Site, t: Site, run: Run)
    requires HasOrigin(s, run) && s.past <= t.past && s.strategies == t.strategies
    ensures HasOrigin(t, run)
  {
    if run.status.kustFinished {
      var k :| k in s.past && Origin(s.strategies, k, run);
      assert k in t.past;
    }
  }

  /** A version that carries the claims of an earlier one over. */
  lemma CarriedOver(s: Site, run: Run, next: Run)
    requires HasOrigin(s, run) && next.name == run.name && next.owner == run.owner && next.claims == run.claims
    requires next.claimsToSnapshots.Keys == run.claimsToSnapshots.Keys
    requires next.status.kustFinished ==> run.status.kustFinished
    ensures HasOrigin(s, next)
  {
    if next.status.kustFinished {
      var k :| k in s.past && Origin(s.strategies, k, run);
      assert Origin(s.strategies, k, next);
    }
  }

  lemma StoringKeepsSourced(s: Site, next: Run)
    requires Sourced(s) && HasOrigin(s, next)
    ensures Sourced(StoreRun(s, next))
  {
    forall run | run in StoreRun(s, next).past ensures HasOrigin(StoreRun(s, next), run) {
      OriginStays(s, StoreRun(s, next), run);
    }
  }

  lemma QuietKeepsSourced(s: Site, act: Act)
    requires Sourced(s) && !act.UpdateRun?
    ensures Sourced(Effect(s, act)) && Effect(s, act).strategies == s.strategies
  {
    forall run | run in Effect(s, act).past ensures HasOrigin(Effect(s, act), run) {
      OriginStays(s, Effect(s, act), run);
    }
  }

  /** What a plan stores, in terms of its copy. */
  lemma StoredFromPlan(copy: Run, obs: Obs, at: nat)
    requires at < |AllActs(copy, obs)| && AllActs(copy, obs)[at].UpdateRun?
    requires PlanFits(copy, AllActs(copy, obs))
    ensures PlanFor(copy, obs).finish.Store? && AllActs(copy, obs)[at].next == PlanFor(copy, obs).finish.next
    ensures at == |PlanFor(copy, obs).acts|
  {
    assert at == |AllActs(copy, obs)| - 1;
    PlanActsAreQuiet(copy, obs);
    var acts := PlanFor(copy, obs).acts;
    assert forall i | 0 <= i < |acts| :: AllActs(copy, obs)[i] == acts[i] && acts[i] in acts;
  }

  lemma PlanActsAreQuiet(copy: Run, obs: Obs)
    ensures forall act <- PlanFor(copy, obs).acts :: !act.UpdateRun?
  {
    ObjectActsKind(copy.kustomized, obs.created);
    LabelActsKind(copy, obs.visited);
    DropActsKind(copy.claims, obs.claimsDeleted);
  }

  lemma KustStores(copy: Run, obs: Obs)
    requires StageOf(copy.status) == 1 && PlanFor(copy, obs).finish.Store?
    ensures KustAnswers(copy, obs) && PlanFor(copy, obs).finish.next.claims == obs.made
    ensures AllActs(copy, obs)[0] == FindStrategy(copy.owner, obs.strategy)
  {
  }

  lemma StoredHasOrigin(s: Site, t: Task, obs: Obs)
    requires Sourced(s) && TaskGood(s, t) && t.acts == AllActs(t.copy, obs) && t.at < |t.acts|
    requires t.acts[t.at].UpdateRun?
    ensures HasOrigin(s, t.acts[t.at].next)
  {
    var next := t.acts[t.at].next;
    assert Advances(t.copy, t.acts[..t.at], next);
    StoredFromPlan(t.copy, obs, t.at);
    if StageOf(t.copy.status) == 1 {
      KustStores(t.copy, obs);
      assert Done(s, t.acts[0]);
      assert MadeBy(s.strategies, t.copy, next.claims);
      assert Origin(s.strategies, t.copy, next);
    } else {
      CarriedOver(s, t.copy, next);
    }
  }

  lemma CallKeepsSourced(s: Site, t: Task, obs: Obs)
    requires Sourced(s) && TaskGood(s, t) && t.acts == AllActs(t.copy, obs) && t.at < |t.acts|
    ensures Sourced(Effect(s, t.acts[t.at]))
  {
    if t.acts[t.at].UpdateRun? {
      StoredHasOrigin(s, t, obs);
      StoringKeepsSourced(s, t.acts[t.at].next);
    } else {
      QuietKeepsSourced(s, t.acts[t.at]);
    }
  }

  lemma ProceedKeepsSourced(w: World, id: nat)
    requires Good(w) && Planned(w) && Sourced(w.s) && Enabled(w, Proceed(id))
    ensures Sourced(Next(w, Proceed(id)).s)
  {
    var t := w.tasks[id];
    var obs :| t.acts == AllActs(t.copy, obs);
    CallKeepsSourced(w.s, t, obs);
  }

  lemma StepKeepsSourced(w: World, l: Label)
    requires Good(w) && Planned(w) && Sourced(w.s) && Enabled(w, l)
    ensures Sourced(Next(w, l).s)
  {
    match l
    case Proceed(id) => ProceedKeepsSourced(w, id);
    case SnapshotUpdates(n, claim, snapshot) =>
      var run := w.s.runs[n];
      var next := run.(claimsToSnapshots := run.claimsToSnapshots[claim := snapshot]);
      CarriedOver(w.s, run, next);
      StoringKeepsSourced(w.s, next);
    case RunCreated(run) => StoringKeepsSourced(w.s, run);
    case CleanupRequested(n) =>
      CarriedOver(w.s, w.s.runs[n], w.s.runs[n].(cleanup := true));
      StoringKeepsSourced(w.s, w.s.runs[n].(cleanup := true));
    case _ =>
      forall run | run in Next(w, l).s.past ensures HasOrigin(Next(w, l).s, run) {
        OriginStays(w.s, Next(w, l).s, run);
      }
  }

  lemma {:induction false} AlwaysSourced(w: World, labels: seq<Label>)
    requires Start(w) && Exec(w, labels).Some?
    ensures Sourced(Exec(w, labels).value.s)
  {
    if labels != [] {
      var before := labels[..|labels| - 1];
      AlwaysSourced(w, before);
      AlwaysGood(w, before);
      AlwaysPlanned(w, before);
      StepKeepsSourced(Exec(w, before).value, labels[|labels| - 1]);
    }
  }

  // ---- What is made and what is labelled ----

  /** Some claim is mapped to this snapshot. */
  predicate Uses(entries: map<string, string>, snapshot: string) {
    exists c <- entries :: entries[c] == snapshot
  }

  /** Kustomized claims are made from exactly the snapshots of the version they are made for. */
  lemma MadeFromItsSnapshots(strategies: map<string, Strategy>, k: Run, claims: seq<Claim>, snapshot: string)
    requires MadeBy(strategies, k, claims)
    requires SNAPSHOT_KEY !in strategies[k.owner].kustomization.commonAnnotations
    ensures MadeFrom(claims, snapshot) <==> Uses(k.claimsToSnapshots, snapshot)
  {
    var obs :| KustAnswers(k, obs) && obs.strategy == Some(strategies[k.owner]) && obs.made == claims;
    var strategy := strategies[k.owner];
    forall i | 0 <= i < |claims|
        ensures SNAPSHOT_KEY in claims[i].annotations && claims[i].annotations[SNAPSHOT_KEY] == obs.order[i] {
      assert claims[i] == KustClaim(strategy, obs.order[i], obs.bySnapshot[obs.order[i]]);
    }
    if MadeFrom(claims, snapshot) {
      var i :| 0 <= i < |claims| && claims[i].annotations[SNAPSHOT_KEY] == snapshot;
      assert obs.order[i] in obs.bySnapshot;
    }
    if Uses(k.claimsToSnapshots, snapshot) {
      assert snapshot in obs.bySnapshot;
      assert snapshot in obs.order;
      var i :| 0 <= i < |obs.order| && obs.order[i] == snapshot;
      assert claims[i] in claims;
    }
  }

  /** The labels of a validation that is about to be stored. */
  lemma LabelsOfPlan(run: Run, obs: Obs, snapshot: string)
    requires StageOf(run.status) == 7 && PlanFor(run, obs).finish.Store?
    ensures LabelSnapshot(snapshot) in AllActs(run, obs) <==> Uses(run.claimsToSnapshots, snapshot)
  {
    if c :| c in run.claimsToSnapshots && run.claimsToSnapshots[c] == snapshot {
      LabelsInPlan(run, obs, c);
    }
    if LabelSnapshot(snapshot) in AllActs(run, obs) {
      assert LabelSnapshot(snapshot) in LabelActs(run, obs.visited);
      LabelNamesClaim(run, obs.visited, snapshot);
      var i :| 0 <= i < |obs.visited| && snapshot == SnapshotOf(run, obs.visited[i].0);
      assert Visits(obs.visited)[i] in Visits(obs.visited);
    }
  }

  function SnapshotOf(run: Run, c: string): string {
    if c in run.claimsToSnapshots then run.claimsToSnapshots[c] else ""
  }

  lemma {:induction false} LabelNamesClaim(run: Run, visited: seq<(string, Claim)>, snapshot: string)
    requires LabelSnapshot(snapshot) in LabelActs(run, visited)
    ensures exists i | 0 <= i < |visited| :: snapshot == SnapshotOf(run, visited[i].0)
  {
    if visited != [] {
      var n := |visited| - 1;
      if LabelSnapshot(snapshot) in LabelActs(run, visited[..n]) {
        LabelNamesClaim(run, visited[..n], snapshot);
        var i :| 0 <= i < n && snapshot == SnapshotOf(run, visited[..n][i].0);
        assert visited[i] == visited[..n][i];
      } else {
        assert snapshot == SnapshotOf(run, visited[n].0);
      }
    }
  }

  /** Everything labelled was validated. */
  ghost predicate LabelsAreEarned(t: Task) {
    forall s: string :: LabelSnapshot(s) in t.acts ==> MadeFrom(t.copy.claims, s)
  }

  /** No snapshot has arrived since the version `k` was kustomized that is not one of its own. */
  predicate NoneArrivedSince(k: Run, copy: Run) {
    forall c <- copy.claimsToSnapshots :: Uses(k.claimsToSnapshots, copy.claimsToSnapshots[c])
  }

  /** Exactly when the labels are earned: in every run of the machine, when a validation is about to be stored, every
      snapshot it has labelled is one the run's claims were made from, if and only if the snapshots of its copy are all
      among those of the version that was kustomized, that is, if no other snapshot has arrived in between. */
  lemma LabelsAreEarnedIff(w: World, labels: seq<Label>, id: nat) returns (k: Run)
    requires Start(w) && Exec(w, labels).Some? && Stores(Exec(w, labels).value, id, 7)
    requires var m := Exec(w, labels).value; var owner := m.tasks[id].copy.owner;
      owner in m.s.strategies ==> SNAPSHOT_KEY !in m.s.strategies[owner].kustomization.commonAnnotations
    ensures var m := Exec(w, labels).value; var copy := m.tasks[id].copy;
      && k in m.s.past && Origin(m.s.strategies, k, copy)
      && (LabelsAreEarned(m.tasks[id]) <==> NoneArrivedSince(k, copy))
  {
    var m := Exec(w, labels).value;
    var t := m.tasks[id];
    AlwaysGood(w, labels);
    AlwaysPlanned(w, labels);
    AlwaysSourced(w, labels);
    assert TaskGood(m.s, t) && GoodRun(m.s, t.copy);
    PrefixChain(t.copy.status);
    k :| k in m.s.past && Origin(m.s.strategies, k, t.copy);
    var obs :| t.acts == AllActs(t.copy, obs);
    StoredFromPlan(t.copy, obs, t.at);
    EarnedByOrigin(m.s.strategies, k, t.copy, obs);
  }

  lemma EarnedByOrigin(strategies: map<string, Strategy>, k: Run, copy: Run, obs: Obs)
    requires Origin(strategies, k, copy) && StageOf(copy.status) == 7 && PlanFor(copy, obs).finish.Store?
    requires SNAPSHOT_KEY !in strategies[k.owner].kustomization.commonAnnotations
    ensures (forall s: string :: LabelSnapshot(s) in AllActs(copy, obs) ==> MadeFrom(copy.claims, s)) <==>
        NoneArrivedSince(k, copy)
  {
    forall s: string ensures LabelSnapshot(s) in AllActs(copy, obs) <==> Uses(copy.claimsToSnapshots, s) {
      LabelsOfPlan(copy, obs, s);
    }
    forall s: string ensures MadeFrom(copy.claims, s) <==> Uses(k.claimsToSnapshots, s) {
      MadeFromItsSnapshots(strategies, k, copy.claims, s);
    }
    EarnedBySets(copy, k, AllActs(copy, obs));
  }

  lemma EarnedBySets(copy: Run, k: Run, acts: seq<Act>)
    requires forall s: string :: LabelSnapshot(s) in acts <==> Uses(copy.claimsToSnapshots, s)
    requires forall s: string :: MadeFrom(copy.claims, s) <==> Uses(k.claimsToSnapshots, s)
    ensures (forall s: string :: LabelSnapshot(s) in acts ==> MadeFrom(copy.claims, s)) <==> NoneArrivedSince(k, copy)
  {
    if forall s: string :: LabelSnapshot(s) in acts ==> MadeFrom(copy.claims, s) {
      forall c | c in copy.claimsToSnapshots ensures Uses(k.claimsToSnapshots, copy.claimsToSnapshots[c]) {
        assert Uses(copy.claimsToSnapshots, copy.claimsToSnapshots[c]);
        assert LabelSnapshot(copy.claimsToSnapshots[c]) in acts;
      }
    }
  }
}
