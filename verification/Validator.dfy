/** The validation controller in the form of pkg/manager/validator.go: methods that work through the API on a copy of
    the run. Each is proved to issue the calls its plan names, in that order, up to the call that fails. */
module Validator {
  import opened Wrappers
  import opened Types
  import opened Kustomize
  import opened RunPlan
  import opened RunCalls
  import opened Following

  const NO_OBS := Obs(None, [], [], map[], [], [], [], false, [])

  /** The working copy of a ValidationRun, with the version it was copied from. */
  class ValidationRun {
    const read: Run
    var claims: seq<Claim>
    var kustomized: seq<string>
    var status: Status

    function Value(): Run
      reads this
    {
      read.(claims := claims, kustomized := kustomized, status := status)
    }

    constructor (run: Run)
      ensures read == run && Value() == run
    {
      read, claims, kustomized, status := run, run.claims, run.kustomized, run.status;
    }
  }

  /** The loop variable of pvcToPtr. */
  class LoopVariable {
    var pvc: Claim

    constructor (pvc: Claim)
      ensures this.pvc == pvc
    {
      this.pvc := pvc;
    }
  }

  /** pvcToPtr collects the address of one and the same variable, so all pointers see the claim it held last. */
  method CollectPointers(pvcs: seq<Claim>) returns (ptrs: seq<LoopVariable>)
    ensures |ptrs| == |pvcs|
    ensures forall i | 0 <= i < |ptrs| :: fresh(ptrs[i]) && ptrs[i].pvc == PvcToPtr(pvcs)[i]
  {
    ptrs := [];
    if |pvcs| == 0 {
      return;
    }
    var pvc := new LoopVariable(pvcs[0]);
    for i := 0 to |pvcs|
      invariant |ptrs| == i && fresh(pvc)
      invariant forall j | 0 <= j < i :: ptrs[j] == pvc
      invariant i > 0 ==> pvc.pvc == pvcs[i - 1]
    {
      pvc.pvc := pvcs[i];
      ptrs := ptrs + [pvc];
    }
  }

  method Dereferenced(ptrs: seq<LoopVariable>) returns (pvcs: seq<Claim>)
    ensures |pvcs| == |ptrs| && forall i | 0 <= i < |ptrs| :: pvcs[i] == ptrs[i].pvc
  {
    pvcs := [];
    for i := 0 to |ptrs|
      invariant |pvcs| == i && forall j | 0 <= j < i :: pvcs[j] == ptrs[j].pvc
    {
      pvcs := pvcs + [ptrs[i].pvc];
    }
  }

  class Validator {
    const kube: KubeCalls

    constructor (kube: KubeCalls)
      ensures this.kube == kube
    {
      this.kube := kube;
    }

    /** An error has its reason: a call has failed, a claim has no snapshot when the run is to be kustomized, or the
        strategy of the run was not found. */
    twostate predicate Excused(run: Run)
      reads kube
    {
      || kube.Hindered()
      || (!run.status.kustStarted && exists c <- run.claimsToSnapshots :: run.claimsToSnapshots[c] == "")
      || kube.Ended(FindStrategy(run.owner, None))
    }

    /** Store the copy with the stamp of its stage. */
    method Update(run: ValidationRun) returns (err: MaybeError)
      requires kube.Valid()
      modifies kube
      ensures kube.Did([UpdateRun(run.read, run.Value())], err.None?)
      ensures err.Some? ==> kube.Hindered()
    {
      err := kube.UpdateValidationRun(run.read, run.Value());
    }

    method BeforeKust(run: ValidationRun) returns (err: MaybeError)
      requires kube.Valid() && run.Value() == run.read && StageOf(run.read.status) == 0
      modifies kube, run
      ensures kube.Did(AllActs(run.read, NO_OBS), err.None?)
      ensures err.None? ==> NoGaps(run.read)
      ensures err.Some? ==>
        kube.Hindered() || exists c <- run.read.claimsToSnapshots :: run.read.claimsToSnapshots[c] == ""
    {
      var rest := run.read.claimsToSnapshots.Keys;
      while rest != {}
        invariant rest <= run.read.claimsToSnapshots.Keys
        invariant forall c <- run.read.claimsToSnapshots :: c !in rest ==> run.read.claimsToSnapshots[c] != ""
        modifies {}
        decreases |rest|
      {
        var c :| c in rest;
        if run.read.claimsToSnapshots[c] == "" {
          return Some(Failed);
        }
        rest := rest - {c};
      }
      run.status := run.status.(kustStarted := true);
      err := Update(run);
    }

    /** getClaims: read the claims of the run in the order the map is visited. */
    method GetClaims(run: Run)
        returns (claims: map<string, Claim>, err: MaybeError, ghost visited: seq<(string, Claim)>)
      requires kube.Valid()
      modifies kube
      ensures kube.Did(ReadActs(run.namespace, visited), err.None?)
      ensures err.None? ==>
        && Enumerates(Visits(visited), run.claimsToSnapshots.Keys)
        && BySnapshot(run.claimsToSnapshots, Live(visited), claims)
      ensures err.Some? ==> kube.Hindered()
    {
      claims, err, visited := map[], None, [];
      ghost var before := kube.acts;
      var rest := run.claimsToSnapshots.Keys;
      while rest != {}
        invariant rest <= run.claimsToSnapshots.Keys
        invariant kube.Did(ReadActs(run.namespace, visited), true) && err.None?
        invariant Visited(run.claimsToSnapshots, rest, visited, claims)
        decreases |rest|
      {
        var c :| c in rest;
        ghost var between := kube.acts;
        var claim;
        claim, err := kube.GetPVC(NamespacedName(run.namespace, c));
        ReadNext(run.namespace, visited, (c, claim));
        FollowedBoth(before, between, kube.acts, ReadActs(run.namespace, visited),
          [GetPVC(NamespacedName(run.namespace, c), claim)], err.None?);
        VisitNext(run.claimsToSnapshots, rest, visited, claims, c, claim);
        visited := visited + [(c, claim)];
        if err.Some? {
          return;
        }
        claims := claims[run.claimsToSnapshots[c] := claim];
        rest := rest - {c};
      }
      VisitedAll(run.claimsToSnapshots, visited, claims);
    }

    /** kustomize: append the output of the build, then make the claims of the copy. */
    method Kustomize(run: ValidationRun, strategy: Strategy) returns (err: MaybeError, ghost obs: Obs)
      requires kube.Valid() && run.Value() == run.read
      modifies kube, run
      ensures obs.strategy == Some(strategy)
      ensures kube.Did([Build(run.read.name, obs.out)] + ReadActs(run.read.namespace, obs.visited), err.None?)
      ensures err.None? ==> KustAnswers(run.read, obs)
      ensures err.None? ==> run.Value() == run.read.(kustomized := run.read.kustomized + obs.out, claims := obs.made)
      ensures err.Some? ==> kube.Hindered()
    {
      obs := NO_OBS.(strategy := Some(strategy));
      ghost var before := kube.acts;
      var out;
      out, err := kube.Build(run.read.name);
      obs := obs.(out := out);
      if err.Some? {
        FollowedCut(before, kube.acts, [Build(run.read.name, out)], ReadActs(run.read.namespace, obs.visited));
        return;
      }
      run.kustomized := run.kustomized + out;
      ghost var between, visited := kube.acts, [];
      var claims;
      claims, err, visited := GetClaims(run.read);
      obs := obs.(visited := visited, bySnapshot := claims);
      FollowedBoth(before, between, kube.acts, [Build(run.read.name, out)], ReadActs(run.read.namespace, visited),
        err.None?);
      if err.Some? {
        return;
      }
      ghost var order;
      run.claims, order := KustomizeClaims(strategy, claims);
      obs := obs.(order := order, made := run.claims);
    }

    /** getStrategyForRun: not finding it is an error. */
    method GetStrategyForRun(run: Run) returns (strategy: Option<Strategy>, err: MaybeError)
      requires kube.Valid()
      modifies kube
      ensures kube.Did([FindStrategy(run.owner, strategy)], err.None?)
      ensures err.None? ==> strategy.Some?
      ensures err.Some? ==> kube.Hindered() || kube.Ended(FindStrategy(run.owner, None))
    {
      strategy, err := kube.FindStrategy(run.owner);
      if err.None? && strategy.None? {
        err := Some(Failed);
      }
    }

    method Kust(run: ValidationRun) returns (err: MaybeError, ghost obs: Obs)
      requires kube.Valid() && run.Value() == run.read && StageOf(run.read.status) == 1
      modifies kube, run
      ensures kube.Did(AllActs(run.read, obs), err.None?)
      ensures err.None? ==> KustAnswers(run.read, obs)
      ensures err.Some? ==> kube.Hindered() || kube.Ended(FindStrategy(run.read.owner, None))
    {
      obs := NO_OBS;
      ghost var before := kube.acts;
      var strategy;
      strategy, err := GetStrategyForRun(run.read);
      obs := obs.(strategy := strategy);
      if err.Some? {
        KustSplits(run.read, obs);
        FollowedPart(before, kube.acts, AllActs(run.read, obs), 1);
        return;
      }
      ghost var between := kube.acts;
      err, obs := Kustomize(run, strategy.value);
      KustSplits(run.read, obs);
      ghost var find := [FindStrategy(run.read.owner, strategy)];
      ghost var rest := [Build(run.read.name, obs.out)] + ReadActs(run.read.namespace, obs.visited);
      FollowedBoth(before, between, kube.acts, find, rest, err.None?);
      if err.Some? {
        FollowedPart(before, kube.acts, AllActs(run.read, obs), |find + rest|);
        return;
      }
      run.status := run.status.(kustFinished := true);
      between := kube.acts;
      err := Update(run);
      FollowedBoth(before, between, kube.acts, find + rest, [UpdateRun(run.read, run.Value())], err.None?);
    }

    method BeforeInit(run: ValidationRun) returns (err: MaybeError)
      requires kube.Valid() && run.Value() == run.read && StageOf(run.read.status) == 2
      modifies kube, run
      ensures kube.Did(AllActs(run.read, NO_OBS), err.None?)
      ensures err.Some? ==> kube.Hindered()
    {
      run.status := run.status.(initStarted := true);
      err := Update(run);
    }

    method CreateSnapshotPVCs(run: Run) returns (err: MaybeError)
      requires kube.Valid()
      modifies kube
      ensures kube.Did(EnsureActs(run.claims) + [AwaitClaims(KeysOf(PvcToPtr(run.claims)))], err.None?)
      ensures err.Some? ==> kube.Hindered()
    {
      err := None;
      ghost var before, all, wait := kube.acts, EnsureActs(run.claims), [AwaitClaims(KeysOf(PvcToPtr(run.claims)))];
      for i := 0 to |run.claims|
        invariant kube.Did(all[..i], true)
      {
        ghost var between := kube.acts;
        err := kube.CreatePVC(run.claims[i]);
        FollowedNext(before, between, kube.acts, all, i, err != Some(Failed));
        if err == Some(Failed) {
          FollowedCut(before, kube.acts, all, wait);
          return;
        }
      }
      assert all[..|run.claims|] == all;
      ghost var between := kube.acts;
      var pvcs := CollectPointers(run.claims);
      var seen := Dereferenced(pvcs);
      assert seen == PvcToPtr(run.claims);
      err := kube.WaitPvcsBound(seen);
      FollowedBoth(before, between, kube.acts, all, wait, err.None?);
    }

    /** The creation of this object was asked for, or it could not be read. */
    twostate predicate Attempted(text: string)
      reads kube
    {
      && |old(kube.requests)| <= |kube.requests| && |old(kube.failures)| <= |kube.failures|
      && (Act.CreateObject(text) in kube.requests[|old(kube.requests)|..]
          || Unreadable(text) in kube.failures[|old(kube.failures)|..])
    }

    /** One round of createObjects. */
    method CreateObject(text: string) returns (failed: MaybeError, ghost made: bool)
      requires kube.Valid()
      modifies kube
      ensures kube.Did(if made then [Act.CreateObject(text)] else [], true) && Attempted(text)
      ensures if failed.None? then made && kube.failures == old(kube.failures) else kube.Hindered()
    {
      ghost var before := kube.acts;
      failed := kube.Fails(Unreadable(text));
      if failed.None? {
        failed := kube.CreateUnstructuredObject(text);
        assert kube.requests[|old(kube.requests)|..][0] == Act.CreateObject(text);
      } else {
        assert kube.failures[|old(kube.failures)|..][0] == Unreadable(text);
      }
      made := kube.acts != before;
    }

    /** createObjects: an object that cannot be read or created is reported at the end. */
    method CreateObjects(texts: seq<string>) returns (err: MaybeError, ghost created: seq<bool>)
      requires kube.Valid()
      modifies kube
      ensures kube.Did(ObjectActs(texts, created), true)
      ensures err.None? ==> AllCreated(texts, created)
      ensures forall i | 0 <= i < |texts| :: Attempted(texts[i])
      ensures err.Some? ==> kube.Hindered()
    {
      err, created := None, [];
      ghost var before := kube.acts;
      for i := 0 to |texts|
        invariant |created| == i && kube.Did(ObjectActs(texts[..i], created), true)
        invariant if err.None? then AllCreated(texts[..i], created) else kube.Hindered()
        invariant forall j | 0 <= j < i :: Attempted(texts[j])
      {
        ghost var between, asked, failures := kube.acts, kube.requests, kube.failures;
        var failed;
        ghost var made;
        failed, made := CreateObject(texts[i]);
        TailGrows(asked, kube.requests, |old(kube.requests)|);
        TailGrows(failures, kube.failures, |old(kube.failures)|);
        ObjectNext(texts, created, i, made);
        FollowedBoth(before, between, kube.acts, ObjectActs(texts[..i], created), if made
          then [Act.CreateObject(texts[i])] else [], true);
        created := created + [made];
        err := if failed.Some? then failed else err;
      }
      assert texts[..|texts|] == texts;
    }

    method CreateJob(hook: string, spec: Option<string>, run: Run) returns (err: MaybeError)
      requires kube.Valid()
      modifies kube
      ensures kube.Did(JobActs(hook, spec, run), err.None?)
      ensures err.Some? ==> kube.Hindered()
      ensures kube.requests == old(kube.requests) + if spec.Some? then [EnsureJob(hook + "-" + run.name)] else []
      ensures err.None? ==>
        kube.acts == old(kube.acts)
          + if spec.Some? then [EnsureJob(hook + "-" + run.name), AwaitJob(hook + "-" + run.name)] else []
    {
      err := None;
      if spec.Some? {
        ghost var before := kube.acts;
        err := kube.CreateJob(JobName(hook, run.name));
        if err == Some(Failed) {
          FollowedPart(before, kube.acts, JobActs(hook, spec, run), 1);
          return;
        }
        ghost var between := kube.acts;
        err := kube.WaitJobSucceeded(JobName(hook, run.name));
        FollowedNext(before, between, kube.acts, JobActs(hook, spec, run), 1, err.None?);
        assert JobActs(hook, spec, run)[..2] == JobActs(hook, spec, run);
      }
    }

    /** Look up the strategy and run one of its hooks. */
    method RunHook(hook: string, spec: Option<string>, run: ValidationRun, ghost before: seq<Act>,
        ghost start: seq<Act>, ghost next: Run)
      returns (err: MaybeError)
      requires kube.Valid() && Followed(before, kube.acts, start, true) && next == run.Value()
      modifies kube
      ensures kube.Valid() && old(kube.history) <= kube.history && old(kube.requests) <= kube.requests
      ensures old(kube.failures) <= kube.failures
      ensures old(kube.acts) <= kube.acts
      ensures Followed(before, kube.acts, start + JobActs(hook, spec, run.read) + [UpdateRun(run.read, next)],
          err.None?)
      ensures err.Some? ==> kube.Hindered()
    {
      ghost var between, job := kube.acts, JobActs(hook, spec, run.read);
      err := CreateJob(hook, spec, run.read);
      FollowedBoth(before, between, kube.acts, start, job, err.None?);
      if err.Some? {
        FollowedCut(before, kube.acts, start + job, [UpdateRun(run.read, next)]);
        return;
      }
      between := kube.acts;
      err := Update(run);
      FollowedBoth(before, between, kube.acts, start + job, [UpdateRun(run.read, next)], err.None?);
    }

    method Init(run: ValidationRun) returns (err: MaybeError, ghost obs: Obs)
      requires kube.Valid() && run.Value() == run.read && StageOf(run.read.status) == 3
      modifies kube, run
      ensures kube.Did(AllActs(run.read, obs), err.None?)
      ensures err.None? ==> obs.strategy.Some? && AllCreated(run.read.kustomized, obs.created)
      ensures err.Some? ==> kube.Hindered() || kube.Ended(FindStrategy(run.read.owner, None))
    {
      obs := NO_OBS;
      ghost var before := kube.acts;
      var r := run.read;
      var strategy;
      strategy, err := GetStrategyForRun(r);
      obs := obs.(strategy := strategy);
      ghost var find := [FindStrategy(r.owner, strategy)];
      if err.Some? {
        InitCut(r, obs, before, kube.acts, find);
        return;
      }
      ghost var between, created := kube.acts, [];
      err, created := MakeObjects(r);
      obs := obs.(created := created);
      FollowedBoth(before, between, kube.acts, find, MakeActs(r, created), err.None?);
      if err.Some? {
        InitCut(r, obs, before, kube.acts, find + MakeActs(r, created));
        return;
      }
      InitSplits(r, obs);
      run.status := run.status.(initFinished := true);
      err := RunHook("init", strategy.value.init, run, before, find + MakeActs(r, created), Stamped(r));
    }

    /** The claims and then the objects of the copy. */
    method MakeObjects(r: Run) returns (err: MaybeError, ghost created: seq<bool>)
      requires kube.Valid()
      modifies kube
      ensures kube.Did(MakeActs(r, created), err.None?)
      ensures err.None? ==> AllCreated(r.kustomized, created)
      ensures err.Some? ==> kube.Hindered()
    {
      ghost var before := kube.acts;
      created := [];
      err := CreateSnapshotPVCs(r);
      ghost var between := kube.acts;
      if err.Some? {
        FollowedCut(before, between, ClaimActs(r), ObjectActs(r.kustomized, created));
        return;
      }
      err, created := CreateObjects(r.kustomized);
      FollowedBoth(before, between, kube.acts, ClaimActs(r), ObjectActs(r.kustomized, created), true);
    }

    method BeforePreValidation(run: ValidationRun) returns (err: MaybeError)
      requires kube.Valid() && run.Value() == run.read && StageOf(run.read.status) == 4
      modifies kube, run
      ensures kube.Did(AllActs(run.read, NO_OBS), err.None?)
      ensures err.Some? ==> kube.Hindered()
    {
      run.status := run.status.(preValidationStarted := true);
      err := Update(run);
    }

    method PreValidation(run: ValidationRun) returns (err: MaybeError, ghost obs: Obs)
      requires kube.Valid() && run.Value() == run.read && StageOf(run.read.status) == 5
      modifies kube, run
      ensures kube.Did(AllActs(run.read, obs), err.None?)
      ensures err.None? ==> obs.strategy.Some?
      ensures err.Some? ==> kube.Hindered() || kube.Ended(FindStrategy(run.read.owner, None))
    {
      obs := NO_OBS;
      ghost var before := kube.acts;
      var r := run.read;
      var strategy;
      strategy, err := GetStrategyForRun(r);
      obs := obs.(strategy := strategy);
      PreValidationSplits(r, obs);
      if err.Some? {
        FollowedPart(before, kube.acts, AllActs(r, obs), 1);
        return;
      }
      run.status := run.status.(preValidationFinished := true);
      err := RunHook("prevalidation", strategy.value.preValidation, run, before, [FindStrategy(r.owner, strategy)],
        Stamped(r));
    }

    method BeforeValidation(run: ValidationRun) returns (err: MaybeError)
      requires kube.Valid() && run.Value() == run.read && StageOf(run.read.status) == 6
      modifies kube, run
      ensures kube.Did(AllActs(run.read, NO_OBS), err.None?)
      ensures err.Some? ==> kube.Hindered()
    {
      run.status := run.status.(validationStarted := true);
      err := Update(run);
    }

    /** Label the snapshot of a claim with the volume that was validated. */
    method LabelOne(run: Run, c: string) returns (err: MaybeError, ghost pvc: Claim)
      requires kube.Valid() && c in run.claimsToSnapshots
      modifies kube
      ensures kube.Did([GetPVC(NamespacedName(run.namespace, c), pvc)] + [LabelSnapshot(run.claimsToSnapshots[c])],
          err.None?)
      ensures err.Some? ==> kube.Hindered()
    {
      pvc := Claim("", "", map[], map[], ClaimSpec(None, [], "", ""), false, 0);
      err := kube.Consult();
      if err.Some? {
        return;
      }
      ghost var before := kube.acts;
      var claim;
      claim, err := GetVolumeOf(NamespacedName(run.namespace, c));
      pvc := claim;
      ghost var get, put := [GetPVC(NamespacedName(run.namespace, c), pvc)], [LabelSnapshot(run.claimsToSnapshots[c])];
      if err.Some? {
        FollowedCut(before, kube.acts, get, put);
        return;
      }
      ghost var between := kube.acts;
      err := kube.LabelSnapshot(run.claimsToSnapshots[c]);
      FollowedBoth(before, between, kube.acts, get, put, err.None?);
    }

    /** The claim, its volume, and the id of that. */
    method GetVolumeOf(key: Key) returns (claim: Claim, err: MaybeError)
      requires kube.Valid()
      modifies kube
      ensures kube.Did([GetPVC(key, claim)], err.None?)
      ensures err.Some? ==> kube.Hindered()
    {
      claim, err := kube.GetPVC(key);
      if err.None? {
        err := kube.Consult();
      }
    }

    /** The loop of Validation. */
    method LabelSnapshots(run: Run) returns (err: MaybeError, ghost visited: seq<(string, Claim)>)
      requires kube.Valid()
      modifies kube
      ensures kube.Did(LabelActs(run, visited), err.None?)
      ensures err.None? ==> Enumerates(Visits(visited), run.claimsToSnapshots.Keys)
      ensures err.Some? ==> kube.Hindered()
    {
      err, visited := None, [];
      ghost var before := kube.acts;
      var rest := run.claimsToSnapshots.Keys;
      while rest != {}
        invariant rest <= run.claimsToSnapshots.Keys
        invariant kube.Did(LabelActs(run, visited), true) && err.None?
        invariant Enumerates(Visits(visited), run.claimsToSnapshots.Keys - rest)
        decreases |rest|
      {
        var c :| c in rest;
        ghost var between, pvc := kube.acts, Claim("", "", map[], map[], ClaimSpec(None, [], "", ""), false, 0);
        err, pvc := LabelOne(run, c);
        LabelNext(run, visited, c, pvc);
        FollowedBoth(before, between, kube.acts, LabelActs(run, visited),
                     [GetPVC(NamespacedName(run.namespace, c), pvc)] + [LabelSnapshot(run.claimsToSnapshots[c])],
                       err.None?);
        ExceptNext(run.claimsToSnapshots, rest, c);
        EnumeratesMore(Visits(visited), run.claimsToSnapshots.Keys - rest, c);
        LiveNext(visited, c, pvc);
        visited := visited + [(c, pvc)];
        if err.Some? {
          return;
        }
        rest := rest - {c};
      }
      assert run.claimsToSnapshots.Keys - {} == run.claimsToSnapshots.Keys;
    }

    method Validation(run: ValidationRun) returns (err: MaybeError, ghost obs: Obs)
      requires kube.Valid() && run.Value() == run.read && StageOf(run.read.status) == 7
      modifies kube, run
      ensures kube.Did(AllActs(run.read, obs), err.None?)
      ensures err.None? ==> obs.strategy.Some? && Enumerates(Visits(obs.visited), run.read.claimsToSnapshots.Keys)
      ensures err.Some? ==> kube.Hindered() || kube.Ended(FindStrategy(run.read.owner, None))
    {
      obs := NO_OBS;
      ghost var before := kube.acts;
      var r := run.read;
      var strategy;
      strategy, err := GetStrategyForRun(r);
      obs := obs.(strategy := strategy);
      ghost var find := [FindStrategy(r.owner, strategy)];
      if err.Some? {
        ValidationCut(r, obs, before, kube.acts, find);
        return;
      }
      ghost var between, visited := kube.acts, [];
      err, visited := ValidateAndLabel(r, strategy.value.validation);
      obs := obs.(visited := visited);
      ghost var work := JobActs("validation", strategy.value.validation, r) + LabelActs(r, visited);
      FollowedBoth(before, between, kube.acts, find, work, err.None?);
      if err.Some? {
        ValidationCut(r, obs, before, kube.acts, find + work);
        return;
      }
      ValidationSplits(r, obs);
      run.status := run.status.(validationFinished := true);
      between := kube.acts;
      err := Update(run);
      FollowedBoth(before, between, kube.acts, find + work, [UpdateRun(r, run.Value())], err.None?);
    }

    /** The job of the hook and then the labels. */
    method ValidateAndLabel(r: Run, spec: Option<string>) returns (err: MaybeError, ghost visited: seq<(string, Claim)>)
      requires kube.Valid()
      modifies kube
      ensures kube.Did(JobActs("validation", spec, r) + LabelActs(r, visited), err.None?)
      ensures err.None? ==> Enumerates(Visits(visited), r.claimsToSnapshots.Keys)
      ensures err.Some? ==> kube.Hindered()
    {
      ghost var before := kube.acts;
      visited := [];
      err := CreateJob("validation", spec, r);
      ghost var between := kube.acts;
      if err.Some? {
        FollowedCut(before, between, JobActs("validation", spec, r), LabelActs(r, visited));
        return;
      }
      err, visited := LabelSnapshots(r);
      FollowedBoth(before, between, kube.acts, JobActs("validation", spec, r), LabelActs(r, visited), err.None?);
    }

    method BeforeCleanup(run: ValidationRun) returns (err: MaybeError)
      requires kube.Valid() && run.Value() == run.read && StageOf(run.read.status) == 8
      modifies kube, run
      ensures kube.Did(AllActs(run.read, NO_OBS), err.None?)
      ensures err.Some? ==> kube.Hindered()
    {
      run.status := run.status.(cleanupStarted := true);
      err := Update(run);
    }

    /** The loop of Cleanup, which ignores errors. */
    method DropClaims(claims: seq<Claim>) returns (ghost deleted: seq<bool>)
      requires kube.Valid()
      modifies kube
      ensures kube.Did(DropActs(claims, deleted), true)
      ensures kube.requests == old(kube.requests) + Deletions(claims)
    {
      deleted := [];
      ghost var before := kube.acts;
      for i := 0 to |claims|
        invariant |deleted| == i && kube.Did(DropActs(claims[..i], deleted), true)
        invariant kube.requests == old(kube.requests) + Deletions(claims[..i])
      {
        ghost var between := kube.acts;
        var ignored := kube.DeletePVC(claims[i].Key());
        assert Deletions(claims[..i + 1]) == Deletions(claims[..i]) + [DeleteClaim(claims[i].Key())];
        ghost var gone := kube.acts != between;
        DropNext(claims, deleted, i, gone);
        FollowedBoth(before, between, kube.acts, DropActs(claims[..i], deleted), if gone
          then [DeleteClaim(claims[i].Key())] else [], true);
        deleted := deleted + [gone];
      }
      assert claims[..|claims|] == claims;
    }

    /** The deletions of Cleanup: the run first, then its claims. */
    method Drop(r: Run) returns (ghost gone: bool, ghost deleted: seq<bool>)
      requires kube.Valid()
      modifies kube
      ensures kube.Did((if gone then [DeleteRun(r.name)] else []) + DropActs(r.claims, deleted), true)
      ensures kube.requests == old(kube.requests) + [DeleteRun(r.name)] + Deletions(r.claims)
    {
      ghost var before := kube.acts;
      var ignored := kube.DeleteValidationRun(r.name);
      gone := kube.acts != before;
      ghost var between := kube.acts;
      deleted := DropClaims(r.claims);
      FollowedBoth(before, between, kube.acts, if gone then [DeleteRun(r.name)]
        else [], DropActs(r.claims, deleted), true);
    }

    method Cleanup(run: ValidationRun) returns (err: MaybeError, ghost obs: Obs)
      requires kube.Valid() && run.Value() == run.read && StageOf(run.read.status) == 9
      modifies kube, run
      ensures kube.Did(AllActs(run.read, obs), err.None?)
      ensures if run.read.cleanup
        then
          var n, claims := |old(kube.requests)|, run.read.claims;
          && old(kube.requests) <= kube.requests && n + |claims| < |kube.requests|
          && kube.requests[n] == DeleteRun(run.read.name)
          && forall i | 0 <= i < |claims| :: kube.requests[n + 1 + i] == DeleteClaim(claims[i].Key())
        else err.None? && kube.requests == old(kube.requests)
      ensures err.Some? ==> kube.Hindered()
    {
      obs := NO_OBS;
      ghost var before := kube.acts;
      var r := run.read;
      if !r.cleanup {
        return None, obs;
      }
      ghost var gone, deleted := Drop(r);
      obs := obs.(runDeleted := gone, claimsDeleted := deleted);
      run.status := run.status.(cleanupFinished := true);
      ghost var between := kube.acts;
      err := Update(run);
      FollowedBoth(before, between, kube.acts, (if gone then [DeleteRun(r.name)] else []) + DropActs(r.claims, deleted),
        [UpdateRun(r, run.Value())], err.None?);
      CleanupSplits(r, obs);
      CleanupAsked(old(kube.requests), kube.requests, r);
    }

    /** ProcessValidationRun: a processing issues the calls of its plan in order, all of them if it succeeds and the
        first few if it fails. */
    method ProcessValidationRun(run: Run) returns (err: MaybeError, ghost obs: Obs)
      requires kube.Valid()
      modifies kube
      ensures kube.Did(AllActs(run, obs), err.None?)
      ensures err.None? ==> !PlanFor(run, obs).finish.Fails?
      ensures err.Some? ==> Excused(run)
    {
      obs := NO_OBS;
      err := None;
      var copy := new ValidationRun(run);
      if !run.status.kustStarted {
        err := BeforeKust(copy);
      } else if !run.status.kustFinished {
        err, obs := Kust(copy);
      } else if !run.status.initStarted {
        err := BeforeInit(copy);
      } else if !run.status.initFinished {
        err, obs := Init(copy);
      } else if !run.status.preValidationStarted {
        err := BeforePreValidation(copy);
      } else if !run.status.preValidationFinished {
        err, obs := PreValidation(copy);
      } else if !run.status.validationStarted {
        err := BeforeValidation(copy);
      } else if !run.status.validationFinished {
        err, obs := Validation(copy);
      } else if !run.status.cleanupStarted {
        err := BeforeCleanup(copy);
      } else if !run.status.cleanupFinished {
        err, obs := Cleanup(copy);
      }
    }
  }

  // ---- Pieces of plans ----

  lemma ReadNext(namespace: string, visited: seq<(string, Claim)>, next: (string, Claim))
    ensures ReadActs(namespace, visited + [next]) == ReadActs(namespace, visited)
        + [GetPVC(NamespacedName(namespace, next.0), next.1)]
  {
  }

  /** The claims visited so far, and the map filled from them. */
  ghost predicate Visited(entries: map<string, string>, rest: set<string>, visited: seq<(string, Claim)>,
      claims: map<string, Claim>) {
    && Enumerates(Visits(visited), entries.Keys - rest)
    && Live(visited).Keys == entries.Keys - rest
    && BySnapshot(Except(entries, rest), Live(visited), claims)
  }

  lemma EnumeratesMore(order: seq<string>, keys: set<string>, c: string)
    requires Enumerates(order, keys) && c !in keys
    ensures Enumerates(order + [c], keys + {c})
  {
    assert forall k: string :: k in order + [c] <==> k in order || k == c;
    assert c !in order;
  }

  lemma BySnapshotMore(entries: map<string, string>, live: map<string, Claim>, claims: map<string, Claim>, c: string,
      snap: string, claim: Claim)
    requires BySnapshot(entries, live, claims) && c !in entries && c !in live
    ensures BySnapshot(entries[c := snap], live[c := claim], claims[snap := claim])
  {
    var entries', live', claims' := entries[c := snap], live[c := claim], claims[snap := claim];
    forall s | s in claims'
        ensures exists d :: d in entries' && d in live' && entries'[d] == s && claims'[s] == live'[d] {
      if s == snap {
        assert c in entries' && entries'[c] == s && claims'[s] == live'[c];
      } else {
        var d :| d in entries && d in live && entries[d] == s && claims[s] == live[d];
        assert d in entries' && entries'[d] == s && claims'[s] == live'[d];
      }
    }
  }

  function Except(entries: map<string, string>, rest: set<string>): map<string, string> {
    map c | c in entries && c !in rest :: entries[c]
  }

  lemma VisitNext(
    entries: map<string, string>, rest: set<string>, visited: seq<(string, Claim)>, claims: map<string, Claim>,
      c: string, claim: Claim)
    requires Visited(entries, rest, visited, claims) && c in rest && c in entries && rest <= entries.Keys
    ensures Visited(entries, rest - {c}, visited + [(c, claim)], claims[entries[c] := claim])
  {
    LiveNext(visited, c, claim);
    ExceptNext(entries, rest, c);
    EnumeratesMore(Visits(visited), entries.Keys - rest, c);
    BySnapshotMore(Except(entries, rest), Live(visited), claims, c, entries[c], claim);
  }

  lemma LiveNext(visited: seq<(string, Claim)>, c: string, claim: Claim)
    ensures Live(visited + [(c, claim)]) == Live(visited)[c := claim]
    ensures Visits(visited + [(c, claim)]) == Visits(visited) + [c]
  {
    assert (visited + [(c, claim)])[..|visited|] == visited;
  }

  lemma ExceptNext(entries: map<string, string>, rest: set<string>, c: string)
    requires c in rest && c in entries
    ensures entries.Keys - (rest - {c}) == entries.Keys - rest + {c}
    ensures Except(entries, rest - {c}) == Except(entries, rest)[c := entries[c]]
  {
  }

  lemma VisitedAll(entries: map<string, string>, visited: seq<(string, Claim)>, claims: map<string, Claim>)
    requires Visited(entries, {}, visited, claims)
    ensures Enumerates(Visits(visited), entries.Keys) && BySnapshot(entries, Live(visited), claims)
  {
    assert Except(entries, {}) == entries;
  }

  lemma KustSplits(r: Run, obs: Obs)
    requires StageOf(r.status) == 1
    ensures var find, rest := [FindStrategy(r.owner, obs.strategy)],
        [Build(r.name, obs.out)] + ReadActs(r.namespace, obs.visited);
      && AllActs(r, obs) == find + rest + Closing(r, PlanFor(r, obs).finish)
      && AllActs(r, obs)[..1] == find && AllActs(r, obs)[..|find + rest|] == find + rest
    ensures KustAnswers(r, obs) ==>
      PlanFor(r, obs).finish ==
        Store(r.(kustomized := r.kustomized + obs.out, claims := obs.made, status := r.status.(kustFinished := true)))
  {
  }

  lemma ObjectNext(texts: seq<string>, created: seq<bool>, i: nat, made: bool)
    requires i < |texts| && |created| == i
    ensures ObjectActs(texts[..i + 1], created + [made]) ==
            ObjectActs(texts[..i], created) + if made then [CreateObject(texts[i])] else []
  {
    assert texts[..i + 1][..i] == texts[..i];
    ObjectSame(texts[..i], created, created + [made]);
  }

  lemma {:induction false} ObjectSame(texts: seq<string>, some: seq<bool>, more: seq<bool>)
    requires |texts| <= |some| && some <= more
    ensures ObjectActs(texts, some) == ObjectActs(texts, more)
  {
    if texts != [] {
      ObjectSame(texts[..|texts| - 1], some, more);
    }
  }

  /** The requests to delete these claims, in this order. */
  function Deletions(claims: seq<Claim>): seq<Act> {
    seq(|claims|, i requires 0 <= i < |claims| => DeleteClaim(claims[i].Key()))
  }

  lemma CleanupAsked(before: seq<Act>, after: seq<Act>, r: Run)
    requires before + [DeleteRun(r.name)] + Deletions(r.claims) <= after
    ensures var n, claims := |before|, r.claims;
      && before <= after && n + |claims| < |after| && after[n] == DeleteRun(r.name)
      && forall i | 0 <= i < |claims| :: after[n + 1 + i] == DeleteClaim(claims[i].Key())
  {
    var asked := before + [DeleteRun(r.name)] + Deletions(r.claims);
    assert asked[|before|] == DeleteRun(r.name);
    assert forall i | 0 <= i < |r.claims| :: asked[|before| + 1 + i] == Deletions(r.claims)[i];
  }

  lemma LabelNext(run: Run, visited: seq<(string, Claim)>, c: string, pvc: Claim)
    requires c in run.claimsToSnapshots
    ensures LabelActs(run, visited + [(c, pvc)]) ==
            LabelActs(run, visited)
              + ([GetPVC(NamespacedName(run.namespace, c), pvc)] + [LabelSnapshot(run.claimsToSnapshots[c])])
  {
    assert (visited + [(c, pvc)])[..|visited|] == visited;
  }

  lemma DropNext(claims: seq<Claim>, deleted: seq<bool>, i: nat, gone: bool)
    requires i < |claims| && |deleted| == i
    ensures DropActs(claims[..i + 1], deleted + [gone]) ==
            DropActs(claims[..i], deleted) + if gone then [DeleteClaim(claims[i].Key())] else []
  {
    assert claims[..i + 1][..i] == claims[..i];
    DropSame(claims[..i], deleted, deleted + [gone]);
  }

  lemma {:induction false} DropSame(claims: seq<Claim>, some: seq<bool>, more: seq<bool>)
    requires |claims| <= |some| && some <= more
    ensures DropActs(claims, some) == DropActs(claims, more)
  {
    if claims != [] {
      DropSame(claims[..|claims| - 1], some, more);
    }
  }

  function ClaimActs(r: Run): seq<Act> {
    EnsureActs(r.claims) + [AwaitClaims(KeysOf(PvcToPtr(r.claims)))]
  }

  function MakeActs(r: Run, created: seq<bool>): seq<Act> {
    ClaimActs(r) + ObjectActs(r.kustomized, created)
  }

  lemma InitSplits(r: Run, obs: Obs)
    requires StageOf(r.status) == 3
    ensures var find, make := [FindStrategy(r.owner, obs.strategy)], MakeActs(r, obs.created);
      && AllActs(r, obs)[..1] == find && |AllActs(r, obs)| >= |find + make|
      && AllActs(r, obs)[..|find + make|] == find + make
      && (obs.strategy.Some? && AllCreated(r.kustomized, obs.created) ==>
            AllActs(r, obs) == find + make + JobActs("init", obs.strategy.value.init, r) + [UpdateRun(r, Stamped(r))])
  {
    var find := [FindStrategy(r.owner, obs.strategy)];
    assert find + EnsureActs(r.claims) + [AwaitClaims(KeysOf(PvcToPtr(r.claims)))]
        + ObjectActs(r.kustomized, obs.created)
        == find + MakeActs(r, obs.created);
  }

  lemma InitCut(r: Run, obs: Obs, before: seq<Act>, after: seq<Act>, done: seq<Act>)
    requires StageOf(r.status) == 3 && Followed(before, after, done, false)
    requires var find := [FindStrategy(r.owner, obs.strategy)]; done == find || done == find + MakeActs(r, obs.created)
    ensures Followed(before, after, AllActs(r, obs), false)
  {
    InitSplits(r, obs);
    FollowedPart(before, after, AllActs(r, obs), |done|);
  }

  lemma PreValidationSplits(r: Run, obs: Obs)
    requires StageOf(r.status) == 5
    ensures |AllActs(r, obs)| >= 1 && AllActs(r, obs)[..1] == [FindStrategy(r.owner, obs.strategy)]
    ensures obs.strategy.Some? ==>
      AllActs(r, obs) == [FindStrategy(r.owner, obs.strategy)]
        + JobActs("prevalidation", obs.strategy.value.preValidation, r)
                       + [UpdateRun(r, Stamped(r))]
  {
  }

  lemma ValidationSplits(r: Run, obs: Obs)
    requires StageOf(r.status) == 7
    ensures |AllActs(r, obs)| >= 1 && AllActs(r, obs)[..1] == [FindStrategy(r.owner, obs.strategy)]
    ensures obs.strategy.Some? ==>
      var find := [FindStrategy(r.owner, obs.strategy)];
      var work := JobActs("validation", obs.strategy.value.validation, r) + LabelActs(r, obs.visited);
      && AllActs(r, obs) == find + work + Closing(r, PlanFor(r, obs).finish)
      && AllActs(r, obs)[..|find + work|] == find + work
      && (Enumerates(Visits(obs.visited), r.claimsToSnapshots.Keys) ==> PlanFor(r, obs).finish == Store(Stamped(r)))
  {
    if obs.strategy.Some? {
      var find, job := [FindStrategy(r.owner, obs.strategy)], JobActs("validation", obs.strategy.value.validation, r);
      assert find + job + LabelActs(r, obs.visited) == find + (job + LabelActs(r, obs.visited));
    }
  }

  lemma ValidationCut(r: Run, obs: Obs, before: seq<Act>, after: seq<Act>, done: seq<Act>)
    requires StageOf(r.status) == 7 && Followed(before, after, done, false)
    requires var find := [FindStrategy(r.owner, obs.strategy)];
      done == find || (obs.strategy.Some? &&
        done == find + (JobActs("validation", obs.strategy.value.validation, r) + LabelActs(r, obs.visited)))
    ensures Followed(before, after, AllActs(r, obs), false)
  {
    ValidationSplits(r, obs);
    assert done == AllActs(r, obs)[..|done|];
    FollowedPart(before, after, AllActs(r, obs), |done|);
  }

  lemma CleanupSplits(r: Run, obs: Obs)
    requires StageOf(r.status) == 9 && r.cleanup
    ensures AllActs(r, obs) ==
      (if obs.runDeleted then [DeleteRun(r.name)] else []) + DropActs(r.claims, obs.claimsDeleted)
      + [UpdateRun(r, r.(status := r.status.(cleanupFinished := true)))]
  {
  }
}
