/** How often the job of a hook is created. */
module RunJobs {
  import opened RunPlan
  import opened RunMachine

  predicate CreatesJob(w: World, l: Label, job: string) {
    && l.Proceed? && l.id in w.tasks && w.tasks[l.id].at < |w.tasks[l.id].acts|
    && w.tasks[l.id].acts[w.tasks[l.id].at] == EnsureJob(job) && job !in w.s.jobs
  }

  ghost function Creations(w: World, labels: seq<Label>, job: string): nat {
    if labels == [] then 0
    else
      var before, last := labels[..|labels| - 1], labels[|labels| - 1];
      var mid := Exec(w, before);
      Creations(w, before, job) + if mid.Some? && CreatesJob(mid.value, last, job) then 1 else 0
  }

  /** The times the job went away after it was there. */
  ghost function Removals(w: World, labels: seq<Label>, job: string): nat {
    if labels == [] then 0
    else
      var before, last := labels[..|labels| - 1], labels[|labels| - 1];
      var mid := Exec(w, before);
      Removals(w, before, job) + if mid.Some? && last == JobGone(job) && job in mid.value.s.jobs then 1 else 0
  }

  lemma StepCounts(w: World, l: Label, job: string)
    requires Enabled(w, l)
    ensures var here, there := job in w.s.jobs, job in Next(w, l).s.jobs;
      && (CreatesJob(w, l, job) <==> !here && there)
      && (l == JobGone(job) && here <==> here && !there)
  {
  }

  /** Whatever the workers, the retries and the failures, a job is created once, and again only after it was removed. */
  lemma {:induction false} CreatedOncePerRemoval(w: World, labels: seq<Label>, job: string)
    requires Start(w) && Exec(w, labels).Some?
    ensures Creations(w, labels, job) ==
            Removals(w, labels, job) + if job in Exec(w, labels).value.s.jobs then 1 else 0
  {
    if labels != [] {
      var before := labels[..|labels| - 1];
      CreatedOncePerRemoval(w, before, job);
      StepCounts(Exec(w, before).value, labels[|labels| - 1], job);
    }
  }
}
