/** Whatever reverts were made, they can all be undone, one after the other, and then every claim is what it was. */
module RevertUnwind {
  import opened Wrappers
  import opened Types
  import opened RevertPlan
  import opened RevertMachine
  import opened RevertDowntime
  import opened RevertUndo
  import opened RevertReady
  import opened RevertOwnership
  import opened RevertSpare
  import opened RevertWhole

  lemma OnDemandOneMore(w: World, labels: seq<Label>, l: Label)
    ensures OnDemand(w, labels + [l]) <==>
      && OnDemand(w, labels)
      && (Exec(w, labels).Some? && l.Outside? ==> Provides(Exec(w, labels).value.c, l.e))
  {
    assert (labels + [l])[..|labels|] == labels;
  }

  lemma {:induction false} OnDemandConcat(w: World, a: seq<Label>, m: World, b: seq<Label>)
    requires OnDemand(w, a) && Exec(w, a) == Some(m) && OnDemand(m, b)
    ensures OnDemand(w, a + b) && Exec(w, a + b) == Exec(m, b)
  {
    if b == [] {
      assert a + b == a;
    } else {
      var most, last := b[..|b| - 1], b[|b| - 1];
      assert b == most + [last] && a + b == (a + most) + [last];
      OnDemandOneMore(m, most, last);
      OnDemandConcat(w, a, m, most);
      OnDemandOneMore(w, a + most, last);
      ExecOneMore(m, most, last);
      ExecOneMore(w, a + most, last);
    }
  }

  lemma {:induction false} CalmIsOnDemand(w: World, labels: seq<Label>)
    requires Calm(w, labels)
    ensures OnDemand(w, labels)
  {
    if labels != [] {
      CalmIsOnDemand(w, labels[..|labels| - 1]);
    }
  }

  /** A run on which all records are kept and claims get volumes of their own. */
  ghost predicate Passes(w: World, labels: seq<Label>, m: World) {
    OnDemand(w, labels) && KeepsAll(labels) && Exec(w, labels) == Some(m)
  }

  lemma PassesOn(w: World, a: seq<Label>, m: World, b: seq<Label>, n: World)
    requires Passes(w, a, m) && Passes(m, b, n)
    ensures Passes(w, a + b, n)
  {
    OnDemandConcat(w, a, m, b);
  }

  /** Nothing is asked for, and nothing is half done. */
  predicate AtRest(w: World) {
    && w.worker == Waiting && w.c.stored.action.kind == Idle && w.c.stored.stsType.Some?
    && (w.c.stored.reverts == [] || Last(w.c.stored.reverts).state == State.Finished)
  }

  lemma AsksForUndo(count: nat, w: World) returns (asked: World)
    requires Sound(count, w) && AtRest(w) && w.c.stored.reverts != []
    ensures Passes(w, [Outside(UNDO)], asked) && Polite(w, [Outside(UNDO)]) && Sound(count, asked)
    ensures asked == w.(c := w.c.(stored := asked.c.stored)) && StageOf(asked.c.stored) == UndoPause
    ensures asked.c.stored.reverts == w.c.stored.reverts && asked.c.stored.stsType == w.c.stored.stsType
  {
    asked := Asking(w);
    AskingPasses(w, asked);
    assert Step(w, Outside(UNDO)) == Some(asked);
    StepKeepsSound(count, w, Outside(UNDO));
  }

  lemma CarriesOutUndo(count: nat, asked: World) returns (rest: seq<Label>, done: World)
    requires Sound(count, asked) && asked.worker == Waiting && StageOf(asked.c.stored) == UndoPause
    requires Restorable(asked.c, LastOf(asked.c.stored).oldClaims)
    ensures Passes(asked, rest, done) && Polite(asked, rest) && done.worker == Waiting
    ensures asked.c.stored.reverts != [] && done.c.stored == Popped(asked.c.stored)
  {
    var swap;
    swap, done := UndoCanEnd(count, asked);
    ReachesJoin(asked, swap, done);
    rest :| Calm(asked, rest) && Exec(asked, rest) == Some(done);
    CalmPasses(asked, rest, done);
    CalmIsPolite(asked, rest);
  }

  /** One undo. */
  lemma UndoesOne(count: nat, w: World) returns (labels: seq<Label>, done: World)
    requires Sound(count, w) && AtRest(w) && w.c.stored.reverts != []
    requires Restorable(w.c, Last(w.c.stored.reverts).oldClaims)
    ensures Passes(w, labels, done) && Polite(w, labels) && AtRest(done)
    ensures done.c.stored.reverts == w.c.stored.reverts[..|w.c.stored.reverts| - 1]
  {
    var asked := AsksForUndo(count, w);
    var rest;
    rest, done := CarriesOutUndo(count, asked);
    labels := [Outside(UNDO)] + rest;
    PassesOn(w, [Outside(UNDO)], asked, rest, done);
    PoliteConcat(w, [Outside(UNDO)], asked, rest);
    BelowIsFinished(count, w.c.stored.reverts);
  }

  lemma CalmPasses(w: World, labels: seq<Label>, m: World)
    requires Calm(w, labels) && Exec(w, labels) == Some(m)
    ensures Passes(w, labels, m)
  {
    CalmIsOnDemand(w, labels);
    CalmHasNoEdits(w, labels);
  }

  lemma AskingPasses(w: World, asked: World)
    requires Goes(w, [Outside(UNDO)], asked)
    ensures Passes(w, [Outside(UNDO)], asked)
  {
    OnDemandOneMore(w, [], Outside(UNDO));
    assert [] + [Outside(UNDO)] == [Outside(UNDO)];
  }

  lemma BelowIsFinished(count: nat, reverts: seq<Details>)
    requires Shape(count, reverts)
    ensures |reverts| > 1 ==> Last(reverts[..|reverts| - 1]).state == State.Finished
  {
  }

  /** All undos. */
  lemma {:induction false} UndoesAll(count: nat, w0: World, labels: seq<Label>, w: World)
    returns (more: seq<Label>, done: World)
    requires Start(w0, count) && Apart(w0.c) && Passes(w0, labels, w) && AtRest(w)
    ensures Passes(w, more, done) && Polite(w, more) && AtRest(done) && done.c.stored.reverts == []
    decreases |w.c.stored.reverts|
  {
    if w.c.stored.reverts == [] {
      more, done := [], w;
    } else {
      AlwaysSound(count, w0, labels);
      UndoFindsVolumes(count, w0, labels, Last(w.c.stored.reverts));
      var one, next := UndoesOne(count, w);
      PassesOn(w0, labels, w, one, next);
      var rest;
      rest, done := UndoesAll(count, w0, labels + one, next);
      more := one + rest;
      PassesOn(w, one, next, rest, done);
      PoliteConcat(w, one, next, rest);
    }
  }

  /** Any number of reverts, with any failures, retries and changes of mind on the way: as long as all records are kept
      and claims get volumes of their own, from every state at rest there is a run, edited only while nothing is
      pending, that undoes them all, and after it every claim of the application has the name, labels and whole spec it
      had before the first revert, its volume included. */
  lemma EverythingCanBeUndone(count: nat, w0: World, labels: seq<Label>, w: World)
    returns (more: seq<Label>, done: World)
    requires Start(w0, count) && Apart(w0.c) && w0.c.stored.keepStatus == 0
    requires forall k <- w0.c.claims :: Selected(w0.c, k) ==> w0.c.claims[k].spec.volumeName != ""
    requires Passes(w0, labels, w) && AtRest(w)
    ensures Polite(w, more) && Exec(w, more) == Some(done) && done.c.stored.reverts == []
    ensures done.c.claims.Keys == w0.c.claims.Keys
    ensures forall k <- w0.c.claims :: Selected(w0.c, k) ==> Same(w0.c.claims[k], done.c.claims[k])
  {
    more, done := UndoesAll(count, w0, labels, w);
    PassesOn(w0, labels, w, more, done);
    AlwaysSteady(w0, labels + more);
    StartIsSound(count, w0);
    UndoIsLastInFirstOut(count, w0, labels + more);
  }

  lemma StartIsSound(count: nat, w0: World)
    requires Start(w0, count)
    ensures Sound(count, w0)
  {
    assert Exec(w0, []) == Some(w0);
    AlwaysSound(count, w0, []);
  }
}
