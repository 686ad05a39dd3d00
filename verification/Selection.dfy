/** The choice of the newest snapshot of each claim inside a time window (pkg/manager/reverts.go). */
module Selection {
  import opened Wrappers
  import opened Types

  /** Both ends of the window are inclusive, and a missing end is open. */
  predicate IsBetween(from: Option<int>, target: int, to: Option<int>) {
    (from.Some? ==> from.value <= target) && (to.Some? ==> target <= to.value)
  }

  /** Snapshot `s` is one of claim name `name`, taken inside the window. */
  predicate Eligible(s: Snapshot, name: string, from: Option<int>, to: Option<int>) {
    s.claim == name && IsBetween(from, s.time, to)
  }

  /** The first of the newest eligible snapshots in list order. */
  function Newest(snaps: seq<Snapshot>, name: string, from: Option<int>, to: Option<int>): Option<Snapshot> {
    if snaps == [] then None
    else
      var prev := Newest(snaps[..|snaps| - 1], name, from, to);
      var s := snaps[|snaps| - 1];
      if Eligible(s, name, from, to) && (prev.None? || prev.value.time < s.time) then Some(s) else prev
  }

  /** A listing that reports an error is used only if it still has at least as many snapshots as claims. */
  predicate Usable(pvcs: seq<Claim>, snaps: seq<Snapshot>, failed: bool) {
    !failed || |snaps| >= |pvcs|
  }

  function Names(pvcs: seq<Claim>): set<string> {
    set c | c in pvcs :: c.name
  }

  predicate AllCovered(pvcs: seq<Claim>, snaps: seq<Snapshot>, from: Option<int>, to: Option<int>) {
    forall n <- Names(pvcs) :: Newest(snaps, n, from, to).Some?
  }

  function Chosen(pvcs: seq<Claim>, snaps: seq<Snapshot>, from: Option<int>, to: Option<int>): map<string, Snapshot>
    requires AllCovered(pvcs, snaps, from, to)
  {
    map n | n in Names(pvcs) :: Newest(snaps, n, from, to).value
  }

  /** The selection as a value: None stands for the error return. */
  function Select(pvcs: seq<Claim>, snaps: seq<Snapshot>, failed: bool, from: Option<int>, to: Option<int>)
    : (m: Option<map<string, Snapshot>>)
  {
    if Usable(pvcs, snaps, failed) && AllCovered(pvcs, snaps, from, to)
    then Some(Chosen(pvcs, snaps, from, to))
    else None
  }

  /** `newest` holds exactly the newest snapshot of every claim name that has one in `snaps`. */
  ghost predicate Indexes(newest: map<string, Snapshot>, snaps: seq<Snapshot>, from: Option<int>, to: Option<int>) {
    forall n: string :: Newest(snaps, n, from, to) == if n in newest then Some(newest[n]) else None
  }

  /** The first loop of getSnapshots. */
  method IndexNewest(snaps: seq<Snapshot>, from: Option<int>, to: Option<int>) returns (newest: map<string, Snapshot>)
    ensures Indexes(newest, snaps, from, to)
  {
    newest := map[];
    for i := 0 to |snaps|
      invariant Indexes(newest, snaps[..i], from, to)
    {
      assert snaps[..i + 1][..i] == snaps[..i];
      var s := snaps[i];
      if IsBetween(from, s.time, to) {
        if s.claim in newest {
          if s.time > newest[s.claim].time {
            newest := newest[s.claim := s];
          }
        } else {
          newest := newest[s.claim := s];
        }
      }
    }
    assert snaps[..|snaps|] == snaps;
  }

  /** The second loop of getSnapshots. */
  method LookUp(pvcs: seq<Claim>, ghost snaps: seq<Snapshot>, newest: map<string, Snapshot>, ghost from: Option<int>,
      ghost to: Option<int>)
    returns (m: Option<map<string, Snapshot>>)
    requires Indexes(newest, snaps, from, to)
    ensures m == if AllCovered(pvcs, snaps, from, to) then Some(Chosen(pvcs, snaps, from, to)) else None
  {
    var found: map<string, Snapshot> := map[];
    for i := 0 to |pvcs|
      invariant AllCovered(pvcs[..i], snaps, from, to)
      invariant found == Chosen(pvcs[..i], snaps, from, to)
    {
      assert Newest(snaps, pvcs[i].name, from, to) == if pvcs[i].name in newest then Some(newest[pvcs[i].name])
          else None;
      NamesNext(pvcs, i);
      if pvcs[i].name in newest {
        found := found[pvcs[i].name := newest[pvcs[i].name]];
      } else {
        NamesGrow(pvcs, i + 1);
        return None;
      }
    }
    assert pvcs[..|pvcs|] == pvcs;
    m := Some(found);
  }

  /** getSnapshots: index the newest snapshot of every claim name, then look each claim up. It fails exactly if the
      listing reports an error and has fewer snapshots than there are claims, or a claim has no snapshot in the window;
      otherwise every claim gets a snapshot of its own from the window, and none there is newer. */
  method GetSnapshots(pvcs: seq<Claim>, snaps: seq<Snapshot>, failed: bool, from: Option<int>, to: Option<int>)
    returns (m: Option<map<string, Snapshot>>)
    ensures m == Select(pvcs, snaps, failed, from, to)
    ensures m.Some? <==>
      && (failed ==> |pvcs| <= |snaps|)
      && forall c <- pvcs :: exists s <- snaps ::
           s.claim == c.name && (from.Some? ==> from.value <= s.time) && (to.Some? ==> s.time <= to.value)
    ensures m.Some? ==>
      && m.value.Keys == Names(pvcs)
      && forall n <- m.value ::
           && m.value[n] in snaps && m.value[n].claim == n
           && (from.Some? ==> from.value <= m.value[n].time) && (to.Some? ==> m.value[n].time <= to.value)
           && forall s <- snaps ::
                s.claim == n && (from.Some? ==> from.value <= s.time) && (to.Some? ==> s.time <= to.value)
                ==> s.time <= m.value[n].time
  {
    SelectionExact(pvcs, snaps, failed, from, to);
    if failed && |snaps| < |pvcs| {
      return None;
    }
    var newest := IndexNewest(snaps, from, to);
    m := LookUp(pvcs, snaps, newest, from, to);
  }

  lemma NamesNext(pvcs: seq<Claim>, i: nat)
    requires i < |pvcs|
    ensures Names(pvcs[..i + 1]) == Names(pvcs[..i]) + {pvcs[i].name}
  {
    assert pvcs[..i + 1] == pvcs[..i] + [pvcs[i]];
    assert forall c :: c in pvcs[..i + 1] <==> c in pvcs[..i] || c == pvcs[i];
  }

  lemma NamesGrow(pvcs: seq<Claim>, i: nat)
    requires i <= |pvcs|
    ensures Names(pvcs[..i]) <= Names(pvcs)
  {
  }

  /** Newest yields an eligible snapshot of the list that none beats, and yields one whenever there is one. */
  lemma {:induction false} NewestIsMaximal(snaps: seq<Snapshot>, name: string, from: Option<int>, to: Option<int>)
    ensures Newest(snaps, name, from, to).Some? <==> exists s :: s in snaps && Eligible(s, name, from, to)
    ensures var r := Newest(snaps, name, from, to);
      r.Some? ==> r.value in snaps && Eligible(r.value, name, from, to) &&
                  forall s | s in snaps && Eligible(s, name, from, to) :: s.time <= r.value.time
  {
    if snaps != [] {
      var init, last := snaps[..|snaps| - 1], snaps[|snaps| - 1];
      NewestIsMaximal(init, name, from, to);
      assert forall s :: s in snaps <==> s in init || s == last;
    }
  }

  /** Of several newest snapshots of a claim in the window, the first in the listing is chosen. */
  lemma {:induction false} NewestIsFirst(snaps: seq<Snapshot>, name: string, from: Option<int>, to: Option<int>)
    returns (i: nat)
    requires Newest(snaps, name, from, to).Some?
    ensures i < |snaps| && Newest(snaps, name, from, to) == Some(snaps[i])
    ensures forall j | 0 <= j < i && snaps[j].claim == name
      && (from.Some? ==> from.value <= snaps[j].time) && (to.Some? ==> snaps[j].time <= to.value) ::
        snaps[j].time < snaps[i].time
  {
    var n := |snaps| - 1;
    NewestIsMaximal(snaps[..n], name, from, to);
    if Newest(snaps, name, from, to) == Newest(snaps[..n], name, from, to) {
      i := NewestIsFirst(snaps[..n], name, from, to);
    } else {
      i := n;
      assert forall j | 0 <= j < n :: snaps[j] in snaps[..n];
    }
  }

  /** Selection is exact: it succeeds iff every claim has a snapshot in the window, both ends included, and a listing
      that reports an error has as many snapshots as there are claims; and then it maps exactly the claim names, each to
      a newest snapshot of that name in the window. */
  lemma SelectionExact(pvcs: seq<Claim>, snaps: seq<Snapshot>, failed: bool, from: Option<int>, to: Option<int>)
    ensures Select(pvcs, snaps, failed, from, to).Some? <==>
      && (failed ==> |pvcs| <= |snaps|)
      && forall c <- pvcs :: exists s <- snaps ::
           s.claim == c.name && (from.Some? ==> from.value <= s.time) && (to.Some? ==> s.time <= to.value)
    ensures var m := Select(pvcs, snaps, failed, from, to);
      m.Some? ==>
        && m.value.Keys == Names(pvcs)
        && forall n <- m.value ::
             && m.value[n] in snaps && m.value[n].claim == n
             && (from.Some? ==> from.value <= m.value[n].time) && (to.Some? ==> m.value[n].time <= to.value)
             && forall s <- snaps ::
                  s.claim == n && (from.Some? ==> from.value <= s.time) && (to.Some? ==> s.time <= to.value)
                  ==> s.time <= m.value[n].time
  {
    forall n: string {
      NewestIsMaximal(snaps, n, from, to);
    }
    if AllCovered(pvcs, snaps, from, to) {
      forall c | c in pvcs
        ensures exists s <- snaps ::
          s.claim == c.name && (from.Some? ==> from.value <= s.time) && (to.Some? ==> s.time <= to.value)
      {
        assert c.name in Names(pvcs) && Newest(snaps, c.name, from, to).value in snaps;
      }
    }
  }

  /** The chosen timestamp is a function of the set of snapshots: neither order nor repetition matters. */
  lemma TimesIgnoreOrder(a: seq<Snapshot>, b: seq<Snapshot>, name: string, from: Option<int>, to: Option<int>)
    requires forall s :: s in a <==> s in b
    ensures var x, y := Newest(a, name, from, to), Newest(b, name, from, to);
      (x.Some? <==> y.Some?) && (x.Some? ==> x.value.time == y.value.time)
  {
    NewestIsMaximal(a, name, from, to);
    NewestIsMaximal(b, name, from, to);
  }

  /** More snapshots never move a choice back, and never make a claim uncovered. */
  lemma MoreSnapshotsNeverMoveBack(a: seq<Snapshot>, b: seq<Snapshot>, name: string, from: Option<int>, to: Option<int>)
    requires forall s <- a :: s in b
    requires Newest(a, name, from, to).Some?
    ensures var x, y := Newest(a, name, from, to), Newest(b, name, from, to);
      y.Some? && x.value.time <= y.value.time
  {
    NewestIsMaximal(a, name, from, to);
    NewestIsMaximal(b, name, from, to);
  }

  /** Validation and the revert that follows it choose the same timestamps for every claim, when no snapshot is
      deleted in between and every new one is later than the end of the window. */
  lemma ValidationAndRevertAgree(
    pvcs: seq<Claim>, before: seq<Snapshot>, after: seq<Snapshot>, from: Option<int>, to: int)
    requires forall s <- before :: s in after
    requires forall s <- after :: s in before || to < s.time
    ensures var x, y := Select(pvcs, before, false, from, Some(to)), Select(pvcs, after, false, from, Some(to));
      (x.Some? <==> y.Some?) &&
      (x.Some? ==> x.value.Keys == y.value.Keys && forall n <- x.value :: x.value[n].time == y.value[n].time)
  {
    SelectionExact(pvcs, before, false, from, Some(to));
    SelectionExact(pvcs, after, false, from, Some(to));
    assert forall s: Snapshot, n: string :: s in after && Eligible(s, n, from, Some(to)) ==> s in before;
  }
}
