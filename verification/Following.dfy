/** Working through a plan: the calls issued so far are a prefix of it. */
module Following {

  /** The calls since `before` are the planned ones, or the first few of them if the work was cut. */
  ghost predicate Followed<T>(before: seq<T>, after: seq<T>, planned: seq<T>, complete: bool) {
    before <= after <= before + planned && (complete ==> after == before + planned)
  }

  /** Two pieces of work, the second one possibly cut. */
  lemma FollowedBoth<T>(a: seq<T>, b: seq<T>, c: seq<T>, first: seq<T>, second: seq<T>, complete: bool)
    requires Followed(a, b, first, true) && Followed(b, c, second, complete)
    ensures Followed(a, c, first + second, complete)
  {
    assert a + first + second == a + (first + second);
  }

  /** The first piece of work was cut, so the second never started. */
  lemma FollowedCut<T>(a: seq<T>, b: seq<T>, first: seq<T>, second: seq<T>)
    requires Followed(a, b, first, false)
    ensures Followed(a, b, first + second, false)
  {
    assert a + first + second == a + (first + second);
  }

  /** Part of a loop of calls was done when it was cut. */
  lemma FollowedPart<T>(a: seq<T>, b: seq<T>, whole: seq<T>, i: nat)
    requires i <= |whole| && Followed(a, b, whole[..i], false)
    ensures Followed(a, b, whole, false)
  {
    FollowedCut(a, b, whole[..i], whole[i..]);
    assert whole[..i] + whole[i..] == whole;
  }

  /** One more call of a loop, possibly failing. */
  lemma FollowedNext<T>(a: seq<T>, b: seq<T>, c: seq<T>, whole: seq<T>, i: nat, complete: bool)
    requires i < |whole| && Followed(a, b, whole[..i], true) && Followed(b, c, [whole[i]], complete)
    ensures Followed(a, c, whole[..i + 1], complete) && (!complete ==> Followed(a, c, whole, false))
  {
    FollowedBoth(a, b, c, whole[..i], [whole[i]], complete);
    assert whole[..i] + [whole[i]] == whole[..i + 1];
    if !complete {
      FollowedPart(a, c, whole, i + 1);
    }
  }

  /** The calls since `before`. */
  lemma FollowedSince<T>(before: seq<T>, recent: seq<T>, planned: seq<T>, complete: bool)
    requires Followed(before, before + recent, planned, complete)
    ensures recent <= planned && (complete ==> recent == planned)
  {
    assert recent == (before + recent)[|before|..];
    assert recent == (before + planned)[|before|..|before| + |recent|];
  }

  /** What came since a point is still there when more has come. */
  lemma TailGrows<T>(some: seq<T>, more: seq<T>, n: nat)
    requires n <= |some| && some <= more
    ensures forall x <- some[n..] :: x in more[n..]
  {
    forall x | x in some[n..] ensures x in more[n..] {
      var i :| 0 <= i < |some[n..]| && some[n..][i] == x;
      assert more[n..][i] == x;
    }
  }
}
