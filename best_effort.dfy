/**
 * BestEffortCommoditySubmissionFactory.build: runs every configured sub-factory on the same screen
 * capture and keeps the submission with the most listings, or fails with NoListingsException.
 *
 * The sub-factories are functions from the capture to what their `build` call did: threw, returned
 * null, or returned a submission. Listings and captures are left abstract.
 */
module BestEffort {
  import opened Results

  /** A commodity submission: its listings, in the order the factory parsed them. */
  datatype Submission<L> = Submission(listings: seq<L>)

  /** What one sub-factory's `build(screenCapture)` did. */
  datatype BuildOutcome<L> = Threw | ReturnedNull | Built(submission: Submission<L>)

  /** NoListingsException. */
  datatype SelectionError = NoListings

  /** The `map` step: a caught exception becomes null, like a null result. */
  function Candidate<L>(outcome: BuildOutcome<L>): (c: Option<Submission<L>>)
    ensures c.Some? <==> outcome.Built?
    ensures c.Some? ==> c.value == outcome.submission
  {
    match outcome
    case Threw => None
    case ReturnedNull => None
    case Built(submission) => Some(submission)
  }

  /** The `filter` step: a non-null submission with at least one listing. */
  predicate Survives<L>(c: Option<Submission<L>>) {
    c.Some? && |c.value.listings| > 0
  }

  /** The candidates that pass the filter, in their original order. */
  function Survivors<L>(cs: seq<Option<Submission<L>>>): (r: seq<Submission<L>>)
    ensures forall s :: s in r ==> |s.listings| > 0
    ensures forall s :: s in r ==> exists i :: 0 <= i < |cs| && cs[i] == Some(s)
  {
    if cs == [] then []
    else Survivors(cs[..|cs| - 1]) + if Survives(cs[|cs| - 1]) then [cs[|cs| - 1].value] else []
  }

  /** `BinaryOperator.maxBy`: keeps the left operand unless the right one has strictly more listings. */
  function MaxBy<L>(a: Submission<L>, b: Submission<L>): (m: Submission<L>)
    ensures m == a || m == b
    ensures |m.listings| >= |a.listings| && |m.listings| >= |b.listings|
    ensures |a.listings| == |b.listings| ==> m == a
  {
    if |a.listings| >= |b.listings| then a else b
  }

  /** `Stream.max`: the reduction of the survivors with MaxBy, from left to right. */
  function Best<L>(s: seq<Submission<L>>): (b: Submission<L>)
    requires s != []
    ensures b in s
    ensures forall x :: x in s ==> |x.listings| <= |b.listings|
  {
    if |s| == 1 then s[0] else MaxBy(Best(s[..|s| - 1]), s[|s| - 1])
  }

  /** `max(...).orElseThrow(NoListingsException::new)` over the survivors of the candidates. */
  function Select<L>(cs: seq<Option<Submission<L>>>): (r: Result<Submission<L>, SelectionError>)
    ensures r.Failure? <==> Survivors(cs) == []
    ensures r.Success? ==> r.value in Survivors(cs)
    ensures r.Success? ==> forall s :: s in Survivors(cs) ==> |s.listings| <= |r.value.listings|
  {
    var survivors := Survivors(cs);
    if survivors == [] then Failure(NoListings) else Success(Best(survivors))
  }

  /** The `stream().map(...)` step: every sub-factory, in order, applied to the same capture. */
  function Candidates<C, L>(factories: seq<C -> BuildOutcome<L>>, screenCapture: C): (cs: seq<Option<Submission<L>>>)
    ensures |cs| == |factories|
    ensures forall i :: 0 <= i < |cs| ==> cs[i] == Candidate(factories[i](screenCapture))
  {
    seq(|factories|, i requires 0 <= i < |factories| => Candidate(factories[i](screenCapture)))
  }

  /** build: the selection over the candidates of all sub-factories. */
  function Build<C, L>(factories: seq<C -> BuildOutcome<L>>, screenCapture: C): (r: Result<Submission<L>, SelectionError>)
    ensures r.Success? ==> |r.value.listings| > 0
    ensures r.Success? ==> exists i :: 0 <= i < |factories| && factories[i](screenCapture) == Built(r.value)
  {
    Select(Candidates(factories, screenCapture))
  }

  /** The survivors of one more candidate. */
  lemma SurvivorsSnoc<L>(cs: seq<Option<Submission<L>>>, c: Option<Submission<L>>)
    ensures Survivors(cs + [c]) == Survivors(cs) + if Survives(c) then [c.value] else []
  {
    assert (cs + [c])[..|cs|] == cs;
  }

  /** The reduction of one more survivor. */
  lemma BestSnoc<L>(s: seq<Submission<L>>, v: Submission<L>)
    requires s != []
    ensures Best(s + [v]) == MaxBy(Best(s), v)
  {
    assert (s + [v])[..|s|] == s;
  }

  /**
   * Candidate `k` survives, yields `winner`, has the largest listing count of all survivors, and
   * every survivor before it has strictly fewer listings.
   */
  ghost predicate FirstLargestAt<L>(cs: seq<Option<Submission<L>>>, k: int, winner: Submission<L>) {
    && 0 <= k < |cs| && cs[k] == Some(winner) && Survives(cs[k])
    && (forall j :: 0 <= j < |cs| && Survives(cs[j]) ==> |cs[j].value.listings| <= |winner.listings|)
    && (forall j :: 0 <= j < k && Survives(cs[j]) ==> |cs[j].value.listings| < |winner.listings|)
  }

  /** The selection fails exactly when no candidate survives the filter. */
  lemma {:induction false} SelectFailsIffNoneSurvives<L>(cs: seq<Option<Submission<L>>>)
    ensures Select(cs).Failure? <==> forall i :: 0 <= i < |cs| ==> !Survives(cs[i])
    decreases |cs|
  {
    if cs != [] {
      var init, c := cs[..|cs| - 1], cs[|cs| - 1];
      assert cs == init + [c];
      SurvivorsSnoc(init, c);
      SelectFailsIffNoneSurvives(init);
      assert forall j :: 0 <= j < |init| ==> cs[j] == init[j];
    }
  }

  /**
   * When the selection succeeds, it returns the first of the surviving candidates with the largest
   * listing count: `maxBy` keeps the earlier one on a tie.
   */
  lemma {:induction false} SelectIsFirstLargest<L>(cs: seq<Option<Submission<L>>>)
    requires Select(cs).Success?
    ensures exists k :: FirstLargestAt(cs, k, Select(cs).value)
    decreases |cs|
  {
    var init, c := cs[..|cs| - 1], cs[|cs| - 1];
    assert cs == init + [c];
    SurvivorsSnoc(init, c);
    if !Survives(c) {
      assert Survivors(cs) == Survivors(init) + [] == Survivors(init);
      SelectIsFirstLargest(init);
      var k :| FirstLargestAt(init, k, Select(init).value);
      KeepWinner(init, c, k, Select(init).value);
    } else if Survivors(init) == [] {
      assert Survivors(cs) == [c.value];
      SelectFailsIffNoneSurvives(init);
      NewWinner(init, c);
    } else {
      BestSnoc(Survivors(init), c.value);
      SelectIsFirstLargest(init);
      var previous := Select(init).value;
      var k :| FirstLargestAt(init, k, previous);
      if |previous.listings| >= |c.value.listings| {
        KeepWinner(init, c, k, previous);
      } else {
        NewWinner(init, c);
      }
    }
  }

  /** A candidate that does not survive, or has no more listings than the winner, changes nothing. */
  lemma KeepWinner<L>(init: seq<Option<Submission<L>>>, c: Option<Submission<L>>, k: int, winner: Submission<L>)
    requires FirstLargestAt(init, k, winner)
    requires Survives(c) ==> |c.value.listings| <= |winner.listings|
    ensures FirstLargestAt(init + [c], k, winner)
  {
    var cs := init + [c];
    assert forall j :: 0 <= j < |init| ==> cs[j] == init[j];
  }

  /** A surviving candidate with more listings than every earlier survivor becomes the winner. */
  lemma NewWinner<L>(init: seq<Option<Submission<L>>>, c: Option<Submission<L>>)
    requires Survives(c)
    requires forall j :: 0 <= j < |init| && Survives(init[j]) ==> |init[j].value.listings| < |c.value.listings|
    ensures FirstLargestAt(init + [c], |init|, c.value)
  {
    var cs := init + [c];
    assert forall j :: 0 <= j < |init| ==> cs[j] == init[j];
  }

  /** build fails with NoListingsException exactly when no sub-factory returns a non-empty submission. */
  lemma BuildFailsIffNothingSurvives<C, L>(factories: seq<C -> BuildOutcome<L>>, screenCapture: C)
    ensures Build(factories, screenCapture).Failure? <==>
      forall i :: 0 <= i < |factories| ==>
        !(factories[i](screenCapture).Built? && |factories[i](screenCapture).submission.listings| > 0)
  {
    SelectFailsIffNoneSurvives(Candidates(factories, screenCapture));
  }

  /**
   * A successful build returns, unmerged, the submission of the first sub-factory whose listing
   * count is the largest; that submission is not empty, and no sub-factory that threw or returned
   * null or an empty submission can be chosen.
   */
  lemma BuildReturnsFirstLargest<C, L>(factories: seq<C -> BuildOutcome<L>>, screenCapture: C)
    requires Build(factories, screenCapture).Success?
    ensures var winner := Build(factories, screenCapture).value;
      && |winner.listings| > 0
      && (exists k ::
            && 0 <= k < |factories|
            && factories[k](screenCapture) == Built(winner)
            && (forall j :: 0 <= j < |factories| && factories[j](screenCapture).Built? ==>
                  |factories[j](screenCapture).submission.listings| <= |winner.listings|)
            && (forall j :: 0 <= j < k && factories[j](screenCapture).Built? && |factories[j](screenCapture).submission.listings| > 0 ==>
                  |factories[j](screenCapture).submission.listings| < |winner.listings|))
  {
    var cs := Candidates(factories, screenCapture);
    SelectIsFirstLargest(cs);
    var winner := Build(factories, screenCapture).value;
    var k :| FirstLargestAt(cs, k, winner);
    assert factories[k](screenCapture) == Built(winner);
  }

  /** With no sub-factories at all, build throws NoListingsException. */
  lemma NoFactoriesFail<C, L>(screenCapture: C)
    ensures Build<C, L>([], screenCapture) == Failure(NoListings)
  {
  }

  /**
   * Three pipelines where the first throws, the second returns no listings and the third returns
   * five: the third pipeline's submission is returned.
   */
  lemma ThirdOfThreeWins<C, L>(factories: seq<C -> BuildOutcome<L>>, screenCapture: C)
    requires |factories| == 3
    requires factories[0](screenCapture) == Threw
    requires factories[1](screenCapture) == Built(Submission([]))
    requires factories[2](screenCapture).Built? && |factories[2](screenCapture).submission.listings| == 5
    ensures Build(factories, screenCapture) == Success(factories[2](screenCapture).submission)
  {
    var cs := Candidates(factories, screenCapture);
    assert Survives(cs[2]);
    SelectFailsIffNoneSurvives(cs);
    SelectIsFirstLargest(cs);
    var k :| FirstLargestAt(cs, k, Select(cs).value);
    assert k == 2 by {
      assert !Survives(cs[0]) && !Survives(cs[1]);
    }
  }
}
