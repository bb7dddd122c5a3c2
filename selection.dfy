/**
 The selection step: score every listing against the total budget (the
 점수 column), keep the listings whose coerced price is present and within
 budget, order them by score and then by household count, both descending, and
 keep the first three.
 */
module Selection {
  import opened Listings
  import opened Scoring

  /** How many recommendations are shown. */
  const TopCount: nat := 3

  /** A listing with its position in the catalogue and its score (점수). */
  datatype Ranked = Ranked(index: nat, listing: Listing, score: nat)

  /** The household key of the descending sort. pandas places a missing count
      after every present one, whatever the direction of the sort. */
  predicate CountRanksAtLeast(a: Option<int>, b: Option<int>)
  {
    b.None? || (a.Some? && a.value >= b.value)
  }

  /** `a` may come before `b` in the order sorted by (점수, 세대수), both descending. */
  predicate RanksAtLeast(a: Ranked, b: Ranked)
  {
    a.score > b.score || (a.score == b.score && CountRanksAtLeast(a.listing.households, b.listing.households))
  }

  /** The sort key is a total preorder, so "sorted" and "best" are well defined. */
  lemma RanksAtLeastIsTotalPreorder(a: Ranked, b: Ranked, c: Ranked)
    ensures RanksAtLeast(a, a)
    ensures RanksAtLeast(a, b) || RanksAtLeast(b, a)
    ensures RanksAtLeast(a, b) && RanksAtLeast(b, c) ==> RanksAtLeast(a, c)
  {
  }

  /** `scores` is the 점수 column of `rows`: one score per row, each as Score computes it. */
  predicate IsScoreColumn(rows: seq<Listing>, totalBudget: real, prefs: Preferences, scores: seq<nat>)
  {
    |scores| == |rows| && forall i :: 0 <= i < |rows| ==> scores[i] == Score(rows[i], totalBudget, prefs)
  }

  /** The number of rows whose price is present and within the budget. */
  function CountAffordable(rows: seq<Listing>, totalBudget: real): (r: nat)
  {
    if rows == [] then 0
    else CountAffordable(rows[..|rows| - 1], totalBudget) + (if Affordable(rows[|rows| - 1].price, totalBudget) then 1 else 0)
  }

  /** `r` is row `r.index` of the catalogue, with its score, and the budget filter keeps it. */
  predicate IsCandidate(rows: seq<Listing>, scores: seq<nat>, totalBudget: real, r: Ranked)
    requires |scores| == |rows|
  {
    r.index < |rows| && Affordable(rows[r.index].price, totalBudget)
    && r == Ranked(r.index, rows[r.index], scores[r.index])
  }

  /** The rows the budget filter keeps, in catalogue order, each with its score. */
  function Candidates(rows: seq<Listing>, scores: seq<nat>, totalBudget: real): (r: seq<Ranked>)
    requires |scores| == |rows|
    decreases |rows|
  {
    if rows == [] then []
    else
      var last := |rows| - 1;
      Candidates(rows[..last], scores[..last], totalBudget)
      + (if Affordable(rows[last].price, totalBudget) then [Ranked(last, rows[last], scores[last])] else [])
  }

  /** As many rows are kept as there are affordable rows. */
  lemma {:induction false} CandidatesCount(rows: seq<Listing>, scores: seq<nat>, totalBudget: real)
    requires |scores| == |rows|
    ensures |Candidates(rows, scores, totalBudget)| == CountAffordable(rows, totalBudget)
  {
    if rows != [] {
      CandidatesCount(rows[..|rows| - 1], scores[..|rows| - 1], totalBudget);
    }
  }

  /** Every element of Candidates is an affordable row with its score, at a position before |rows|. */
  lemma {:induction false} CandidatesSound(rows: seq<Listing>, scores: seq<nat>, totalBudget: real)
    requires |scores| == |rows|
    ensures forall r :: r in Candidates(rows, scores, totalBudget) ==> IsCandidate(rows, scores, totalBudget, r)
  {
    if rows != [] {
      var last := |rows| - 1;
      var rows', scores' := rows[..last], scores[..last];
      CandidatesSound(rows', scores', totalBudget);
      forall r | r in Candidates(rows', scores', totalBudget)
        ensures IsCandidate(rows, scores, totalBudget, r)
      {
        assert IsCandidate(rows', scores', totalBudget, r);
        assert rows'[r.index] == rows[r.index] && scores'[r.index] == scores[r.index];
      }
    }
  }

  /** Every affordable row is among the Candidates, with its score. */
  lemma {:induction false} CandidatesComplete(rows: seq<Listing>, scores: seq<nat>, totalBudget: real, i: nat)
    requires |scores| == |rows|
    requires i < |rows| && Affordable(rows[i].price, totalBudget)
    ensures Ranked(i, rows[i], scores[i]) in Candidates(rows, scores, totalBudget)
  {
    var last := |rows| - 1;
    if i < last {
      var rows', scores' := rows[..last], scores[..last];
      CandidatesComplete(rows', scores', totalBudget, i);
      assert rows'[i] == rows[i] && scores'[i] == scores[i];
    }
  }

  /** Row positions strictly increase along `s`. */
  predicate IncreasingRows(s: seq<Ranked>)
  {
    forall j, k :: 0 <= j < k < |s| ==> s[j].index < s[k].index
  }

  /** Candidates come in strictly increasing row order. */
  lemma {:induction false} CandidatesIncreasing(rows: seq<Listing>, scores: seq<nat>, totalBudget: real)
    requires |scores| == |rows|
    ensures IncreasingRows(Candidates(rows, scores, totalBudget))
  {
    if rows != [] {
      var last := |rows| - 1;
      var rows', scores' := rows[..last], scores[..last];
      CandidatesIncreasing(rows', scores', totalBudget);
      CandidatesSound(rows', scores', totalBudget);
      var c := Candidates(rows', scores', totalBudget);
      forall k | 0 <= k < |c| ensures c[k].index < last {
        assert c[k] in c;
      }
    }
  }

  /** A sequence with increasing row positions holds no element twice. */
  lemma {:induction false} IncreasingRowsOccurOnce(s: seq<Ranked>)
    requires IncreasingRows(s)
    ensures forall x :: multiset(s)[x] <= 1
  {
    if s != [] {
      var prefix := s[..|s| - 1];
      assert IncreasingRows(prefix);
      IncreasingRowsOccurOnce(prefix);
      assert s == prefix + [s[|s| - 1]];
      assert s[|s| - 1] !in prefix;
    }
  }

  /** An element at two positions is counted at least twice. */
  lemma RepeatCountsTwice(s: seq<Ranked>, j: nat, k: nat)
    requires j < k < |s| && s[j] == s[k]
    ensures multiset(s)[s[j]] >= 2
  {
    assert s == s[..k] + s[k..];
    assert s[j] in s[..k];
    assert s[k] == s[k..][0];
  }

  /** Some recommendation is row `i` of the catalogue. */
  predicate Picked(top: seq<Ranked>, i: nat)
  {
    exists k | 0 <= k < |top| :: top[k].index == i
  }

  /** A selection from the Candidates consists of affordable rows with their scores, none twice. */
  lemma SelectionOfCandidates(rows: seq<Listing>, scores: seq<nat>, totalBudget: real, top: seq<Ranked>)
    requires |scores| == |rows|
    requires multiset(top) <= multiset(Candidates(rows, scores, totalBudget))
    ensures forall k :: 0 <= k < |top| ==> IsCandidate(rows, scores, totalBudget, top[k])
    ensures forall j, k :: 0 <= j < k < |top| ==> top[j].index != top[k].index
  {
    var cands := Candidates(rows, scores, totalBudget);
    CandidatesSound(rows, scores, totalBudget);
    CandidatesIncreasing(rows, scores, totalBudget);
    forall k | 0 <= k < |top| ensures top[k] in cands {
      assert multiset(top)[top[k]] >= 1;
      assert multiset(cands)[top[k]] >= 1;
    }
    IncreasingRowsOccurOnce(cands);
    forall j, k | 0 <= j < k < |top| ensures top[j].index != top[k].index {
      if top[j] == top[k] {
        RepeatCountsTwice(top, j, k);
        assert false;
      }
    }
  }

  /** If no candidate left out of `top` outranks an element of `top`, then no affordable
      row that was not picked does. */
  lemma UnpickedRowsRankBelow(rows: seq<Listing>, scores: seq<nat>, totalBudget: real, top: seq<Ranked>)
    requires |scores| == |rows|
    requires forall x, k :: x in Candidates(rows, scores, totalBudget) && x !in top && 0 <= k < |top|
               ==> RanksAtLeast(top[k], x)
    ensures forall i, k :: 0 <= i < |rows| && Affordable(rows[i].price, totalBudget) && !Picked(top, i) && 0 <= k < |top|
              ==> RanksAtLeast(top[k], Ranked(i, rows[i], scores[i]))
  {
    forall i, k | 0 <= i < |rows| && Affordable(rows[i].price, totalBudget) && !Picked(top, i) && 0 <= k < |top|
      ensures RanksAtLeast(top[k], Ranked(i, rows[i], scores[i]))
    {
      CandidatesComplete(rows, scores, totalBudget, i);
    }
  }

  /** The 점수 column: every row scored against the budget and the choices. */
  method ScoreColumn(rows: seq<Listing>, totalBudget: real, prefs: Preferences) returns (scores: seq<nat>)
    ensures IsScoreColumn(rows, totalBudget, prefs, scores)
  {
    ghost var column := seq(|rows|, j requires 0 <= j < |rows| => Score(rows[j], totalBudget, prefs));
    scores := [];
    for i := 0 to |rows|
      invariant scores == column[..i]
    {
      var s := ScoreComplex(rows[i], totalBudget, prefs);
      assert column[..i + 1] == column[..i] + [column[i]];
      scores := scores + [s];
    }
    assert scores == column;
  }

  /** The budget filter: the rows priced at or under the budget, in catalogue order, with their scores. */
  method FilterAffordable(rows: seq<Listing>, scores: seq<nat>, totalBudget: real) returns (cands: seq<Ranked>)
    requires |scores| == |rows|
    ensures cands == Candidates(rows, scores, totalBudget)
  {
    cands := [];
    for i := 0 to |rows|
      invariant cands == Candidates(rows[..i], scores[..i], totalBudget)
    {
      if Affordable(rows[i].price, totalBudget) {
        cands := cands + [Ranked(i, rows[i], scores[i])];
      }
      assert rows[..i + 1][..i] == rows[..i] && scores[..i + 1][..i] == scores[..i];
    }
    assert rows[..|rows|] == rows && scores[..|rows|] == scores;
  }

  /** The position in `s` of an element that ranks at least as high as every element of `s`,
      the first such one: every element before it ranks strictly lower. */
  method BestPosition(s: seq<Ranked>) returns (m: nat)
    requires s != []
    ensures m < |s|
    ensures forall j :: 0 <= j < |s| ==> RanksAtLeast(s[m], s[j])
    ensures forall x :: x in s ==> RanksAtLeast(s[m], x)
    ensures forall j :: 0 <= j < m ==> !RanksAtLeast(s[j], s[m])
  {
    m := 0;
    for j := 1 to |s|
      invariant m < j
      invariant forall i :: 0 <= i < j ==> RanksAtLeast(s[m], s[i])
      invariant forall i :: 0 <= i < m ==> !RanksAtLeast(s[i], s[m])
    {
      if !RanksAtLeast(s[m], s[j]) {
        m := j;
      }
    }
  }

  /** Taking out the element at position `m` of `s` leaves the rest of its elements. */
  lemma RemoveAt(s: seq<Ranked>, m: nat)
    requires m < |s|
    ensures s[m] in s
    ensures multiset(s) == multiset(s[..m] + s[m + 1..]) + multiset{s[m]}
    ensures forall x :: x in s[..m] + s[m + 1..] ==> x in s
  {
    assert s == s[..m] + [s[m]] + s[m + 1..];
  }

  /** Part way through the selection: `top` is sorted, no element of `rest` outranks an element
      of `top`, and together they are `cands`. */
  predicate SelectionInvariant(cands: seq<Ranked>, top: seq<Ranked>, rest: seq<Ranked>)
  {
    && multiset(top) + multiset(rest) == multiset(cands)
    && |top| + |rest| == |cands|
    && (forall j, k :: 0 <= j < k < |top| ==> RanksAtLeast(top[j], top[k]))
    && (forall k, x :: 0 <= k < |top| && x in rest ==> RanksAtLeast(top[k], x))
  }

  /** An element that every element of a sorted `top` outranks can go at its end. */
  lemma AppendKeepsSorted(top: seq<Ranked>, best: Ranked)
    requires forall j, k :: 0 <= j < k < |top| ==> RanksAtLeast(top[j], top[k])
    requires forall k :: 0 <= k < |top| ==> RanksAtLeast(top[k], best)
    ensures forall j, k :: 0 <= j < k < |top + [best]| ==> RanksAtLeast((top + [best])[j], (top + [best])[k])
  {
    assert forall k :: 0 <= k < |top| ==> (top + [best])[k] == top[k];
  }

  /** Moving a best element of `rest` to the end of `top` keeps the selection invariant. */
  lemma SelectionStep(cands: seq<Ranked>, top: seq<Ranked>, rest: seq<Ranked>, m: nat)
    requires SelectionInvariant(cands, top, rest)
    requires m < |rest| && forall x :: x in rest ==> RanksAtLeast(rest[m], x)
    ensures SelectionInvariant(cands, top + [rest[m]], rest[..m] + rest[m + 1..])
  {
    var best := rest[m];
    var top', rest' := top + [best], rest[..m] + rest[m + 1..];
    RemoveAt(rest, m);
    assert multiset(top') == multiset(top) + multiset{best};
    AppendKeepsSorted(top, best);
    assert forall k, x :: 0 <= k < |top'| && x in rest' ==> RanksAtLeast(top'[k], x) by {
      assert forall k :: 0 <= k < |top| ==> top'[k] == top[k];
      assert top'[|top|] == best;
    }
  }

  /** When the selection stops, a candidate outside `top` is still in `rest`. */
  lemma LeftOutIsInRest(cands: seq<Ranked>, top: seq<Ranked>, rest: seq<Ranked>, x: Ranked)
    requires SelectionInvariant(cands, top, rest)
    requires x in cands && x !in top
    ensures x in rest
  {
    assert multiset(cands)[x] >= 1;
  }

  /** The first TopCount elements of `cands` sorted by (점수, 세대수) descending: a sorted
      selection from `cands` that nothing left out outranks. */
  method TakeBest(cands: seq<Ranked>) returns (top: seq<Ranked>)
    ensures |top| == if |cands| < TopCount then |cands| else TopCount
    ensures multiset(top) <= multiset(cands)
    ensures forall j, k :: 0 <= j < k < |top| ==> RanksAtLeast(top[j], top[k])
    ensures forall x, k :: x in cands && x !in top && 0 <= k < |top| ==> RanksAtLeast(top[k], x)
  {
    top := [];
    var rest := cands;
    while |top| < TopCount && rest != []
      invariant SelectionInvariant(cands, top, rest)
      invariant |top| <= TopCount
      decreases |rest|
    {
      var m := BestPosition(rest);
      SelectionStep(cands, top, rest, m);
      top, rest := top + [rest[m]], rest[..m] + rest[m + 1..];
    }
    forall x, k | x in cands && x !in top && 0 <= k < |top| ensures RanksAtLeast(top[k], x) {
      LeftOutIsInRest(cands, top, rest, x);
    }
  }

  /** The recommendation step: score every row, keep those priced within the total budget,
      and return the best three by (점수, 세대수), best first. `totalBudget` is the form's
      total budget as it was computed from cash and loan. */
  method Recommend(rows: seq<Listing>, totalBudget: real, prefs: Preferences) returns (top: seq<Ranked>)
    ensures |top| == if CountAffordable(rows, totalBudget) < TopCount
                     then CountAffordable(rows, totalBudget) else TopCount
    ensures forall k :: 0 <= k < |top| ==>
              top[k].index < |rows| && top[k].listing == rows[top[k].index]
              && top[k].score == Score(top[k].listing, totalBudget, prefs)
    ensures forall k :: 0 <= k < |top| ==>
              top[k].listing.price.Some? && top[k].listing.price.value <= totalBudget
    ensures forall k :: 0 <= k < |top| ==> top[k].score >= BudgetPoints
    ensures forall j, k :: 0 <= j < k < |top| ==> top[j].index != top[k].index
    ensures forall j, k :: 0 <= j < k < |top| ==> RanksAtLeast(top[j], top[k])
    ensures forall i, k :: 0 <= i < |rows| && Affordable(rows[i].price, totalBudget)
              && !Picked(top, i) && 0 <= k < |top|
              ==> RanksAtLeast(top[k], Ranked(i, rows[i], Score(rows[i], totalBudget, prefs)))
  {
    var scores := ScoreColumn(rows, totalBudget, prefs);
    var cands := FilterAffordable(rows, scores, totalBudget);
    top := TakeBest(cands);
    CandidatesCount(rows, scores, totalBudget);
    SelectionOfCandidates(rows, scores, totalBudget, top);
    UnpickedRowsRankBelow(rows, scores, totalBudget, top);
    forall k | 0 <= k < |top| ensures top[k].score >= BudgetPoints {
      assert IsCandidate(rows, scores, totalBudget, top[k]);
      assert BudgetAward(top[k].listing.price, totalBudget) == BudgetPoints;
    }
  }
}
