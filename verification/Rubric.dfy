/** Rubric scoring and the weighted final score, over exact reals. */
module Rubric {
  import opened Prelude

  datatype Criterion = Criterion(id: string, maxScore: real, weight: real)

  datatype Score = Score(criterionId: string, score: real, maxScore: Option<real>)

  datatype Refusal = NotOneScoreEach | InvalidRubric | OutsideRubric

  const TOLERANCE := 0.001

  predicate DistinctScores(scores: seq<Score>) {
    forall i, j :: 0 <= i < j < |scores| ==> scores[i].criterionId != scores[j].criterionId
  }

  predicate DistinctCriteria(criteria: seq<Criterion>) {
    forall i, j :: 0 <= i < j < |criteria| ==> criteria[i].id != criteria[j].id
  }

  function SumOfWeights(criteria: seq<Criterion>): real {
    if criteria == [] then 0.0 else SumOfWeights(criteria[..|criteria| - 1]) + criteria[|criteria| - 1].weight
  }

  function ScoreFor(scores: seq<Score>, id: string): (r: Option<Score>)
    ensures r.Some? ==> r.value in scores && r.value.criterionId == id
    ensures r.None? ==> forall s :: s in scores ==> s.criterionId != id
  {
    if scores == [] then None
    else if scores[0].criterionId == id then Some(scores[0])
    else ScoreFor(scores[1..], id)
  }

  predicate Fits(c: Criterion, item: Option<Score>) {
    && item.Some? && 0.0 < c.maxScore && 0.0 <= c.weight && 0.0 <= item.value.score <= c.maxScore
    && (item.value.maxScore.Some? ==> item.value.maxScore.value == c.maxScore)
  }

  predicate AllFit(criteria: seq<Criterion>, scores: seq<Score>) {
    forall i :: 0 <= i < |criteria| ==> Fits(criteria[i], ScoreFor(scores, criteria[i].id))
  }

  predicate OneScoreEach(criteria: seq<Criterion>, scores: seq<Score>) {
    criteria != [] && |scores| == |criteria| && DistinctScores(scores)
  }

  predicate ValidRubric(criteria: seq<Criterion>) {
    DistinctCriteria(criteria) && -TOLERANCE <= SumOfWeights(criteria) - 100.0 <= TOLERANCE
  }

  predicate Acceptable(criteria: seq<Criterion>, scores: seq<Score>) {
    OneScoreEach(criteria, scores) && ValidRubric(criteria) && AllFit(criteria, scores)
  }

  function Share(c: Criterion, s: Score): real
    requires c.maxScore != 0.0
  {
    s.score / c.maxScore * c.weight
  }

  function Total(criteria: seq<Criterion>, scores: seq<Score>): real
    requires AllFit(criteria, scores)
  {
    if criteria == [] then 0.0
    else
      var c := criteria[|criteria| - 1];
      Total(criteria[..|criteria| - 1], scores) + Share(c, ScoreFor(scores, c.id).value)
  }

  /** `Math.round(x * 100) / 100` */
  function Rounded(x: real): real {
    (x * 100.0 + 0.5).Floor as real / 100.0
  }

  method ScoreAgainstRubric(criteria: seq<Criterion>, scores: seq<Score>) returns (r: Result<real, Refusal>)
    ensures r.Ok? <==> Acceptable(criteria, scores)
    ensures r.Ok? ==> r.value == Rounded(Total(criteria, scores))
    ensures r == Err(NotOneScoreEach) <==> !OneScoreEach(criteria, scores)
    ensures r == Err(InvalidRubric) <==> OneScoreEach(criteria, scores) && !ValidRubric(criteria)
  {
    if !OneScoreEach(criteria, scores) {
      return Err(NotOneScoreEach);
    }
    if !ValidRubric(criteria) {
      return Err(InvalidRubric);
    }
    var result := 0.0;
    for i := 0 to |criteria|
      invariant AllFit(criteria[..i], scores) && result == Total(criteria[..i], scores)
    {
      var item := ScoreFor(scores, criteria[i].id);
      if !Fits(criteria[i], item) {
        return Err(OutsideRubric);
      }
      TotalOfPrefix(criteria, scores, i);
      result := result + item.value.score / criteria[i].maxScore * criteria[i].weight;
    }
    assert criteria[..|criteria|] == criteria;
    r := Ok(Rounded(result));
  }

  lemma TotalOfPrefix(criteria: seq<Criterion>, scores: seq<Score>, i: nat)
    requires i < |criteria| && AllFit(criteria[..i], scores)
    requires Fits(criteria[i], ScoreFor(scores, criteria[i].id))
    ensures AllFit(criteria[..i + 1], scores)
    ensures Total(criteria[..i + 1], scores)
            == Total(criteria[..i], scores) + Share(criteria[i], ScoreFor(scores, criteria[i].id).value)
  {
    var longer := criteria[..i + 1];
    assert longer[..i] == criteria[..i];
    forall k | 0 <= k < |longer| ensures Fits(longer[k], ScoreFor(scores, longer[k].id)) {
      assert k < i ==> longer[k] == criteria[..i][k];
    }
  }

  // ---------------------------------------------------------------- one to one

  function CriterionIds(criteria: seq<Criterion>): set<string> {
    set i | 0 <= i < |criteria| :: criteria[i].id
  }

  function ScoreIds(scores: seq<Score>): set<string> {
    set i | 0 <= i < |scores| :: scores[i].criterionId
  }

  lemma {:induction false} CriterionIdsSize(criteria: seq<Criterion>)
    requires DistinctCriteria(criteria)
    ensures |CriterionIds(criteria)| == |criteria|
  {
    if criteria != [] {
      var rest := criteria[..|criteria| - 1];
      CriterionIdsSize(rest);
      assert CriterionIds(criteria) == CriterionIds(rest) + {criteria[|criteria| - 1].id};
    }
  }

  lemma {:induction false} ScoreIdsSize(scores: seq<Score>)
    requires DistinctScores(scores)
    ensures |ScoreIds(scores)| == |scores|
  {
    if scores != [] {
      var rest := scores[..|scores| - 1];
      ScoreIdsSize(rest);
      assert ScoreIds(scores) == ScoreIds(rest) + {scores[|scores| - 1].criterionId};
    }
  }

  lemma SameSizeSubset<T>(a: set<T>, b: set<T>)
    requires a <= b && |a| == |b|
    ensures a == b
  {
    assert b == a + (b - a);
    assert |b - a| == 0;
  }

  /** Accepted scores and criteria match one to one, although the code only looks up a score
      for each criterion: no accepted score is left over. */
  lemma ScoresMatchCriteria(criteria: seq<Criterion>, scores: seq<Score>)
    requires Acceptable(criteria, scores)
    ensures CriterionIds(criteria) == ScoreIds(scores)
    ensures forall s :: s in scores ==> ScoreFor(scores, s.criterionId) == Some(s)
                                        && exists i :: 0 <= i < |criteria| && criteria[i].id == s.criterionId
  {
    CriterionIdsSize(criteria);
    ScoreIdsSize(scores);
    forall id | id in CriterionIds(criteria) ensures id in ScoreIds(scores) {
      var i :| 0 <= i < |criteria| && criteria[i].id == id;
      assert Fits(criteria[i], ScoreFor(scores, id));
    }
    SameSizeSubset(CriterionIds(criteria), ScoreIds(scores));
    forall s | s in scores
      ensures ScoreFor(scores, s.criterionId) == Some(s) && exists i :: 0 <= i < |criteria| && criteria[i].id == s.criterionId
    {
      assert s.criterionId in ScoreIds(scores);
    }
  }

  // ---------------------------------------------------------------- range, monotonicity, order

  lemma ShareInRange(c: Criterion, s: Score)
    requires Fits(c, Some(s))
    ensures 0.0 <= Share(c, s) <= c.weight
    ensures s.score == c.maxScore ==> Share(c, s) == c.weight
  {
    var part := s.score / c.maxScore;
    assert 0.0 <= part <= 1.0;
  }

  lemma QuotientIsMonotone(x: real, y: real, d: real)
    requires x <= y && 0.0 < d
    ensures x / d <= y / d
  {
    var p, q := x / d, y / d;
    assert p * d == x && q * d == y;
    assert (p - q) * d == x - y;
    assert p > q ==> (p - q) * d > 0.0;
  }

  lemma ShareIsMonotone(c: Criterion, s: Score, t: Score)
    requires Fits(c, Some(s)) && Fits(c, Some(t)) && s.score <= t.score
    ensures Share(c, s) <= Share(c, t)
  {
    QuotientIsMonotone(s.score, t.score, c.maxScore);
  }

  lemma {:induction false} TotalInRange(criteria: seq<Criterion>, scores: seq<Score>)
    requires AllFit(criteria, scores)
    ensures 0.0 <= Total(criteria, scores) <= SumOfWeights(criteria)
    ensures (forall i :: 0 <= i < |criteria| ==> ScoreFor(scores, criteria[i].id).value.score == criteria[i].maxScore)
            ==> Total(criteria, scores) == SumOfWeights(criteria)
  {
    if criteria != [] {
      var c := criteria[|criteria| - 1];
      TotalInRange(criteria[..|criteria| - 1], scores);
      ShareInRange(c, ScoreFor(scores, c.id).value);
    }
  }

  lemma RoundedIsMonotone(x: real, y: real)
    requires x <= y
    ensures Rounded(x) <= Rounded(y)
  {
    assert (x * 100.0 + 0.5).Floor <= (y * 100.0 + 0.5).Floor;
  }

  /** An accepted score lies in 0..100, and full marks give exactly 100. */
  lemma ScoreInRange(criteria: seq<Criterion>, scores: seq<Score>)
    requires Acceptable(criteria, scores)
    ensures 0.0 <= Rounded(Total(criteria, scores)) <= 100.0
    ensures (forall i :: 0 <= i < |criteria| ==> ScoreFor(scores, criteria[i].id).value.score == criteria[i].maxScore)
            ==> Rounded(Total(criteria, scores)) == 100.0
  {
    TotalInRange(criteria, scores);
    RoundedIsMonotone(Total(criteria, scores), SumOfWeights(criteria));
    RoundedIsMonotone(0.0, Total(criteria, scores));
    assert (0.5).Floor == 0;
  }

  lemma {:induction false} TotalIsMonotone(criteria: seq<Criterion>, low: seq<Score>, high: seq<Score>)
    requires AllFit(criteria, low) && AllFit(criteria, high)
    requires forall i :: 0 <= i < |criteria| ==>
      ScoreFor(low, criteria[i].id).value.score <= ScoreFor(high, criteria[i].id).value.score
    ensures Total(criteria, low) <= Total(criteria, high)
  {
    if criteria != [] {
      var c := criteria[|criteria| - 1];
      TotalIsMonotone(criteria[..|criteria| - 1], low, high);
      ShareIsMonotone(c, ScoreFor(low, c.id).value, ScoreFor(high, c.id).value);
    }
  }

  /** Raising any score never lowers the result. */
  lemma ScoreIsMonotone(criteria: seq<Criterion>, low: seq<Score>, high: seq<Score>)
    requires Acceptable(criteria, low) && Acceptable(criteria, high)
    requires forall i :: 0 <= i < |criteria| ==>
      ScoreFor(low, criteria[i].id).value.score <= ScoreFor(high, criteria[i].id).value.score
    ensures Rounded(Total(criteria, low)) <= Rounded(Total(criteria, high))
  {
    TotalIsMonotone(criteria, low, high);
    RoundedIsMonotone(Total(criteria, low), Total(criteria, high));
  }

  lemma SameMembers(a: seq<Score>, b: seq<Score>)
    requires multiset(a) == multiset(b)
    ensures forall s :: s in a <==> s in b
  {
    forall s ensures s in a <==> s in b {
      assert s in multiset(a) <==> s in multiset(b);
    }
  }

  lemma {:induction false} TotalIgnoresOrder(criteria: seq<Criterion>, a: seq<Score>, b: seq<Score>)
    requires AllFit(criteria, a) && AllFit(criteria, b)
    requires forall id :: ScoreFor(a, id) == ScoreFor(b, id)
    ensures Total(criteria, a) == Total(criteria, b)
  {
    if criteria != [] {
      TotalIgnoresOrder(criteria[..|criteria| - 1], a, b);
    }
  }

  /** The order of the scores does not matter, neither for acceptance nor for the result. */
  lemma ScoreIgnoresOrder(criteria: seq<Criterion>, a: seq<Score>, b: seq<Score>)
    requires multiset(a) == multiset(b) && Acceptable(criteria, a)
    ensures Acceptable(criteria, b) && Total(criteria, a) == Total(criteria, b)
  {
    SameMembers(a, b);
    assert |multiset(a)| == |a| && |multiset(b)| == |b|;
    DistinctIgnoresOrder(a, b);
    forall id ensures ScoreFor(a, id) == ScoreFor(b, id) {
    }
    TotalIgnoresOrder(criteria, a, b);
  }

  lemma DistinctIgnoresOrder(a: seq<Score>, b: seq<Score>)
    requires multiset(a) == multiset(b) && DistinctScores(a)
    ensures DistinctScores(b)
  {
    SameMembers(a, b);
    forall i, j | 0 <= i < j < |b| ensures b[i].criterionId != b[j].criterionId {
      if b[i] == b[j] {
        Twice(b, i, j);
        AtMostOnce(a, b[i]);
      } else {
        assert b[i] in a && b[j] in a;
      }
    }
  }

  lemma Twice(b: seq<Score>, i: nat, j: nat)
    requires i < j < |b| && b[i] == b[j]
    ensures 2 <= multiset(b)[b[i]]
  {
    assert b == b[..i] + [b[i]] + b[i + 1..j] + [b[j]] + b[j + 1..];
  }

  lemma {:induction false} AtMostOnce(a: seq<Score>, s: Score)
    requires DistinctScores(a)
    ensures multiset(a)[s] <= 1
  {
    if a != [] {
      var rest := a[..|a| - 1];
      assert a == rest + [a[|a| - 1]];
      AtMostOnce(rest, s);
      if s == a[|a| - 1] {
        assert s !in rest;
        assert s !in multiset(rest);
      }
    }
  }

  // ---------------------------------------------------------------- what is accepted, and what it counts

  /** Scores are accepted exactly when there is one for each criterion and no other, the weights add up to
      100 give or take a thousandth, and each criterion has a positive maximum, a weight of zero or more
      and a score between 0 and its maximum, which a maximum sent along repeats. */
  lemma AcceptedExactly(criteria: seq<Criterion>, scores: seq<Score>)
    ensures Acceptable(criteria, scores) <==>
      && 0 < |criteria| == |scores|
      && (forall i, j :: 0 <= i < j < |criteria| ==> criteria[i].id != criteria[j].id)
      && (forall i, j :: 0 <= i < j < |scores| ==> scores[i].criterionId != scores[j].criterionId)
      && 99.999 <= SumOfWeights(criteria) <= 100.001
      && (forall c <- criteria :: 0.0 < c.maxScore && 0.0 <= c.weight
            && exists s <- scores :: s.criterionId == c.id && 0.0 <= s.score <= c.maxScore && s.maxScore in {None, Some(c.maxScore)})
  {
    if DistinctScores(scores) {
      forall s <- scores ensures ScoreFor(scores, s.criterionId) == Some(s) {
        FoundByItsId(scores, s);
      }
      forall i | 0 <= i < |criteria|
        ensures Fits(criteria[i], ScoreFor(scores, criteria[i].id)) <==>
          && 0.0 < criteria[i].maxScore && 0.0 <= criteria[i].weight
          && exists s <- scores :: s.criterionId == criteria[i].id && 0.0 <= s.score <= criteria[i].maxScore
                                   && s.maxScore in {None, Some(criteria[i].maxScore)}
      {
        FitsExactly(criteria[i], scores);
      }
      hide Fits;
    }
  }

  lemma {:induction false} FoundByItsId(scores: seq<Score>, s: Score)
    requires DistinctScores(scores) && s in scores
    ensures ScoreFor(scores, s.criterionId) == Some(s)
  {
    if scores[0] != s {
      FoundByItsId(scores[1..], s);
    }
  }

  lemma FitsExactly(c: Criterion, scores: seq<Score>)
    requires forall s <- scores :: ScoreFor(scores, s.criterionId) == Some(s)
    ensures Fits(c, ScoreFor(scores, c.id)) <==>
      && 0.0 < c.maxScore && 0.0 <= c.weight
      && exists s <- scores :: s.criterionId == c.id && 0.0 <= s.score <= c.maxScore && s.maxScore in {None, Some(c.maxScore)}
  {
    if ScoreFor(scores, c.id).Some? {
      var s := ScoreFor(scores, c.id).value;
      assert s.maxScore in {None, Some(c.maxScore)} <==> (s.maxScore.Some? ==> s.maxScore.value == c.maxScore);
    }
  }

  lemma {:induction false} OneShareMoves(criteria: seq<Criterion>, low: seq<Score>, high: seq<Score>, i: nat)
    requires AllFit(criteria, low) && AllFit(criteria, high) && i < |criteria|
    requires forall k :: 0 <= k < |criteria| && k != i ==> ScoreFor(low, criteria[k].id) == ScoreFor(high, criteria[k].id)
    ensures var c := criteria[i];
      Total(criteria, high) - Total(criteria, low)
      == Share(c, ScoreFor(high, c.id).value) - Share(c, ScoreFor(low, c.id).value)
  {
    hide Share;
    var n := |criteria| - 1;
    if i < n {
      OneShareMoves(criteria[..n], low, high, i);
    } else {
      SameTotal(criteria[..n], low, high);
    }
  }

  /** Each criterion counts on its own: when two lists of scores differ for one criterion only, their totals
      differ by that difference, as a part of the maximum, times the weight. */
  lemma OneScoreMoves(criteria: seq<Criterion>, low: seq<Score>, high: seq<Score>, i: nat)
    requires AllFit(criteria, low) && AllFit(criteria, high) && i < |criteria|
    requires forall k :: 0 <= k < |criteria| && k != i ==> ScoreFor(low, criteria[k].id) == ScoreFor(high, criteria[k].id)
    ensures var c := criteria[i]; var s, t := ScoreFor(low, c.id).value, ScoreFor(high, c.id).value;
      Total(criteria, high) - Total(criteria, low) == (t.score - s.score) / c.maxScore * c.weight
  {
    hide Share, Total, ScoreFor;
    var c := criteria[i];
    OneShareMoves(criteria, low, high, i);
    assert Fits(c, ScoreFor(low, c.id)) && Fits(c, ScoreFor(high, c.id));
    ShareMoves(c, ScoreFor(low, c.id).value, ScoreFor(high, c.id).value);
  }

  lemma {:induction false} SameTotal(criteria: seq<Criterion>, low: seq<Score>, high: seq<Score>)
    requires AllFit(criteria, low) && AllFit(criteria, high)
    requires forall k :: 0 <= k < |criteria| ==> ScoreFor(low, criteria[k].id) == ScoreFor(high, criteria[k].id)
    ensures Total(criteria, low) == Total(criteria, high)
  {
    if criteria != [] {
      SameTotal(criteria[..|criteria| - 1], low, high);
    }
  }

  lemma ShareMoves(c: Criterion, s: Score, t: Score)
    requires 0.0 < c.maxScore
    ensures Share(c, t) - Share(c, s) == (t.score - s.score) / c.maxScore * c.weight
  {
    var a, b := t.score / c.maxScore, s.score / c.maxScore;
    assert a - b == (t.score - s.score) / c.maxScore;
    assert (a - b) * c.weight == a * c.weight - b * c.weight;
  }

  lemma {:induction false} NothingScoredIsZero(criteria: seq<Criterion>, scores: seq<Score>)
    requires AllFit(criteria, scores)
    requires forall i :: 0 <= i < |criteria| ==> ScoreFor(scores, criteria[i].id).value.score == 0.0
    ensures Total(criteria, scores) == 0.0
  {
    if criteria != [] {
      NothingScoredIsZero(criteria[..|criteria| - 1], scores);
    }
  }

  /** Rounding finds the hundredth at most half a hundredth away; of two, the upper one. */
  lemma RoundedExactly(x: real, n: int)
    ensures Rounded(x) == n as real / 100.0 <==> n as real / 100.0 - 0.005 <= x < n as real / 100.0 + 0.005
  {
    var m := (x * 100.0 + 0.5).Floor;
    assert m as real <= x * 100.0 + 0.5 < m as real + 1.0;
    assert Rounded(x) == n as real / 100.0 <==> m == n;
  }

  // ---------------------------------------------------------------- the final score

  function Mix(ai: real, human: real, aiWeight: real): real {
    ai * aiWeight + human * (1.0 - aiWeight)
  }

  function FinalScore(ai: Option<real>, human: Option<real>, aiWeight: real): Option<real> {
    if ai.None? && human.None? then None
    else if human.None? then ai
    else if ai.None? then human
    else Some(Mix(ai.value, human.value, aiWeight))
  }

  predicate Between(x: real, a: real, b: real) {
    a <= x <= b || b <= x <= a
  }

  lemma MixIsPartWay(ai: real, human: real, w: real)
    ensures Mix(ai, human, w) == human + (ai - human) * w
  {
  }

  lemma MixTurned(ai: real, human: real, w: real)
    ensures Mix(ai, human, w) == Mix(human, ai, 1.0 - w)
  {
    var v := 1.0 - w;
    assert 1.0 - v == w;
  }

  lemma PartWay(high: real, low: real, gap: real, w: real) returns (part: real)
    requires gap == high - low && gap > 0.0
    ensures Mix(high, low, w) == low + part
    ensures 0.0 <= part <= gap <==> 0.0 <= w <= 1.0
  {
    hide Mix;
    part := gap * w;
    MixIsPartWay(high, low, w);
  }

  lemma MixIsBetween(low: real, high: real, w: real)
    requires low < high
    ensures low <= Mix(high, low, w) <= high <==> 0.0 <= w <= 1.0
  {
    hide Mix;
    var part := PartWay(high, low, high - low, w);
  }

  /** The final score of two different scores lies between them exactly when the weight lies
      between 0 and 1; two equal scores, or a single one, give that score. */
  lemma FinalScoreIsBetween(ai: real, human: real, aiWeight: real)
    ensures FinalScore(Some(ai), None, aiWeight) == Some(ai) && FinalScore(None, Some(human), aiWeight) == Some(human)
    ensures ai == human ==> FinalScore(Some(ai), Some(human), aiWeight) == Some(ai)
    ensures FinalScore(Some(ai), Some(human), aiWeight) == Some(human + (ai - human) * aiWeight)
    ensures ai != human ==>
      (Between(FinalScore(Some(ai), Some(human), aiWeight).value, ai, human) <==> 0.0 <= aiWeight <= 1.0)
  {
    hide Mix;
    MixIsPartWay(ai, human, aiWeight);
    if ai == human {
    } else if human < ai {
      MixIsBetween(human, ai, aiWeight);
    } else {
      MixTurned(ai, human, aiWeight);
      MixIsBetween(ai, human, 1.0 - aiWeight);
    }
  }
}
