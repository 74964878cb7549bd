/**
 * The arithmetic of components/game-evaluation-chart.tsx: the height and
 * colour of one evaluation bar, the per-type move statistics, the number of
 * evaluated moves, the accuracy numerator and the move number shown in a
 * bar's title.  Heights are `real`: the chart's floating-point division is
 * idealised as exact.
 */
module GameEvaluationChart {
  import opened JsText
  import opened UseStockfish

  const MaxHeight: real := 100.0
  const CenterLine: real := MaxHeight / 2.0

  /** `Math.max(lo, Math.min(hi, x))` */
  function Clamp(lo: int, hi: int, x: int): (r: int)
    requires lo <= hi
    ensures lo <= r <= hi
    ensures lo <= x <= hi ==> r == x
    ensures x < lo ==> r == lo
    ensures x > hi ==> r == hi
  {
    if x < lo then lo else if x > hi then hi else x
  }

  /** `getBarHeight`: scores beyond 300 centipawns either way fill the bar. */
  function BarHeight(evaluation: Option<MoveEvaluation>): (r: real)
    ensures 0.0 <= r <= MaxHeight
    ensures evaluation.None? ==> r == CenterLine
  {
    match evaluation
    case None => CenterLine
    case Some(e) =>
      var clampedScore := Clamp(-300, 300, e.score);
      var normalizedScore := clampedScore as real / 300.0;
      CenterLine - normalizedScore * CenterLine
  }

  /** An even position sits on the centre line. */
  lemma BarHeightOfEvenScore(e: MoveEvaluation)
    requires e.score == 0
    ensures BarHeight(Some(e)) == CenterLine
  {
  }

  /** Scores at or beyond the clamp saturate at the top or the bottom of the bar. */
  lemma BarHeightSaturates(e: MoveEvaluation)
    ensures e.score >= 300 ==> BarHeight(Some(e)) == 0.0
    ensures e.score <= -300 ==> BarHeight(Some(e)) == MaxHeight
  {
  }

  /** A better score never gives a taller bar height. */
  lemma BarHeightNonIncreasing(e1: MoveEvaluation, e2: MoveEvaluation)
    requires e1.score <= e2.score
    ensures BarHeight(Some(e2)) <= BarHeight(Some(e1))
  {
    var c1 := Clamp(-300, 300, e1.score);
    var c2 := Clamp(-300, 300, e2.score);
    assert c1 <= c2;
    assert c1 as real / 300.0 <= c2 as real / 300.0;
  }

  /** `getBarColor`: a missing evaluation is grey, otherwise the classification's colour. */
  function BarColor(evaluation: Option<MoveEvaluation>): (r: string)
    ensures evaluation.None? ==> r == "#6b7280"
    ensures evaluation.Some? ==> r == evaluation.value.color
  {
    match evaluation
    case None => "#6b7280"
    case Some(e) => e.color
  }

  /** A bar for an evaluation made by `evaluateMove` has the colour of its classification. */
  lemma BarColorOfClassification(beforeScore: int, afterScore: int, isWhite: bool, bestMoveScore: int)
    ensures var e := EvaluateMove(beforeScore, afterScore, isWhite, bestMoveScore);
            BarColor(Some(e)) == Color(e.kind) && BarColor(Some(e)) != "#6b7280"
  {
    var e := EvaluateMove(beforeScore, afterScore, isWhite, bestMoveScore);
    assert e.color == Color(e.kind);
    assert e.kind != Theory;
  }

  // ---- statistics -------------------------------------------------------------

  /** The number of non-null evaluations whose type is `t`. */
  function CountOf(evaluations: seq<Option<MoveEvaluation>>, t: MoveType): (r: nat)
    ensures r <= |evaluations|
  {
    if evaluations == [] then 0
    else
      var last := evaluations[|evaluations| - 1];
      CountOf(evaluations[..|evaluations| - 1], t) + if last.Some? && last.value.kind == t then 1 else 0
  }

  /** `totalMoves`: the number of non-null evaluations. */
  function TotalMoves(evaluations: seq<Option<MoveEvaluation>>): (r: nat)
    ensures r <= |evaluations|
  {
    if evaluations == [] then 0
    else
      TotalMoves(evaluations[..|evaluations| - 1]) + if evaluations[|evaluations| - 1].Some? then 1 else 0
  }

  /** The nine keys of the statistics record. */
  const AllTypes: set<MoveType> :=
    {Brilliant, Critical, Best, Excellent, Okay, Inaccuracy, Mistake, Blunder, Theory}

  lemma EveryTypeIsAKey(t: MoveType)
    ensures t in AllTypes
  {
    match t
    case Brilliant =>
    case Critical =>
    case Best =>
    case Excellent =>
    case Okay =>
    case Inaccuracy =>
    case Mistake =>
    case Blunder =>
    case Theory =>
  }

  /** One more evaluation bumps the count of its own type and no other. */
  lemma CountOfStep(evaluations: seq<Option<MoveEvaluation>>, i: nat, t: MoveType)
    requires i < |evaluations|
    ensures CountOf(evaluations[..i + 1], t)
            == CountOf(evaluations[..i], t) + if evaluations[i].Some? && evaluations[i].value.kind == t then 1 else 0
  {
    assert evaluations[..i + 1][..i] == evaluations[..i];
  }

  /** `stats` holds, for every type, the count of that type among `evaluations`. */
  predicate Tallied(stats: map<MoveType, nat>, evaluations: seq<Option<MoveEvaluation>>) {
    stats.Keys == AllTypes && forall t <- AllTypes :: stats[t] == CountOf(evaluations, t)
  }

  /** The record every tally starts from. */
  lemma ZeroTally(evaluations: seq<Option<MoveEvaluation>>)
    ensures Tallied(map[Brilliant := 0, Critical := 0, Best := 0, Excellent := 0, Okay := 0,
                        Inaccuracy := 0, Mistake := 0, Blunder := 0, Theory := 0], evaluations[..0])
  {
    assert evaluations[..0] == [];
  }

  /** One turn of the `forEach` keeps the tally. */
  lemma TallyStep(stats: map<MoveType, nat>, evaluations: seq<Option<MoveEvaluation>>, i: nat)
    requires i < |evaluations| && Tallied(stats, evaluations[..i])
    ensures evaluations[i].Some? ==> evaluations[i].value.kind in stats
    ensures Tallied(if evaluations[i].Some?
                    then stats[evaluations[i].value.kind := stats[evaluations[i].value.kind] + 1]
                    else stats, evaluations[..i + 1])
  {
    forall t | t in AllTypes {
      CountOfStep(evaluations, i, t);
    }
    if evaluations[i].Some? {
      EveryTypeIsAKey(evaluations[i].value.kind);
    }
  }

  /** `getMoveTypeStats`: every type starts at zero and each non-null evaluation bumps its own. */
  method GetMoveTypeStats(evaluations: seq<Option<MoveEvaluation>>) returns (stats: map<MoveType, nat>)
    ensures Tallied(stats, evaluations)
  {
    stats := map[Brilliant := 0, Critical := 0, Best := 0, Excellent := 0, Okay := 0,
                 Inaccuracy := 0, Mistake := 0, Blunder := 0, Theory := 0];
    ZeroTally(evaluations);
    var i := 0;
    while i < |evaluations|
      invariant 0 <= i <= |evaluations|
      invariant Tallied(stats, evaluations[..i])
    {
      TallyStep(stats, evaluations, i);
      var evaluation := evaluations[i];
      if evaluation.Some? {
        stats := stats[evaluation.value.kind := stats[evaluation.value.kind] + 1];
      }
      i := i + 1;
    }
    assert evaluations[..i] == evaluations;
  }

  /** The sum of the nine counts. */
  function SumOfCounts(evaluations: seq<Option<MoveEvaluation>>): nat {
    CountOf(evaluations, Brilliant) + CountOf(evaluations, Critical) + CountOf(evaluations, Best)
    + CountOf(evaluations, Excellent) + CountOf(evaluations, Okay) + CountOf(evaluations, Inaccuracy)
    + CountOf(evaluations, Mistake) + CountOf(evaluations, Blunder) + CountOf(evaluations, Theory)
  }

  /** The counts add up to `totalMoves`: every non-null evaluation is counted under exactly one type. */
  lemma {:induction false} CountsSumToTotal(evaluations: seq<Option<MoveEvaluation>>)
    ensures SumOfCounts(evaluations) == TotalMoves(evaluations)
    decreases |evaluations|
  {
    if evaluations != [] {
      CountsSumToTotal(evaluations[..|evaluations| - 1]);
    }
  }

  /** The accuracy numerator: brilliant, best, excellent and okay moves. */
  function AccurateMoves(evaluations: seq<Option<MoveEvaluation>>): nat {
    CountOf(evaluations, Brilliant) + CountOf(evaluations, Best)
    + CountOf(evaluations, Excellent) + CountOf(evaluations, Okay)
  }

  /** The accuracy numerator never exceeds `totalMoves`, so the percentage is at most 100. */
  lemma AccuracyAtMostTotal(evaluations: seq<Option<MoveEvaluation>>)
    ensures AccurateMoves(evaluations) <= TotalMoves(evaluations)
  {
    CountsSumToTotal(evaluations);
  }

  /** The move number in the title of the bar at `index`: two plies per move, counted from 1. */
  function MoveNumber(index: nat): (r: nat)
    ensures r >= 1
    ensures 2 * (r - 1) <= index < 2 * r
  {
    index / 2 + 1
  }

  /** The two plies of one move share a number, and the next ply starts the next move. */
  lemma MoveNumberPairs(k: nat)
    ensures MoveNumber(2 * k) == MoveNumber(2 * k + 1) == k + 1
    ensures MoveNumber(2 * k + 2) == MoveNumber(2 * k) + 1
  {
  }
}
