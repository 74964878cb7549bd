/**
 * The analysis hook of hooks/use-stockfish.ts: the move classifier
 * `evaluateMove`, the UCI `info` line parser `parseAnalysisInfo`, and the
 * hook's state (`isReady`, `isAnalyzing`, `currentAnalysis`, `error`) as an
 * object whose methods are the worker handlers, `analyzePosition` and
 * `stopAnalysis`.  Messages posted to the worker are recorded in order.
 */
module UseStockfish {
  import opened JsText

  // ---- evaluateMove ---------------------------------------------------------

  datatype MoveType =
    Brilliant | Critical | Best | Excellent | Okay | Inaccuracy | Mistake | Blunder | Theory

  datatype MoveEvaluation = MoveEvaluation(kind: MoveType, score: int, description: string, color: string)

  /** The text shown for each classification. */
  function Description(kind: MoveType): string {
    match kind
    case Brilliant => "Brilliant move! Finds the best continuation."
    case Best => "Best move in the position."
    case Excellent => "Excellent move. Very close to the best."
    case Okay => "Good move. Maintains a reasonable position."
    case Inaccuracy => "Inaccuracy. Not the most precise move."
    case Mistake => "Mistake. Gives opponent a significant advantage."
    case Critical => "Critical position. Precision required."
    case Blunder => "Blunder! Major mistake that loses material or position."
    case Theory => ""
  }

  /** The colour of each classification. */
  function Color(kind: MoveType): string {
    match kind
    case Brilliant => "#1e40af"
    case Best => "#059669"
    case Excellent => "#059669"
    case Okay => "#65a30d"
    case Inaccuracy => "#d97706"
    case Mistake => "#dc2626"
    case Critical => "#7c2d12"
    case Blunder => "#991b1b"
    case Theory => ""
  }

  /** A centipawn score seen from the side that moved (white keeps the sign, black flips it). */
  function Adjusted(score: int, isWhite: bool): int {
    if isWhite then score else -score
  }

  function Abs(x: int): nat {
    if x < 0 then -x else x
  }

  /**
   * The threshold chain of `evaluateMove` on perspective-adjusted scores:
   * the loss against the best move picks the band, and inside the outer
   * bands the gain over the previous position, or how decided the position
   * already was, refines it.
   */
  function Classify(adjustedBefore: int, adjustedAfter: int, adjustedBest: int): (kind: MoveType)
    ensures var loss := adjustedBest - adjustedAfter;
            && (kind == Brilliant || kind == Best <==> loss <= 10)
            && (kind == Excellent <==> 10 < loss <= 25)
            && (kind == Okay <==> 25 < loss <= 50)
            && (kind == Inaccuracy <==> 50 < loss <= 100)
            && (kind == Mistake <==> 100 < loss <= 250)
            && (kind == Critical || kind == Blunder <==> loss > 250)
            && (kind == Brilliant <==> loss <= 10 && adjustedAfter - adjustedBefore >= 100)
            && (kind == Critical <==> loss > 250 && (Abs(adjustedBefore) > 300 || Abs(adjustedAfter) > 300))
  {
    var scoreDiff := adjustedAfter - adjustedBefore;
    var lossFromBest := adjustedBest - adjustedAfter;
    if lossFromBest <= 10 then
      if scoreDiff >= 100 then Brilliant else Best
    else if lossFromBest <= 25 then Excellent
    else if lossFromBest <= 50 then Okay
    else if lossFromBest <= 100 then Inaccuracy
    else if lossFromBest <= 250 then Mistake
    else if Abs(adjustedBefore) > 300 || Abs(adjustedAfter) > 300 then Critical
    else Blunder
  }

  /**
   * `evaluateMove`: the classification of a move with its text and colour;
   * the score is the gain over the previous position, seen from the mover.
   */
  function EvaluateMove(beforeScore: int, afterScore: int, isWhite: bool, bestMoveScore: int): (r: MoveEvaluation)
    ensures r.score == Adjusted(afterScore, isWhite) - Adjusted(beforeScore, isWhite)
    ensures r.kind != Theory
    ensures r.description == Description(r.kind) && r.color == Color(r.kind)
  {
    var adjustedBefore := Adjusted(beforeScore, isWhite);
    var adjustedAfter := Adjusted(afterScore, isWhite);
    var adjustedBest := Adjusted(bestMoveScore, isWhite);
    var kind := Classify(adjustedBefore, adjustedAfter, adjustedBest);
    MoveEvaluation(kind, adjustedAfter - adjustedBefore, Description(kind), Color(kind))
  }

  /** The centipawns lost against the best move select the band. */
  lemma LossBands(beforeScore: int, afterScore: int, isWhite: bool, bestMoveScore: int)
    ensures var loss := Adjusted(bestMoveScore, isWhite) - Adjusted(afterScore, isWhite);
            var r := EvaluateMove(beforeScore, afterScore, isWhite, bestMoveScore);
            && (r.kind == Brilliant || r.kind == Best <==> loss <= 10)
            && (r.kind == Excellent <==> 10 < loss <= 25)
            && (r.kind == Okay <==> 25 < loss <= 50)
            && (r.kind == Inaccuracy <==> 50 < loss <= 100)
            && (r.kind == Mistake <==> 100 < loss <= 250)
            && (r.kind == Critical || r.kind == Blunder <==> loss > 250)
  {
    KindIsClassified(beforeScore, afterScore, isWhite, bestMoveScore);
  }

  lemma KindIsClassified(beforeScore: int, afterScore: int, isWhite: bool, bestMoveScore: int)
    ensures EvaluateMove(beforeScore, afterScore, isWhite, bestMoveScore).kind
            == Classify(Adjusted(beforeScore, isWhite), Adjusted(afterScore, isWhite), Adjusted(bestMoveScore, isWhite))
  {
  }

  /**
   * Inside the two outer bands the gain over the previous position decides:
   * brilliant is a best move that gains at least a pawn, critical is a
   * blunder-sized loss in a position already decided by more than three pawns.
   */
  lemma BrilliantAndCritical(beforeScore: int, afterScore: int, isWhite: bool, bestMoveScore: int)
    ensures var before := Adjusted(beforeScore, isWhite);
            var after := Adjusted(afterScore, isWhite);
            var loss := Adjusted(bestMoveScore, isWhite) - after;
            var r := EvaluateMove(beforeScore, afterScore, isWhite, bestMoveScore);
            && (r.kind == Brilliant <==> loss <= 10 && after - before >= 100)
            && (r.kind == Critical <==> loss > 250 && (Abs(before) > 300 || Abs(after) > 300))
  {
    KindIsClassified(beforeScore, afterScore, isWhite, bestMoveScore);
  }

  /** Black's move is judged as white's move would be on the negated scores. */
  lemma SideSymmetry(beforeScore: int, afterScore: int, bestMoveScore: int)
    ensures EvaluateMove(beforeScore, afterScore, false, bestMoveScore)
            == EvaluateMove(-beforeScore, -afterScore, true, -bestMoveScore)
  {
    assert Adjusted(beforeScore, false) == Adjusted(-beforeScore, true);
    assert Adjusted(afterScore, false) == Adjusted(-afterScore, true);
    assert Adjusted(bestMoveScore, false) == Adjusted(-bestMoveScore, true);
  }

  /** A larger loss never gives a better band: the bands are ordered by the loss. */
  function Band(kind: MoveType): nat {
    match kind
    case Brilliant => 0
    case Best => 0
    case Excellent => 1
    case Okay => 2
    case Inaccuracy => 3
    case Mistake => 4
    case Critical => 5
    case Blunder => 5
    case Theory => 6
  }

  lemma BandMonotone(before: int, after: int, isWhite: bool, best1: int, best2: int)
    requires Adjusted(best1, isWhite) <= Adjusted(best2, isWhite)
    ensures Band(EvaluateMove(before, after, isWhite, best1).kind)
            <= Band(EvaluateMove(before, after, isWhite, best2).kind)
  {
    KindIsClassified(before, after, isWhite, best1);
    KindIsClassified(before, after, isWhite, best2);
  }

  // ---- parseAnalysisInfo ------------------------------------------------------

  datatype ScoreType = Cp | Mate

  /**
   * The snapshot `parseAnalysisInfo` returns.  Fields the line did not
   * mention stay `None`, as they stay undefined in the source; `bestMove` is
   * only ever filled in later, from a `bestmove` line.
   */
  datatype AnalysisResult = AnalysisResult(
    depth: Num,
    score: Num,
    scoreType: ScoreType,
    bestMove: Option<string>,
    pv: Option<seq<string>>,
    nodes: Option<Num>,
    nps: Option<Num>,
    time: Option<Num>)

  /** `parts[i]`, or `None` (undefined) past either end. */
  function TokenAt(parts: seq<string>, i: int): Option<string> {
    if 0 <= i < |parts| then Some(parts[i]) else None
  }

  /** The last position before `n` holding the keyword `k`. */
  function LastKeyword(parts: seq<string>, k: string, n: nat): (r: Option<nat>)
    requires n <= |parts|
    ensures r.Some? ==> r.value < n && parts[r.value] == k
  {
    if n == 0 then None
    else if parts[n - 1] == k then Some(n - 1)
    else LastKeyword(parts, k, n - 1)
  }

  /** `LastKeyword` finds the keyword's last position, and finds none exactly when it does not occur. */
  lemma {:induction false} LastKeywordIsLast(parts: seq<string>, k: string, n: nat)
    requires n <= |parts|
    ensures var r := LastKeyword(parts, k, n);
            && (r.None? <==> forall j :: 0 <= j < n ==> parts[j] != k)
            && (r.Some? ==> r.value < n && parts[r.value] == k
                            && forall j :: r.value < j < n ==> parts[j] != k)
  {
    if n > 0 && parts[n - 1] != k {
      LastKeywordIsLast(parts, k, n - 1);
    }
  }

  /** A `score` token followed by a `cp` or `mate` tag. */
  predicate IsScorePair(parts: seq<string>, j: nat) {
    j < |parts| && parts[j] == "score" && (TokenAt(parts, j + 1) == Some("cp") || TokenAt(parts, j + 1) == Some("mate"))
  }

  /** The last position before `n` holding a complete `score cp|mate` pair. */
  function LastScore(parts: seq<string>, n: nat): (r: Option<nat>)
    requires n <= |parts|
    ensures r.Some? ==> r.value < n && IsScorePair(parts, r.value)
  {
    if n == 0 then None
    else if IsScorePair(parts, n - 1) then Some(n - 1)
    else LastScore(parts, n - 1)
  }

  /** `LastScore` finds the last complete pair, and finds none exactly when there is none. */
  lemma {:induction false} LastScoreIsLast(parts: seq<string>, n: nat)
    requires n <= |parts|
    ensures var r := LastScore(parts, n);
            && (r.None? <==> forall j :: 0 <= j < n ==> !IsScorePair(parts, j))
            && (r.Some? ==> r.value < n && IsScorePair(parts, r.value)
                            && forall j :: r.value < j < n ==> !IsScorePair(parts, j))
  {
    if n > 0 && !IsScorePair(parts, n - 1) {
      LastScoreIsLast(parts, n - 1);
    }
  }

  /**
   * The token after the last `k` before `n`: `None` when there is no such
   * `k`, `Some(None)` when that `k` is the last token of the line.
   */
  function TokenAfter(parts: seq<string>, k: string, n: nat): Option<Option<string>>
    requires n <= |parts|
  {
    match LastKeyword(parts, k, n)
    case None => None
    case Some(i) => Some(TokenAt(parts, i + 1))
  }

  /** The tag and the number token of the last complete `score` pair before `n`. */
  function ScoreTokens(parts: seq<string>, n: nat): Option<(ScoreType, Option<string>)>
    requires n <= |parts|
  {
    match LastScore(parts, n)
    case None => None
    case Some(i) => Some((if parts[i + 1] == "cp" then Cp else Mate, TokenAt(parts, i + 2)))
  }

  function PvAfter(parts: seq<string>, n: nat): Option<seq<string>>
    requires n <= |parts|
  {
    match LastKeyword(parts, "pv", n)
    case None => None
    case Some(i) => Some(parts[i + 1..])
  }

  /** `parseInt` applied to a token that was found, if one was. */
  function Parsed(token: Option<Option<string>>): Option<Num> {
    match token
    case None => None
    case Some(t) => Some(ParseIntToken(t))
  }

  lemma LastKeywordStep(parts: seq<string>, k: string, i: nat)
    requires i < |parts|
    ensures LastKeyword(parts, k, i + 1) == if parts[i] == k then Some(i) else LastKeyword(parts, k, i)
  {
  }

  lemma TokenAfterStep(parts: seq<string>, k: string, i: nat)
    requires i < |parts|
    ensures TokenAfter(parts, k, i + 1) == if parts[i] == k then Some(TokenAt(parts, i + 1)) else TokenAfter(parts, k, i)
  {
    LastKeywordStep(parts, k, i);
  }

  lemma ScoreTokensStep(parts: seq<string>, i: nat)
    requires i < |parts|
    ensures ScoreTokens(parts, i + 1)
            == if IsScorePair(parts, i)
               then Some((if parts[i + 1] == "cp" then Cp else Mate, TokenAt(parts, i + 2)))
               else ScoreTokens(parts, i)
  {
    if IsScorePair(parts, i) {
      assert LastScore(parts, i + 1) == Some(i);
    } else {
      assert LastScore(parts, i + 1) == LastScore(parts, i);
    }
  }

  lemma PvAfterStep(parts: seq<string>, i: nat)
    requires i < |parts|
    ensures PvAfter(parts, i + 1) == if parts[i] == "pv" then Some(parts[i + 1..]) else PvAfter(parts, i)
  {
  }

  /**
   * What an `info` line states: every keyword's value comes from its last
   * occurrence, and a snapshot exists only when both a depth and a score
   * were stated.
   */
  function Snapshot(parts: seq<string>): Option<AnalysisResult> {
    var n := |parts|;
    var depth := TokenAfter(parts, "depth", n);
    var score := ScoreTokens(parts, n);
    if depth.Some? && score.Some? then
      Some(AnalysisResult(ParseIntToken(depth.value), ParseIntToken(score.value.1), score.value.0, None,
                          PvAfter(parts, n), Parsed(TokenAfter(parts, "nodes", n)),
                          Parsed(TokenAfter(parts, "nps", n)), Parsed(TokenAfter(parts, "time", n))))
    else None
  }

  /** The keywords `parseAnalysisInfo` looks for are pairwise different tokens. */
  lemma KeywordsDistinct()
    ensures "depth" != "score" && "depth" != "nodes" && "depth" != "nps" && "depth" != "time" && "depth" != "pv"
    ensures "score" != "nodes" && "score" != "nps" && "score" != "time" && "score" != "pv"
    ensures "nodes" != "nps" && "nodes" != "time" && "nodes" != "pv"
    ensures "nps" != "time" && "nps" != "pv" && "time" != "pv"
  {
    assert "depth"[0] != "score"[0] && "depth"[0] != "nodes"[0];
    assert "score"[0] != "nodes"[0];
  }

  /** The tokens the values of `parseAnalysisInfo` come from, as far as the line has been read. */
  datatype Seen = Seen(
    depth: Option<Option<string>>,
    score: Option<(ScoreType, Option<string>)>,
    nodes: Option<Option<string>>,
    nps: Option<Option<string>>,
    time: Option<Option<string>>,
    pv: Option<seq<string>>)

  /** What the first `n` tokens state, keyword by keyword, each from its last occurrence. */
  ghost function SeenIn(parts: seq<string>, n: nat): Seen
    requires n <= |parts|
  {
    Seen(TokenAfter(parts, "depth", n), ScoreTokens(parts, n), TokenAfter(parts, "nodes", n),
         TokenAfter(parts, "nps", n), TokenAfter(parts, "time", n), PvAfter(parts, n))
  }

  /** Reading token `i`: the branch chain of the loop of `parseAnalysisInfo`, on tokens. */
  ghost function Observe(seen: Seen, parts: seq<string>, i: nat): Seen
    requires i < |parts|
  {
    var next := TokenAt(parts, i + 1);
    if parts[i] == "depth" then seen.(depth := Some(next))
    else if parts[i] == "score" then
      if next == Some("cp") then seen.(score := Some((Cp, TokenAt(parts, i + 2))))
      else if next == Some("mate") then seen.(score := Some((Mate, TokenAt(parts, i + 2))))
      else seen
    else if parts[i] == "nodes" then seen.(nodes := Some(next))
    else if parts[i] == "nps" then seen.(nps := Some(next))
    else if parts[i] == "time" then seen.(time := Some(next))
    else if parts[i] == "pv" then seen.(pv := Some(parts[i + 1..]))
    else seen
  }

  /** Reading the tokens one by one in the loop's way keeps track of every last occurrence. */
  lemma ObserveStep(parts: seq<string>, i: nat)
    requires i < |parts|
    ensures SeenIn(parts, i + 1) == Observe(SeenIn(parts, i), parts, i)
  {
    KeywordsDistinct();
    TokenAfterStep(parts, "depth", i);
    TokenAfterStep(parts, "nodes", i);
    TokenAfterStep(parts, "nps", i);
    TokenAfterStep(parts, "time", i);
    ScoreTokensStep(parts, i);
    PvAfterStep(parts, i);
  }

  /** `parseAnalysisInfo`: one pass over the space-separated tokens. */
  method ParseAnalysisInfo(info: string) returns (r: Option<AnalysisResult>)
    ensures r == Snapshot(Split(info, ' '))
  {
    var parts := Split(info, ' ');
    var depth: Option<Num> := None;
    var score: Option<Num> := None;
    var scoreType: Option<ScoreType> := None;
    var nodes: Option<Num> := None;
    var nps: Option<Num> := None;
    var time: Option<Num> := None;
    var pv: Option<seq<string>> := None;
    // the tokens the values above were parsed from
    ghost var seen := Seen(None, None, None, None, None, None);
    var i := 0;
    while i < |parts|
      invariant 0 <= i <= |parts|
      invariant seen == SeenIn(parts, i)
      invariant depth == Parsed(seen.depth) && nodes == Parsed(seen.nodes)
      invariant nps == Parsed(seen.nps) && time == Parsed(seen.time) && pv == seen.pv
      invariant scoreType == (if seen.score.Some? then Some(seen.score.value.0) else None)
      invariant score == (if seen.score.Some? then Some(ParseIntToken(seen.score.value.1)) else None)
    {
      ObserveStep(parts, i);
      seen := Observe(seen, parts, i);
      var next := TokenAt(parts, i + 1);
      if parts[i] == "depth" {
        depth := Some(ParseIntToken(next));
      } else if parts[i] == "score" {
        if next == Some("cp") {
          scoreType := Some(Cp);
          score := Some(ParseIntToken(TokenAt(parts, i + 2)));
        } else if next == Some("mate") {
          scoreType := Some(Mate);
          score := Some(ParseIntToken(TokenAt(parts, i + 2)));
        }
      } else if parts[i] == "nodes" {
        nodes := Some(ParseIntToken(next));
      } else if parts[i] == "nps" {
        nps := Some(ParseIntToken(next));
      } else if parts[i] == "time" {
        time := Some(ParseIntToken(next));
      } else if parts[i] == "pv" {
        pv := Some(parts[i + 1..]);
      }
      i := i + 1;
    }
    if depth.Some? && score.Some? {
      r := Some(AnalysisResult(depth.value, score.value, scoreType.value, None, pv, nodes, nps, time));
    } else {
      r := None;
    }
  }

  /** A snapshot exists exactly when the line holds a `depth` keyword and a `score cp|mate` pair. */
  lemma SnapshotExists(parts: seq<string>)
    ensures Snapshot(parts).Some?
            <==> (exists j :: 0 <= j < |parts| && parts[j] == "depth")
                 && (exists j :: 0 <= j < |parts| && IsScorePair(parts, j))
  {
    LastKeywordIsLast(parts, "depth", |parts|);
    LastScoreIsLast(parts, |parts|);
  }

  /**
   * The principal variation is everything after the last `pv` token, and
   * the depth is the number after the last `depth` token.
   */
  lemma LastOccurrenceWins(parts: seq<string>, d: nat, p: nat)
    requires d < |parts| && parts[d] == "depth" && forall j :: d < j < |parts| ==> parts[j] != "depth"
    requires p < |parts| && parts[p] == "pv" && forall j :: p < j < |parts| ==> parts[j] != "pv"
    requires Snapshot(parts).Some?
    ensures Snapshot(parts).value.depth == ParseIntToken(TokenAt(parts, d + 1))
    ensures Snapshot(parts).value.pv == Some(parts[p + 1..])
  {
    LastKeywordAt(parts, "depth", d);
    LastKeywordAt(parts, "pv", p);
  }

  lemma LastKeywordAt(parts: seq<string>, k: string, i: nat)
    requires i < |parts| && parts[i] == k && forall j :: i < j < |parts| ==> parts[j] != k
    ensures LastKeyword(parts, k, |parts|) == Some(i)
  {
    LastKeywordIsLast(parts, k, |parts|);
  }

  // ---- the hook's state machine ---------------------------------------------

  /** What the hook posts to its worker. */
  datatype WorkerMessage = Init | Command(command: string) | Analyze(fen: string, depth: int) | StopSearch

  /** What the worker posts back (`e.data`), by its `type`. */
  datatype WorkerEvent =
    | ReadyEvent
    | MessageEvent(data: string)
    | ErrorEvent(error: Option<string>)
    | OtherEvent

  /** Which branch of `handleStockfishMessage` a line of engine output takes. */
  datatype LineKind = UciOk | ReadyOk | InfoLine | BestmoveLine | OtherLine

  /** The branch chain of `handleStockfishMessage`: the first test the line passes decides. */
  function KindOf(message: string): LineKind {
    if Contains(message, "uciok") then UciOk
    else if Contains(message, "readyok") then ReadyOk
    else if StartsWith(message, "info") then InfoLine
    else if StartsWith(message, "bestmove") then BestmoveLine
    else OtherLine
  }

  class StockfishHook {
    var hasWorker: bool
    var isReady: bool
    var isAnalyzing: bool
    var currentAnalysis: Option<AnalysisResult>
    var error: Option<string>
    var posted: seq<WorkerMessage>

    /** A search runs only on a ready engine, and only a live worker is ever ready. */
    predicate Valid()
      reads this
    {
      (isAnalyzing ==> isReady) && (isReady ==> hasWorker) && (!hasWorker ==> posted == [])
    }

    /**
     * Mounting: the worker is created and sent `init`; when the constructor
     * throws (`created` false) only the error is recorded.
     */
    constructor (created: bool, failure: string)
      ensures Valid()
      ensures hasWorker == created && !isReady && !isAnalyzing && currentAnalysis == None
      ensures created ==> error == None && posted == [Init]
      ensures !created ==> error == Some("Failed to create worker: " + failure) && posted == []
    {
      hasWorker := created;
      isReady := false;
      isAnalyzing := false;
      currentAnalysis := None;
      if created {
        error := None;
        posted := [Init];
      } else {
        error := Some("Failed to create worker: " + failure);
        posted := [];
      }
    }

    /**
     * The change `handleStockfishMessage(message)` makes: `uciok` posts
     * `isready`, `readyok` sets ready, an `info` line replaces the snapshot
     * when it parses, and `bestmove` ends the search and records its move on
     * the current snapshot; the error and the worker are never touched.
     */
    twostate predicate AfterMessage(message: string)
      reads this
    {
      && hasWorker == old(hasWorker) && error == old(error)
      && match KindOf(message)
         case UciOk =>
           posted == old(posted) + [Command("isready")] && isReady == old(isReady)
           && isAnalyzing == old(isAnalyzing) && currentAnalysis == old(currentAnalysis)
         case ReadyOk =>
           isReady && posted == old(posted) && isAnalyzing == old(isAnalyzing)
           && currentAnalysis == old(currentAnalysis)
         case InfoLine =>
           posted == old(posted) && isReady == old(isReady) && isAnalyzing == old(isAnalyzing)
           && var snap := Snapshot(Split(message, ' '));
              currentAnalysis == if snap.Some? then snap else old(currentAnalysis)
         case BestmoveLine =>
           posted == old(posted) && isReady == old(isReady) && !isAnalyzing
           && currentAnalysis
              == if old(currentAnalysis).Some?
                 then Some(old(currentAnalysis).value.(bestMove := TokenAt(Split(message, ' '), 1)))
                 else None
         case OtherLine =>
           posted == old(posted) && isReady == old(isReady) && isAnalyzing == old(isAnalyzing)
           && currentAnalysis == old(currentAnalysis)
    }

    /** `handleStockfishMessage`: one line of engine output. */
    method HandleMessage(message: string)
      requires Valid() && hasWorker
      modifies this
      ensures Valid() && AfterMessage(message)
    {
      match KindOf(message)
      case UciOk =>
        posted := posted + [Command("isready")];
      case ReadyOk =>
        isReady := true;
      case InfoLine =>
        var analysis := ParseAnalysisInfo(message);
        if analysis.Some? {
          currentAnalysis := analysis;
        }
      case BestmoveLine =>
        isAnalyzing := false;
        var bestMove := TokenAt(Split(message, ' '), 1);
        if currentAnalysis.Some? {
          currentAnalysis := Some(currentAnalysis.value.(bestMove := bestMove));
        }
      case OtherLine =>
    }

    /** The worker's `onmessage` switch on the notice's type. */
    method OnWorkerEvent(event: WorkerEvent)
      requires Valid() && hasWorker
      modifies this
      ensures Valid() && hasWorker
      ensures event.ReadyEvent? ==>
                isReady && error == None && posted == old(posted) + [Command("uci")]
                && isAnalyzing == old(isAnalyzing) && currentAnalysis == old(currentAnalysis)
      ensures event.ErrorEvent? ==>
                error == event.error && !isAnalyzing && isReady == old(isReady)
                && posted == old(posted) && currentAnalysis == old(currentAnalysis)
      ensures event.MessageEvent? ==> AfterMessage(event.data)
      ensures event.OtherEvent? ==>
                isReady == old(isReady) && isAnalyzing == old(isAnalyzing) && error == old(error)
                && posted == old(posted) && currentAnalysis == old(currentAnalysis)
    {
      match event
      case ReadyEvent =>
        isReady := true;
        error := None;
        posted := posted + [Command("uci")];
      case MessageEvent(data) =>
        HandleMessage(data);
      case ErrorEvent(e) =>
        error := e;
        isAnalyzing := false;
      case OtherEvent =>
    }

    /** The worker's `onerror` handler. */
    method OnWorkerError(message: string)
      requires Valid() && hasWorker
      modifies this
      ensures Valid() && hasWorker
      ensures error == Some("Worker error: " + message) && !isAnalyzing
      ensures isReady == old(isReady) && posted == old(posted) && currentAnalysis == old(currentAnalysis)
    {
      error := Some("Worker error: " + message);
      isAnalyzing := false;
    }

    /** `analyzePosition(fen, depth = 15)` */
    method AnalyzePosition(fen: string, depth: Option<int>)
      requires Valid()
      modifies this
      ensures Valid()
      ensures hasWorker == old(hasWorker) && isReady == old(isReady)
      ensures !(hasWorker && isReady) ==>
                error == Some("Stockfish not ready") && isAnalyzing == old(isAnalyzing)
                && currentAnalysis == old(currentAnalysis) && posted == old(posted)
      ensures hasWorker && isReady ==>
                isAnalyzing && error == None && currentAnalysis == None
                && posted == old(posted) + [Analyze(fen, if depth.Some? then depth.value else 15)]
    {
      if !hasWorker || !isReady {
        error := Some("Stockfish not ready");
        return;
      }
      isAnalyzing := true;
      error := None;
      currentAnalysis := None;
      posted := posted + [Analyze(fen, if depth.Some? then depth.value else 15)];
    }

    /** `stopAnalysis`: only a running search is stopped. */
    method StopAnalysis()
      requires Valid()
      modifies this
      ensures Valid()
      ensures !isAnalyzing
      ensures hasWorker == old(hasWorker) && isReady == old(isReady) && error == old(error)
      ensures currentAnalysis == old(currentAnalysis)
      ensures posted == old(posted) + (if old(isAnalyzing) then [StopSearch] else [])
    {
      if hasWorker && isAnalyzing {
        posted := posted + [StopSearch];
        isAnalyzing := false;
      }
    }
  }
}
