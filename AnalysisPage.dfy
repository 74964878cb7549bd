/**
 * The state logic of the analysis page, app/analysis/page.tsx: move
 * navigation and autoplay over the loaded game's history, the board position
 * that follows the selected move, the selected move's evaluation, the
 * request to analyse it, the colour of a move in the move table, the layout
 * of that table, and the tags shown from the PGN header.  The React state
 * setters become the fields of an `AnalysisPage` object; a history entry is
 * reduced to the position (FEN) after the move.
 */
module AnalysisPage {
  import opened JsText
  import opened UseStockfish

  datatype Orientation = White | Black

  // ---- navigation ----------------------------------------------------------------

  /** A selectable move index: -1 is the start position, 0..len-1 the moves. */
  predicate InRange(currentMove: int, len: nat) {
    -1 <= currentMove <= len - 1
  }

  /** `goToPrevMove`: `Math.max(-1, prev - 1)` */
  function PrevMove(prev: int): (r: int)
    ensures r >= -1
    ensures prev > -1 ==> r == prev - 1
  {
    if prev - 1 < -1 then -1 else prev - 1
  }

  /** `goToNextMove`: `Math.min(history.length - 1, prev + 1)` */
  function NextMove(prev: int, len: nat): (r: int)
    ensures r <= len - 1
    ensures prev < len - 1 ==> r == prev + 1
  {
    if len - 1 < prev + 1 then len - 1 else prev + 1
  }

  /** Every navigation keeps a selectable index selectable. */
  lemma NavigationStaysInRange(currentMove: int, len: nat)
    requires InRange(currentMove, len)
    ensures InRange(PrevMove(currentMove), len) && InRange(NextMove(currentMove, len), len)
    ensures InRange(-1, len) && InRange(len - 1, len)
  {
  }

  /** Stepping forward then back, or back then forward, returns to the same move. */
  lemma PrevAndNextAreInverse(currentMove: int, len: nat)
    requires InRange(currentMove, len)
    ensures currentMove < len - 1 ==> PrevMove(NextMove(currentMove, len)) == currentMove
    ensures currentMove > -1 ==> NextMove(PrevMove(currentMove), len) == currentMove
  {
  }

  /** The autoplay interval's state update: one move on, or stop at the last move. */
  function Tick(currentMove: int, isPlaying: bool, len: nat): (r: (int, bool))
    ensures currentMove >= len - 1 ==> r == (currentMove, false)
    ensures currentMove < len - 1 ==> r == (currentMove + 1, isPlaying)
  {
    if currentMove >= len - 1 then (currentMove, false) else (currentMove + 1, isPlaying)
  }

  /** `n` ticks of the autoplay interval. */
  function Ticks(currentMove: int, isPlaying: bool, len: nat, n: nat): (int, bool)
    decreases n
  {
    if n == 0 then (currentMove, isPlaying)
    else
      var (m, p) := Tick(currentMove, isPlaying, len);
      Ticks(m, p, len, n - 1)
  }

  /** Autoplay from a selectable move reaches the last move and the next tick stops it there. */
  lemma {:induction false} AutoplayReachesEnd(currentMove: int, len: nat)
    requires InRange(currentMove, len)
    ensures Ticks(currentMove, true, len, len - 1 - currentMove) == (len - 1, true)
    ensures Ticks(currentMove, true, len, len - currentMove) == (len - 1, false)
    decreases len - 1 - currentMove
  {
    if currentMove < len - 1 {
      AutoplayReachesEnd(currentMove + 1, len);
    }
  }

  /** The board position for the selected move (`useEffect` on `currentMove`). */
  function FenFor(currentMove: int, history: seq<string>, fen: string): (r: string)
    ensures 0 <= currentMove < |history| ==> r == history[currentMove]
    ensures currentMove == -1 ==> r == "start"
    ensures !InRange(currentMove, |history|) ==> r == fen
  {
    if 0 <= currentMove < |history| then history[currentMove]
    else if currentMove == -1 then "start"
    else fen
  }

  /** `currentEvaluation`: the selected move's evaluation, if any. */
  function CurrentEvaluation(currentMove: int, moveEvaluations: seq<Option<MoveEvaluation>>)
    : (r: Option<MoveEvaluation>)
    ensures 0 <= currentMove < |moveEvaluations| ==> r == moveEvaluations[currentMove]
    ensures !(0 <= currentMove < |moveEvaluations|) ==> r.None?
  {
    if 0 <= currentMove < |moveEvaluations| then moveEvaluations[currentMove] else None
  }

  /** The position handed to `analyzePosition` when the selection changes, if any. */
  function AnalysisRequest(currentMove: int, history: seq<string>, isReady: bool): (r: Option<string>)
    ensures r.Some? <==> 0 <= currentMove < |history| && isReady
    ensures r.Some? ==> r.value == FenFor(currentMove, history, "")
  {
    if currentMove >= 0 && currentMove < |history| && isReady then Some(history[currentMove]) else None
  }

  class AnalysisPage {
    var history: seq<string>
    var currentMove: int
    var isPlaying: bool
    var fen: string
    var moveEvaluations: seq<Option<MoveEvaluation>>
    var orientation: Orientation

    /** The page's initial state: start position, nothing selected, not playing. */
    constructor ()
      ensures history == [] && currentMove == -1 && !isPlaying && fen == "start"
      ensures moveEvaluations == [] && orientation == White
    {
      history := [];
      currentMove := -1;
      isPlaying := false;
      fen := "start";
      moveEvaluations := [];
      orientation := White;
    }

    /** `goToStart` */
    method GoToStart()
      modifies this
      ensures currentMove == -1
      ensures history == old(history) && isPlaying == old(isPlaying) && fen == old(fen)
      ensures moveEvaluations == old(moveEvaluations) && orientation == old(orientation)
    {
      currentMove := -1;
    }

    /** `goToEnd` */
    method GoToEnd()
      modifies this
      ensures currentMove == |history| - 1
      ensures history == old(history) && isPlaying == old(isPlaying) && fen == old(fen)
      ensures moveEvaluations == old(moveEvaluations) && orientation == old(orientation)
    {
      currentMove := |history| - 1;
    }

    /** `goToPrevMove` */
    method GoToPrevMove()
      modifies this
      ensures currentMove == PrevMove(old(currentMove))
      ensures history == old(history) && isPlaying == old(isPlaying) && fen == old(fen)
      ensures moveEvaluations == old(moveEvaluations) && orientation == old(orientation)
    {
      currentMove := if currentMove - 1 < -1 then -1 else currentMove - 1;
    }

    /** `goToNextMove` */
    method GoToNextMove()
      modifies this
      ensures currentMove == NextMove(old(currentMove), |history|)
      ensures history == old(history) && isPlaying == old(isPlaying) && fen == old(fen)
      ensures moveEvaluations == old(moveEvaluations) && orientation == old(orientation)
    {
      currentMove := if |history| - 1 < currentMove + 1 then |history| - 1 else currentMove + 1;
    }

    /** `goToMove(index)`: the index is taken as given. */
    method GoToMove(index: int)
      modifies this
      ensures currentMove == index
      ensures history == old(history) && isPlaying == old(isPlaying) && fen == old(fen)
      ensures moveEvaluations == old(moveEvaluations) && orientation == old(orientation)
    {
      currentMove := index;
    }

    /** `togglePlay` */
    method TogglePlay()
      modifies this
      ensures isPlaying == !old(isPlaying)
      ensures history == old(history) && currentMove == old(currentMove) && fen == old(fen)
      ensures moveEvaluations == old(moveEvaluations) && orientation == old(orientation)
    {
      isPlaying := !isPlaying;
    }

    /** `flipBoard` */
    method FlipBoard()
      modifies this
      ensures orientation == if old(orientation) == White then Black else White
      ensures history == old(history) && currentMove == old(currentMove) && fen == old(fen)
      ensures moveEvaluations == old(moveEvaluations) && isPlaying == old(isPlaying)
    {
      orientation := if orientation == White then Black else White;
    }

    /** One firing of the autoplay interval, which exists only while playing. */
    method AutoplayTick()
      requires isPlaying
      modifies this
      ensures (currentMove, isPlaying) == Tick(old(currentMove), old(isPlaying), |history|)
      ensures history == old(history) && fen == old(fen)
      ensures moveEvaluations == old(moveEvaluations) && orientation == old(orientation)
    {
      if currentMove >= |history| - 1 {
        isPlaying := false;
      } else {
        currentMove := currentMove + 1;
      }
    }

    /** The effect that moves the board to the selected position. */
    method SyncFen()
      modifies this
      ensures fen == FenFor(currentMove, history, old(fen))
      ensures history == old(history) && currentMove == old(currentMove) && isPlaying == old(isPlaying)
      ensures moveEvaluations == old(moveEvaluations) && orientation == old(orientation)
    {
      if currentMove >= 0 && currentMove < |history| {
        fen := history[currentMove];
      } else if currentMove == -1 {
        fen := "start";
      }
    }
  }

  // ---- move table ----------------------------------------------------------------

  /** The colour families of the move table. */
  datatype Tint = Green | Blue | Yellow | Red | Plain

  /** The `switch` of `getMoveItemClass`: the family of a classification. */
  function TintOf(evaluation: Option<MoveEvaluation>): (r: Tint)
    ensures evaluation.None? ==> r == Plain
  {
    match evaluation
    case None => Plain
    case Some(e) =>
      match e.kind
      case Brilliant => Green
      case Best => Green
      case Excellent => Blue
      case Okay => Blue
      case Inaccuracy => Yellow
      case Mistake => Red
      case Blunder => Red
      case Critical => Plain
      case Theory => Plain
  }

  /** The background class of each family. */
  function TintClass(tint: Tint): string {
    match tint
    case Green => "bg-green-100 dark:bg-green-900/30"
    case Blue => "bg-blue-100 dark:bg-blue-900/30"
    case Yellow => "bg-yellow-100 dark:bg-yellow-900/30"
    case Red => "bg-red-100 dark:bg-red-900/30"
    case Plain => ""
  }

  /** `bgColor` of a move with the given evaluation. */
  function BgColor(evaluation: Option<MoveEvaluation>): string {
    TintClass(TintOf(evaluation))
  }

  /** The background class determines the family: different families look different, and only the plain one has none. */
  lemma TintClassesDistinct(t1: Tint, t2: Tint)
    ensures TintClass(t1) == TintClass(t2) <==> t1 == t2
    ensures TintClass(t1) == "" <==> t1 == Plain
  {
    if t1 != t2 && t1 != Plain && t2 != Plain {
      assert TintClass(t1)[3] != TintClass(t2)[3];
    }
  }

  /** `getMoveItemClass(index)` */
  function MoveItemClass(index: int, currentMove: int, moveEvaluations: seq<Option<MoveEvaluation>>): (r: string)
    ensures StartsWith(r, "px-2 py-1 rounded cursor-pointer ")
    ensures currentMove == index ==> EndsWith(r, "bg-primary text-primary-foreground")
  {
    var evaluation := if 0 <= index < |moveEvaluations| then moveEvaluations[index] else None;
    "px-2 py-1 rounded cursor-pointer "
    + if currentMove == index then "bg-primary text-primary-foreground" else "hover:bg-accent " + BgColor(evaluation)
  }

  /** The selected move is highlighted whatever its classification; any other move shows its tint. */
  lemma SelectionOverridesTint(index: int, currentMove: int, evals1: seq<Option<MoveEvaluation>>,
                               evals2: seq<Option<MoveEvaluation>>)
    ensures currentMove == index ==> MoveItemClass(index, currentMove, evals1) == MoveItemClass(index, currentMove, evals2)
    ensures currentMove != index && 0 <= index < |evals1| ==>
              EndsWith(MoveItemClass(index, currentMove, evals1), BgColor(evals1[index]))
  {
  }

  /** The number of rows: `Math.ceil(history.length / 2)`. */
  function RowCount(len: nat): nat {
    (len + 1) / 2
  }

  function WhiteIndex(row: nat): nat {
    row * 2
  }

  function BlackIndex(row: nat): nat {
    row * 2 + 1
  }

  /** Each ply of the game appears in exactly one cell of the table, and every row has its white move. */
  lemma TableCoversHistory(len: nat, k: nat)
    ensures k < len ==> k / 2 < RowCount(len) && (if k % 2 == 0 then WhiteIndex(k / 2) else BlackIndex(k / 2)) == k
    ensures forall row: nat :: WhiteIndex(row) == k ==> row == k / 2 && k % 2 == 0
    ensures forall row: nat :: BlackIndex(row) == k ==> row == k / 2 && k % 2 == 1
    ensures k < RowCount(len) ==> WhiteIndex(k) < len && (BlackIndex(k) < len || (k == RowCount(len) - 1 && len % 2 == 1))
  {
  }

  // ---- header tags ---------------------------------------------------------------

  /** The tag shown for one PGN line: its key and value, or nothing. */
  function Tag(line: string): (r: Option<(string, string)>)
    ensures r.Some? <==> StartsWith(line, "[") && '"' in line
  {
    if StartsWith(line, "[") && '"' in line then
      var key := Substring(line, 1, IndexOf(line, ' '));
      var value := Substring(line, IndexOf(line, '"') + 1, LastIndexOf(line, '"'));
      Some((key, value))
    else None
  }

  /** The header tags shown: the tags of the first ten lines of the PGN text. */
  function HeaderTags(pgn: string): (r: seq<Option<(string, string)>>)
    ensures |r| == if |Split(pgn, '\n')| <= 10 then |Split(pgn, '\n')| else 10
    ensures forall i :: 0 <= i < |r| ==> r[i] == Tag(Split(pgn, '\n')[i])
  {
    var lines := Split(pgn, '\n');
    var shown := if |lines| <= 10 then lines else lines[..10];
    seq(|shown|, i requires 0 <= i < |shown| => Tag(shown[i]))
  }

  /** A tag line as PGN writes it. */
  function TagLine(key: string, value: string): string {
    ['['] + key + [' ', '"'] + value + ['"', ']']
  }

  lemma IndexOfAt(s: string, c: char, k: nat)
    requires k < |s| && s[k] == c && c !in s[..k]
    ensures IndexOf(s, c) == k
  {
  }

  lemma LastIndexOfAt(s: string, c: char, k: nat)
    requires k < |s| && s[k] == c && c !in s[k + 1..]
    ensures LastIndexOf(s, c) == k
  {
  }

  /** A tag line whose key has no space or quote and whose value has no quote reads back as its key and value. */
  lemma TagRoundTrip(key: string, value: string)
    requires ' ' !in key && '"' !in key && '"' !in value
    ensures Tag(TagLine(key, value)) == Some((key, value))
  {
    var line := TagLine(key, value);
    var sp, q1, q2 := |key| + 1, |key| + 2, |key| + 3 + |value|;
    TagLineLayout(key, value);
    assert ' ' !in line[..sp] && '"' !in line[..q1] && '"' !in line[q2 + 1..];
    IndexOfAt(line, ' ', sp);
    IndexOfAt(line, '"', q1);
    LastIndexOfAt(line, '"', q2);
  }

  /** Where the key, the space, the quotes and the value of a tag line sit. */
  lemma TagLineLayout(key: string, value: string)
    ensures var line := TagLine(key, value);
            var sp, q1, q2 := |key| + 1, |key| + 2, |key| + 3 + |value|;
            && |line| == q2 + 2 && line[0] == '['
            && line[..sp] == "[" + key && line[sp] == ' '
            && line[..q1] == "[" + key + " " && line[q1] == '"'
            && line[q1 + 1..q2] == value && line[q2] == '"' && line[q2 + 1..] == "]"
            && line[1..sp] == key
  {
  }

  /** A tag line without a space: `indexOf` gives -1, which `substring` swaps, so the key is `[`. */
  lemma KeyWithoutSpace(line: string)
    requires StartsWith(line, "[") && '"' in line && ' ' !in line
    ensures Tag(line).value.0 == "["
  {
  }

  /** The tags come from the first ten lines only: later lines do not change them. */
  lemma OnlyFirstTenLines(lines: seq<string>, more: seq<string>)
    requires |lines| >= 10 && forall l <- lines + more :: '\n' !in l
    ensures HeaderTags(Join(lines + more, '\n')) == HeaderTags(Join(lines, '\n'))
  {
    var all := lines + more;
    assert forall l <- lines :: l in all;
    SplitJoin(all, '\n');
    SplitJoin(lines, '\n');
    assert all[..10] == lines[..10];
    SameFirstTenLines(Join(all, '\n'), Join(lines, '\n'));
  }

  /** Two texts whose first ten lines agree show the same header tags. */
  lemma SameFirstTenLines(p: string, q: string)
    requires |Split(p, '\n')| >= 10 && |Split(q, '\n')| >= 10
    requires Split(p, '\n')[..10] == Split(q, '\n')[..10]
    ensures HeaderTags(p) == HeaderTags(q)
  {
    var a := HeaderTags(p);
    var b := HeaderTags(q);
    forall i | 0 <= i < 10
      ensures a[i] == b[i]
    {
      assert Split(p, '\n')[i] == Split(p, '\n')[..10][i];
    }
  }
}
