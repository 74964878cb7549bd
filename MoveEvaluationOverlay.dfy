/**
 * The placement arithmetic of components/chessground/move-evaluation-overlay.tsx:
 * the classification icon of a move is drawn in the top-right corner of its
 * destination square, in percentages of the board.  Percentages are `real`
 * (exact); a top coordinate computed from a NaN rank is `None`.
 */
module MoveEvaluationOverlay {
  import opened JsText
  import opened UseStockfish
  import MoveAnalysis

  datatype Orientation = White | Black

  const CellPct: real := 12.5
  const IconSizePct: real := 4.2
  const PaddingPct: real := 0.6

  /** The icon: its box's left and top edges, its width and its image. */
  datatype IconBox = IconBox(left: real, top: Option<real>, size: real, src: string, alt: string)

  /** `square.charCodeAt(0) - 97` */
  function FileIndex(square: string): int
    requires square != []
  {
    square[0] as int - 97
  }

  /** `parseInt(square[1]) - 1`: NaN when there is no second character or it is not a digit. */
  function RankIndex(square: string): Num
    requires square != []
  {
    var parsed := if |square| >= 2 then ParseInt([square[1]]) else NaN;
    match parsed
    case NaN => NaN
    case Int(v) => Int(v - 1)
  }

  /** `leftPct`: columns run left to right for white and right to left for black. */
  function CellLeft(file: int, orientation: Orientation): real {
    if orientation == White then file as real * CellPct else (7 - file) as real * CellPct
  }

  /** `topPct`: rank 1 is at the bottom for white and at the top for black. */
  function CellTop(rank: Num, orientation: Orientation): Option<real> {
    match rank
    case NaN => None
    case Int(r) => Some(if orientation == White then (7 - r) as real * CellPct else r as real * CellPct)
  }

  /** The top-left corner of the cell of `square`. */
  function Cell(square: string, orientation: Orientation): (real, Option<real>)
    requires square != []
  {
    (CellLeft(FileIndex(square), orientation), CellTop(RankIndex(square), orientation))
  }

  function IconSrc(kind: MoveType): string {
    "/assets/icon/" + MoveAnalysis.TypeName(kind) + ".svg"
  }

  /** The overlay: nothing without an evaluation or a (non-empty) square. */
  function Overlay(evaluation: Option<MoveEvaluation>, square: Option<string>, orientation: Orientation)
    : (r: Option<IconBox>)
    ensures r.None? <==> evaluation.None? || square.None? || square.value == ""
    ensures r.Some? ==> r.value.size == IconSizePct && r.value.alt == MoveAnalysis.TypeName(evaluation.value.kind)
  {
    if evaluation.None? || square.None? || square.value == "" then None
    else
      var (leftPct, topPct) := Cell(square.value, orientation);
      var iconTop := match topPct case None => None case Some(t) => Some(t + PaddingPct);
      Some(IconBox(leftPct + CellPct - IconSizePct - PaddingPct, iconTop, IconSizePct,
                   IconSrc(evaluation.value.kind), MoveAnalysis.TypeName(evaluation.value.kind)))
  }

  /** A square of the board: a file letter `a`..`h` then a rank digit `1`..`8`. */
  predicate OnBoard(square: string) {
    |square| >= 2 && 'a' <= square[0] <= 'h' && '1' <= square[1] <= '8'
  }

  /** `parseInt` of one decimal digit is its value. */
  lemma ParseOneDigit(c: char)
    requires '0' <= c <= '9'
    ensures ParseInt([c]) == Int(c as int - '0' as int)
  {
    var d := c as int - '0' as int;
    assert NatToString(d) == [c];
    ParseIntOfNatToString(d);
  }

  /** The file and rank of a board square are both in 0..7. */
  lemma IndicesOnBoard(square: string)
    requires OnBoard(square)
    ensures 0 <= FileIndex(square) <= 7
    ensures RankIndex(square) == Int(square[1] as int - '1' as int)
  {
    ParseOneDigit(square[1]);
  }

  /** The edges of the eight columns (or rows), in percent of the board. */
  const CellEdges: set<real> := {0.0, 12.5, 25.0, 37.5, 50.0, 62.5, 75.0, 87.5}

  /** A board square's cell is a whole number of cells from the top-left corner, within the board. */
  lemma CellOnBoard(square: string, orientation: Orientation)
    requires OnBoard(square)
    ensures var (left, top) := Cell(square, orientation);
            top.Some? && left in CellEdges && top.value in CellEdges
  {
    CellOfBoardSquare(square, orientation);
    var f := square[0] as int - 97;
    var r := square[1] as int - '1' as int;
    var col := if orientation == White then f else 7 - f;
    var row := if orientation == White then 7 - r else r;
    EdgeOf(col);
    EdgeOf(row);
  }

  lemma EdgeOf(k: int)
    requires 0 <= k <= 7
    ensures k as real * CellPct in CellEdges
  {
    if k == 0 {} else if k == 1 {} else if k == 2 {} else if k == 3 {}
    else if k == 4 {} else if k == 5 {} else if k == 6 {} else {}
  }

  /** With white below, `a1` is the bottom-left cell and `h8` the top-right one. */
  lemma CornersForWhite()
    ensures Cell("a1", White) == (0.0, Some(87.5))
    ensures Cell("h8", White) == (87.5, Some(0.0))
  {
    CellOfBoardSquare("a1", White);
    CellOfBoardSquare("h8", White);
  }

  /** Turning the board to black is the point reflection of the white picture. */
  lemma BlackIsReflection(square: string)
    requires OnBoard(square)
    ensures var (lw, tw) := Cell(square, White);
            var (lb, tb) := Cell(square, Black);
            lb == 87.5 - lw && tw.Some? && tb == Some(87.5 - tw.value)
  {
    CellOfBoardSquare(square, White);
    CellOfBoardSquare(square, Black);
  }

  /** Different board squares get different cells. */
  lemma CellsDistinct(s1: string, s2: string, orientation: Orientation)
    requires OnBoard(s1) && OnBoard(s2) && (s1[0] != s2[0] || s1[1] != s2[1])
    ensures Cell(s1, orientation) != Cell(s2, orientation)
  {
    CellOfBoardSquare(s1, orientation);
    CellOfBoardSquare(s2, orientation);
    var f1, f2 := s1[0] as int - 97, s2[0] as int - 97;
    var r1, r2 := s1[1] as int - '1' as int, s2[1] as int - '1' as int;
    if f1 != f2 {
      LeftInjective(f1, f2, orientation);
    } else {
      TopInjective(r1, r2, orientation);
    }
  }

  /** The cell of a board square, from its file and rank indices. */
  lemma CellOfBoardSquare(square: string, orientation: Orientation)
    requires OnBoard(square)
    ensures Cell(square, orientation)
            == (CellLeft(square[0] as int - 97, orientation), CellTop(Int(square[1] as int - '1' as int), orientation))
  {
    IndicesOnBoard(square);
  }

  lemma LeftInjective(f1: int, f2: int, orientation: Orientation)
    requires f1 != f2
    ensures CellLeft(f1, orientation) != CellLeft(f2, orientation)
  {
  }

  lemma TopInjective(r1: int, r2: int, orientation: Orientation)
    requires r1 != r2
    ensures CellTop(Int(r1), orientation) != CellTop(Int(r2), orientation)
  {
  }

  /** The icon box lies inside its cell, in its top-right corner. */
  lemma IconInsideCell(evaluation: MoveEvaluation, square: string, orientation: Orientation)
    requires OnBoard(square)
    ensures var box := Overlay(Some(evaluation), Some(square), orientation).value;
            var (left, top) := Cell(square, orientation);
            left <= box.left && box.left + box.size <= left + CellPct
            && box.top.Some? && top.value <= box.top.value && box.top.value + box.size <= top.value + CellPct
  {
    CellOnBoard(square, orientation);
  }
}
