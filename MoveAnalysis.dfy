/**
 * The value logic of components/move-analysis.tsx: the score text, the
 * evaluation-bar percentage, the best-line preview, the score-change text and
 * the capitalised classification label.  A score is a `Num` because the
 * analysis snapshot's fields come from `parseInt` and may be NaN.  The bar is
 * a `real` (exact arithmetic), with `None` standing for NaN.
 */
module MoveAnalysis {
  import opened JsText
  import opened UseStockfish

  // ---- formatScore -------------------------------------------------------------

  /**
   * `(m / 100).toFixed(2)` for a non-negative centipawn count `m`: whole
   * pawns, a point and two decimals, written exactly.
   */
  function Pawns(m: nat): (r: string)
    ensures |r| >= 4 && r[|r| - 3] == '.'
    ensures forall c <- r[..|r| - 3] + r[|r| - 2..] :: IsDigit(c, 10)
  {
    NatToString(m / 100) + "." + [DigitChar(m % 100 / 10), DigitChar(m % 10)]
  }

  /** `formatScore(score, scoreType)` */
  function FormatScore(score: Num, scoreType: ScoreType): (r: string)
    ensures scoreType == Mate ==> |r| >= 3 && r[0] == '#'
    ensures scoreType == Mate ==> (r[1] == '+' <==> score.Int? && score.value > 0)
    ensures scoreType == Cp && (score.NaN? || score.value == 0) ==> r == "0.00"
    ensures scoreType == Cp && score.Int? && score.value != 0 ==>
              |r| >= 5 && (r[0] == '+' <==> score.value > 0) && (r[0] == '-' <==> score.value < 0)
  {
    match scoreType
    case Mate =>
      (match score
       case Int(n) => if n > 0 then "#+" + NatToString(n) else "#-" + NatToString(-n)
       case NaN => "#-NaN")
    case Cp =>
      (match score
       case Int(n) => if n > 0 then "+" + Pawns(n) else if n < 0 then "-" + Pawns(-n) else "0.00"
       case NaN => "0.00")
  }

  /** The pawn text reads back as the centipawn count it was made from. */
  lemma PawnsValue(m: nat)
    ensures var r := Pawns(m);
            DigitsValue(r[..|r| - 3], 10) * 100 + DigitsValue(r[|r| - 2..], 10) == m
  {
    var r := Pawns(m);
    assert r[..|r| - 3] == NatToString(m / 100);
    assert r[|r| - 2..] == [DigitChar(m % 100 / 10), DigitChar(m % 10)];
    NatToStringValue(m / 100);
    TwoDigitsValue(m % 100 / 10, m % 10);
    assert m == m / 100 * 100 + m % 100 / 10 * 10 + m % 10;
  }

  lemma TwoDigitsValue(a: nat, b: nat)
    requires a < 10 && b < 10
    ensures DigitsValue([DigitChar(a), DigitChar(b)], 10) == a * 10 + b
  {
    var t := [DigitChar(a), DigitChar(b)];
    assert t[..1] == [DigitChar(a)] && t[..1][..0] == [];
    assert DigitsValue(t[..1], 10) == a;
  }

  /** A centipawn score other than zero is written with its sign and its exact value. */
  lemma CentipawnsRoundTrip(n: int)
    requires n != 0
    ensures var r := FormatScore(Int(n), Cp);
            var digits := r[1..];
            |digits| >= 4 && digits[|digits| - 3] == '.'
            && (if r[0] == '-' then -1 else 1)
               * (DigitsValue(digits[..|digits| - 3], 10) * 100 + DigitsValue(digits[|digits| - 2..], 10)) == n
  {
    var m: nat := if n > 0 then n else -n;
    PawnsValue(m);
    var r := FormatScore(Int(n), Cp);
    assert r[1..] == Pawns(m);
  }

  /** `parseInt` of a sign followed by a decimal rendering gives the signed number back. */
  lemma ParseIntOfSigned(n: nat, negative: bool)
    ensures ParseInt((if negative then "-" else "+") + NatToString(n)) == Int(if negative then -(n as int) else n as int)
  {
    var r := NatToString(n);
    var s := (if negative then "-" else "+") + r;
    assert !IsJsSpace(s[0]);
    assert TrimStart(s) == s;
    assert s[1..] == r;
    assert r[0] in r;
    DigitPrefixOfDigits(r, 10);
    NatToStringValue(n);
  }

  /** The text after `#` of a mate score is read back by `parseInt` as the mate distance. */
  lemma MateRoundTrip(n: int)
    ensures ParseInt(FormatScore(Int(n), Mate)[1..]) == Int(n)
  {
    var r := FormatScore(Int(n), Mate);
    if n > 0 {
      assert r[1..] == "+" + NatToString(n);
      ParseIntOfSigned(n, false);
    } else {
      assert r[1..] == "-" + NatToString(-n);
      ParseIntOfSigned(-n, true);
    }
  }

  /** Mate in zero is written `#-0`. */
  lemma MateZero()
    ensures FormatScore(Int(0), Mate) == "#-0"
  {
    assert NatToString(0) == "0";
  }

  /**
   * The score change below the analysis: shown only for a non-zero score, as
   * `+` for a gain followed by `(score / 100).toFixed(2)`.
   */
  function ScoreChange(score: int): (r: Option<string>)
    ensures r.None? <==> score == 0
  {
    if score == 0 then None
    else Some((if score > 0 then "+" else "") + (if score < 0 then "-" + Pawns(-score) else Pawns(score)))
  }

  /** The score-change text is the centipawn score text of the same number. */
  lemma ScoreChangeIsFormatted(score: int)
    requires score != 0
    ensures ScoreChange(score) == Some(FormatScore(Int(score), Cp))
  {
    if score < 0 {
      assert "" + ("-" + Pawns(-score)) == "-" + Pawns(-score);
    }
  }

  // ---- getEvaluationBar --------------------------------------------------------

  /** `Math.max(-500, Math.min(500, score))` */
  function ClampScore(score: int): (r: int)
    ensures -500 <= r <= 500
    ensures -500 <= score <= 500 ==> r == score
  {
    if score < -500 then -500 else if score > 500 then 500 else score
  }

  /** `getEvaluationBar(score, scoreType)`; `None` is the NaN a NaN centipawn score produces. */
  function EvaluationBar(score: Num, scoreType: ScoreType): (r: Option<real>)
    ensures r.None? <==> scoreType == Cp && score.NaN?
    ensures r.Some? ==> 0.0 <= r.value <= 100.0
    ensures scoreType == Mate ==> r == Some(if score.Int? && score.value > 0 then 100.0 else 0.0)
  {
    match scoreType
    case Mate => Some(if score.Int? && score.value > 0 then 100.0 else 0.0)
    case Cp =>
      match score
      case NaN => None
      case Int(n) => Some((ClampScore(n) + 500) as real / 1000.0 * 100.0)
  }

  /** An even position is the middle of the bar; five pawns either way fill or empty it. */
  lemma EvaluationBarLandmarks(n: int)
    ensures EvaluationBar(Int(0), Cp) == Some(50.0)
    ensures n >= 500 ==> EvaluationBar(Int(n), Cp) == Some(100.0)
    ensures n <= -500 ==> EvaluationBar(Int(n), Cp) == Some(0.0)
  {
  }

  /** The bar never shrinks as the centipawn score grows. */
  lemma EvaluationBarMonotone(n1: int, n2: int)
    requires n1 <= n2
    ensures EvaluationBar(Int(n1), Cp).value <= EvaluationBar(Int(n2), Cp).value
  {
    assert ClampScore(n1) <= ClampScore(n2);
  }

  /** Mirroring the score mirrors the bar about its middle. */
  lemma EvaluationBarSymmetric(n: int)
    ensures EvaluationBar(Int(-n), Cp).value == 100.0 - EvaluationBar(Int(n), Cp).value
  {
    assert ClampScore(-n) == -ClampScore(n);
  }

  // ---- best line ---------------------------------------------------------------

  function Min(a: nat, b: nat): nat {
    if a <= b then a else b
  }

  /**
   * The best-line box: absent for a missing or empty `pv`; otherwise its first
   * six moves joined by spaces, followed by `...` when more were found.
   */
  function PvPreview(pv: Option<seq<string>>): (r: Option<string>)
    ensures r.None? <==> pv.None? || pv.value == []
    ensures r.Some? && |pv.value| > 6 ==> EndsWith(r.value, "...")
  {
    match pv
    case None => None
    case Some(moves) =>
      if |moves| == 0 then None
      else Some(Join(moves[..Min(6, |moves|)], ' ') + if |moves| > 6 then "..." else "")
  }

  /**
   * Read back: splitting the preview, minus the ellipsis, at spaces gives the
   * first moves of the line, at most six, when no move contains a space.
   */
  lemma PvPreviewShowsFirstMoves(moves: seq<string>)
    requires moves != []
    requires forall m <- moves :: ' ' !in m
    ensures var shown := PvPreview(Some(moves)).value;
            var body := if |moves| > 6 then shown[..|shown| - 3] else shown;
            Split(body, ' ') == moves[..Min(6, |moves|)]
  {
    var k := Min(6, |moves|);
    var joined := Join(moves[..k], ' ');
    var shown := PvPreview(Some(moves)).value;
    assert shown == joined + if |moves| > 6 then "..." else "";
    if |moves| > 6 {
      assert shown[..|shown| - 3] == joined;
    } else {
      assert shown == joined;
    }
    assert forall m <- moves[..k] :: ' ' !in m by {
      forall m | m in moves[..k] ensures ' ' !in m {
        var j :| 0 <= j < k && moves[..k][j] == m;
        assert m == moves[j];
      }
    }
    SplitJoin(moves[..k], ' ');
  }

  // ---- type label --------------------------------------------------------------

  /** The classification's name as `evaluation.type` holds it. */
  function TypeName(kind: MoveType): string {
    match kind
    case Brilliant => "brilliant"
    case Critical => "critical"
    case Best => "best"
    case Excellent => "excellent"
    case Okay => "okay"
    case Inaccuracy => "inaccuracy"
    case Mistake => "mistake"
    case Blunder => "blunder"
    case Theory => "theory"
  }

  /** `toUpperCase` on one character, for the ASCII letters the names use. */
  function UpperAscii(c: char): (r: char)
    ensures 'a' <= c <= 'z' ==> 'A' <= r <= 'Z' && r as int == c as int - 32
    ensures !('a' <= c <= 'z') ==> r == c
  {
    if 'a' <= c <= 'z' then (c as int - 32) as char else c
  }

  /** `s.charAt(0).toUpperCase() + s.slice(1)` */
  function Capitalize(s: string): (r: string)
    ensures |r| == |s|
    ensures s != [] ==> r[0] == UpperAscii(s[0]) && r[1..] == s[1..]
  {
    if s == [] then "" else [UpperAscii(s[0])] + s[1..]
  }

  /** The badge label of a classification. */
  function Label(kind: MoveType): (r: string)
    ensures r == Capitalize(TypeName(kind))
  {
    Capitalize(TypeName(kind))
  }

  /** A non-empty word of lower-case ASCII letters. */
  predicate LowerWord(s: string) {
    s != [] && forall c <- s :: 'a' <= c <= 'z'
  }

  /** Capitalising a lower-case word is undone by lowering its first letter. */
  lemma CapitalizeRoundTrip(s: string)
    requires LowerWord(s)
    ensures var r := Capitalize(s);
            'A' <= r[0] <= 'Z' && [(r[0] as int + 32) as char] + r[1..] == s
  {
    assert s[0] in s;
    assert s == [s[0]] + s[1..];
  }

  /** Capitalisation tells lower-case words apart. */
  lemma CapitalizeInjective(s1: string, s2: string)
    requires LowerWord(s1) && LowerWord(s2) && s1 != s2
    ensures Capitalize(s1) != Capitalize(s2)
  {
    CapitalizeRoundTrip(s1);
    CapitalizeRoundTrip(s2);
  }

  lemma TypeNameIsLowerWord(kind: MoveType)
    ensures LowerWord(TypeName(kind))
  {
  }

  /** Only the first letter of a label is upper case: lowering it gives the name back. */
  lemma LabelRoundTrip(kind: MoveType)
    ensures var r := Label(kind);
            'A' <= r[0] <= 'Z' && [(r[0] as int + 32) as char] + r[1..] == TypeName(kind)
  {
    TypeNameIsLowerWord(kind);
    CapitalizeRoundTrip(TypeName(kind));
  }

  /** Distinct classifications get distinct labels. */
  lemma LabelsDistinct(k1: MoveType, k2: MoveType)
    requires k1 != k2
    ensures Label(k1) != Label(k2)
  {
    TypeNameIsLowerWord(k1);
    TypeNameIsLowerWord(k2);
    assert TypeName(k1) != TypeName(k2);
    CapitalizeInjective(TypeName(k1), TypeName(k2));
  }
}
