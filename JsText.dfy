/**
 * The parts of JavaScript's string and number semantics that the chess
 * analyzer relies on: `String.prototype.split`/`join` on one separator,
 * `indexOf`/`lastIndexOf`, `substring` with its clamping and swapping of
 * arguments, `trim`, `startsWith`/`endsWith`/`includes`, the decimal
 * rendering of a non-negative integer and `parseInt` (which may give NaN).
 */
module JsText {

  datatype Option<T> = None | Some(value: T)

  /** A JavaScript number as produced by `parseInt`: NaN or an integer. */
  datatype Num = NaN | Int(value: int)

  predicate StartsWith(s: string, prefix: string) {
    |prefix| <= |s| && s[..|prefix|] == prefix
  }

  predicate EndsWith(s: string, suffix: string) {
    |suffix| <= |s| && s[|s| - |suffix|..] == suffix
  }

  /** `s.includes(part)` */
  predicate Contains(s: string, part: string)
    decreases |s|
  {
    StartsWith(s, part) || (|s| > 0 && Contains(s[1..], part))
  }

  /** `s.indexOf(c)`: the first position of `c`, or -1. */
  function IndexOf(s: string, c: char): (r: int)
    ensures r == -1 <==> c !in s
    ensures r != -1 ==> 0 <= r < |s| && s[r] == c && c !in s[..r]
  {
    if |s| == 0 then -1
    else if s[0] == c then 0
    else
      var k := IndexOf(s[1..], c);
      assert s[1..][..if k == -1 then 0 else k] == s[1..if k == -1 then 1 else k + 1];
      if k == -1 then -1 else k + 1
  }

  /** `s.lastIndexOf(c)`: the last position of `c`, or -1. */
  function LastIndexOf(s: string, c: char): (r: int)
    ensures r == -1 <==> c !in s
    ensures r != -1 ==> 0 <= r < |s| && s[r] == c && c !in s[r + 1..]
  {
    if |s| == 0 then -1
    else if s[|s| - 1] == c then |s| - 1
    else
      var k := LastIndexOf(s[..|s| - 1], c);
      assert k != -1 ==> s[k + 1..] == s[..|s| - 1][k + 1..] + [s[|s| - 1]];
      assert k == -1 ==> s == s[..|s| - 1] + [s[|s| - 1]];
      k
  }

  function ClampIndex(x: int, n: nat): (r: nat)
    ensures r <= n
    ensures 0 <= x <= n ==> r == x
  {
    if x < 0 then 0 else if x > n then n else x
  }

  /**
   * `s.substring(start, end)`: both arguments are clamped into [0, |s|]
   * (a negative one, such as an `indexOf` miss, becomes 0) and swapped when
   * the first is the larger.
   */
  function Substring(s: string, start: int, end: int): (r: string)
    ensures var a, b := ClampIndex(start, |s|), ClampIndex(end, |s|);
            r == if a <= b then s[a..b] else s[b..a]
  {
    var a, b := ClampIndex(start, |s|), ClampIndex(end, |s|);
    if a <= b then s[a..b] else s[b..a]
  }

  /** `s.split(sep)`: the pieces between occurrences of `sep`, empty ones kept. */
  function Split(s: string, sep: char): (r: seq<string>)
    ensures |r| >= 1
    ensures forall piece <- r :: sep !in piece
    decreases |s|
  {
    var k := IndexOf(s, sep);
    if k == -1 then [s] else [s[..k]] + Split(s[k + 1..], sep)
  }

  /** `pieces.join(sep)` */
  function Join(pieces: seq<string>, sep: char): string {
    if |pieces| == 0 then ""
    else if |pieces| == 1 then pieces[0]
    else pieces[0] + [sep] + Join(pieces[1..], sep)
  }

  lemma IndexOfFirstSeparator(p: string, sep: char, t: string)
    requires sep !in p
    ensures IndexOf(p + [sep] + t, sep) == |p|
  {
    var s := p + [sep] + t;
    var k := IndexOf(s, sep);
    assert s[|p|] == sep;
    assert forall i :: 0 <= i < |p| ==> s[i] == p[i];
    assert forall j :: |p| < j <= |s| ==> s[..j][|p|] == sep;
  }

  /** Joining pieces that do not contain the separator and splitting again gives the pieces back. */
  lemma {:induction false} SplitJoin(pieces: seq<string>, sep: char)
    requires |pieces| >= 1
    requires forall piece <- pieces :: sep !in piece
    ensures Split(Join(pieces, sep), sep) == pieces
  {
    if |pieces| > 1 {
      var rest := Join(pieces[1..], sep);
      IndexOfFirstSeparator(pieces[0], sep, rest);
      var s := pieces[0] + [sep] + rest;
      assert s[..|pieces[0]|] == pieces[0];
      assert s[|pieces[0]| + 1..] == rest;
      SplitJoin(pieces[1..], sep);
      assert pieces == [pieces[0]] + pieces[1..];
    }
  }

  /** Splitting and joining again gives the string back. */
  lemma {:induction false} JoinSplit(s: string, sep: char)
    ensures Join(Split(s, sep), sep) == s
    decreases |s|
  {
    var k := IndexOf(s, sep);
    if k != -1 {
      var head, rest := s[..k], s[k + 1..];
      var tail := Split(rest, sep);
      var pieces := [head] + tail;
      assert Split(s, sep) == pieces;
      assert pieces[0] == head && pieces[1..] == tail;
      assert Join(pieces, sep) == head + [sep] + Join(tail, sep);
      JoinSplit(rest, sep);
      assert s == head + [sep] + rest;
    }
  }

  /** A join contains the separator exactly when there are at least two pieces or a piece holds it. */
  lemma {:induction false} JoinHasNoSeparator(pieces: seq<string>, sep: char)
    requires forall piece <- pieces :: sep !in piece
    ensures sep in Join(pieces, sep) <==> |pieces| >= 2
  {
    if |pieces| >= 2 {
      assert Join(pieces, sep)[|pieces[0]|] == sep;
    } else if |pieces| == 1 {
      assert Join(pieces, sep) == pieces[0];
    }
  }

  /** The characters `String.prototype.trim` and `parseInt` skip: WhiteSpace and LineTerminator of ECMAScript. */
  predicate IsJsSpace(c: char) {
    c == ' ' || c == '\t' || c == '\n' || c == '\r' || c == '\U{000B}' || c == '\U{000C}'
    || c == '\U{00A0}' || c == '\U{FEFF}' || c == '\U{1680}'
    || ('\U{2000}' <= c <= '\U{200A}')
    || c == '\U{2028}' || c == '\U{2029}' || c == '\U{202F}' || c == '\U{205F}' || c == '\U{3000}'
  }

  function TrimStart(s: string): string {
    if |s| > 0 && IsJsSpace(s[0]) then TrimStart(s[1..]) else s
  }

  /** `TrimStart` cuts exactly the leading spaces: a suffix of the input remains, starting with no space. */
  lemma {:induction false} TrimStartIsSuffix(s: string)
    ensures var r := TrimStart(s);
            && |r| <= |s| && r == s[|s| - |r|..]
            && (forall k :: 0 <= k < |s| - |r| ==> IsJsSpace(s[k]))
            && (r != [] ==> !IsJsSpace(r[0]))
  {
    if |s| > 0 && IsJsSpace(s[0]) {
      var t := s[1..];
      TrimStartIsSuffix(t);
      var r := TrimStart(t);
      assert TrimStart(s) == r;
      assert s[|s| - |r|..] == t[|t| - |r|..];
      forall k | 0 <= k < |s| - |r|
        ensures IsJsSpace(s[k])
      {
        if k > 0 {
          assert s[k] == t[k - 1];
        }
      }
    }
  }

  function TrimEnd(s: string): (r: string)
    ensures |r| <= |s| && r == s[..|r|]
    ensures forall k :: |r| <= k < |s| ==> IsJsSpace(s[k])
    ensures r != [] ==> !IsJsSpace(r[|r| - 1])
  {
    if |s| > 0 && IsJsSpace(s[|s| - 1]) then TrimEnd(s[..|s| - 1]) else s
  }

  /** `s.trim()` */
  function Trim(s: string): string {
    TrimEnd(TrimStart(s))
  }

  /** Trimming leaves a slice of the input with no space at either end, and only spaces were cut. */
  lemma TrimIsSlice(s: string)
    ensures exists i, j :: 0 <= i <= j <= |s| && Trim(s) == s[i..j]
                         && (forall k :: 0 <= k < i ==> IsJsSpace(s[k]))
                         && (forall k :: j <= k < |s| ==> IsJsSpace(s[k]))
    ensures Trim(s) != [] ==> !IsJsSpace(Trim(s)[0]) && !IsJsSpace(Trim(s)[|Trim(s)| - 1])
  {
    TrimStartIsSuffix(s);
    var t := TrimStart(s);
    var e := TrimEnd(t);
    var i := |s| - |t|;
    var j := i + |e|;
    assert Trim(s) == s[i..j] by {
      assert e == t[..|e|] && t == s[i..];
    }
    assert forall k :: 0 <= k < i ==> IsJsSpace(s[k]);
    assert forall k :: j <= k < |s| ==> IsJsSpace(s[k]) by {
      forall k | j <= k < |s| ensures IsJsSpace(s[k]) {
        assert s[k] == t[k - i];
      }
    }
    if e != [] {
      assert e[0] == t[0];
    }
  }

  /** A command trims to the empty string exactly when it is all spaces. */
  lemma TrimEmpty(s: string)
    ensures Trim(s) == [] <==> forall k :: 0 <= k < |s| ==> IsJsSpace(s[k])
  {
    var t := TrimStart(s);
    TrimStartIsSuffix(s);
    if Trim(s) == [] {
      assert t == [];
    } else {
      TrimIsSlice(s);
    }
  }

  // ---- decimal digits -------------------------------------------------

  function DigitValue(c: char): (r: int)
    ensures '0' <= c <= '9' ==> 0 <= r < 10
    ensures 'a' <= c <= 'f' ==> 10 <= r < 16
    ensures 'A' <= c <= 'F' ==> 10 <= r < 16
  {
    if '0' <= c <= '9' then c as int - '0' as int
    else if 'a' <= c <= 'f' then c as int - 'a' as int + 10
    else if 'A' <= c <= 'F' then c as int - 'A' as int + 10
    else 99
  }

  predicate IsDigit(c: char, radix: int) {
    ('0' <= c <= '9' || 'a' <= c <= 'f' || 'A' <= c <= 'F') && DigitValue(c) < radix
  }

  /** The longest prefix of `s` made of digits in the given radix. */
  function DigitPrefix(s: string, radix: int): (r: string)
    ensures forall c <- r :: IsDigit(c, radix)
  {
    if |s| > 0 && IsDigit(s[0], radix) then [s[0]] + DigitPrefix(s[1..], radix) else []
  }

  /** `DigitPrefix` is a prefix of the input, and the character after it, if any, is not a digit. */
  lemma {:induction false} DigitPrefixIsLongest(s: string, radix: int)
    ensures var r := DigitPrefix(s, radix);
            |r| <= |s| && r == s[..|r|] && (|r| < |s| ==> !IsDigit(s[|r|], radix))
  {
    if |s| > 0 && IsDigit(s[0], radix) {
      DigitPrefixIsLongest(s[1..], radix);
    }
  }

  /** The value of a digit string, most significant digit first. */
  function DigitsValue(ds: string, radix: nat): nat
    requires forall c <- ds :: IsDigit(c, radix)
  {
    if ds == [] then 0
    else DigitsValue(ds[..|ds| - 1], radix) * radix + DigitValue(ds[|ds| - 1])
  }

  function DigitChar(d: nat): (c: char)
    requires d < 10
    ensures IsDigit(c, 10) && DigitValue(c) == d
  {
    ('0' as int + d) as char
  }

  /** The decimal rendering of a non-negative integer (`${n}`). */
  function NatToString(n: nat): (r: string)
    ensures r != []
    ensures forall c <- r :: IsDigit(c, 10)
    ensures |r| > 1 ==> r[0] != '0'
  {
    if n < 10 then [DigitChar(n)] else NatToString(n / 10) + [DigitChar(n % 10)]
  }

  /**
   * `parseInt(s)` with no radix: skip leading spaces, take an optional sign,
   * read base 16 after a `0x`/`0X` prefix and base 10 otherwise, and stop at
   * the first character that is not a digit; no digit at all gives NaN.
   */
  function ParseInt(s: string): Num {
    var t := TrimStart(s);
    var negative := |t| > 0 && t[0] == '-';
    var u := if |t| > 0 && (t[0] == '-' || t[0] == '+') then t[1..] else t;
    var hex := |u| >= 2 && u[0] == '0' && (u[1] == 'x' || u[1] == 'X');
    var radix := if hex then 16 else 10;
    var ds := DigitPrefix(if hex then u[2..] else u, radix);
    if ds == [] then NaN
    else if negative then Int(0 - DigitsValue(ds, radix) as int)
    else Int(DigitsValue(ds, radix))
  }

  /** `parseInt` of a token that may be missing (`parseInt(undefined)` is NaN). */
  function ParseIntToken(token: Option<string>): Num {
    match token
    case None => NaN
    case Some(t) => ParseInt(t)
  }

  lemma {:induction false} NatToStringValue(n: nat)
    ensures DigitsValue(NatToString(n), 10) == n
  {
    if n >= 10 {
      NatToStringValue(n / 10);
      var r := NatToString(n);
      assert r[..|r| - 1] == NatToString(n / 10);
    }
  }

  lemma {:induction false} DigitPrefixOfDigits(s: string, radix: int)
    requires forall c <- s :: IsDigit(c, radix)
    ensures DigitPrefix(s, radix) == s
  {
    if s != [] {
      assert s[0] in s;
      assert forall c <- s[1..] :: c in s;
      DigitPrefixOfDigits(s[1..], radix);
    }
  }

  /** `parseInt` reads back the decimal rendering of every non-negative integer. */
  lemma ParseIntOfNatToString(n: nat)
    ensures ParseInt(NatToString(n)) == Int(n)
  {
    var r := NatToString(n);
    assert r[0] in r;
    assert !IsJsSpace(r[0]) && r[0] != '-' && r[0] != '+';
    assert TrimStart(r) == r;
    DigitPrefixOfDigits(r, 10);
    NatToStringValue(n);
  }
}
