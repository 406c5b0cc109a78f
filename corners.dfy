/** The corner string of the first detected barcode: one `"x,y "` token per
    corner point, built with a `StringBuilder` in `analyze`. Kotlin renders
    an `Int` in a string template as its signed decimal form; that rendering
    is written out here, together with a decoder that reads the corner
    string back, as the inverse that pins down what the string holds. */
module Corners {
  import opened Wrappers

  /** An `android.graphics.Point`. */
  datatype Point = Point(x: int, y: int)

  predicate IsDigit(c: char) {
    '0' <= c <= '9'
  }

  /** Decimal digits of `n`, most significant first, without leading zeros. */
  function NatToString(n: nat): (s: string)
    ensures |s| > 0
    ensures forall i :: 0 <= i < |s| ==> IsDigit(s[i])
  {
    if n < 10 then ["0123456789"[n]]
    else NatToString(n / 10) + ["0123456789"[n % 10]]
  }

  /** `Int.toString()`: a leading '-' for negative values, decimal digits
      everywhere else. */
  function IntToString(n: int): (s: string)
    ensures |s| > 0
    ensures s[0] == '-' <==> n < 0
    ensures forall i :: 0 < i < |s| ==> IsDigit(s[i])
  {
    if n < 0 then "-" + NatToString(-n) else NatToString(n)
  }

  /** The text appended for one corner: `"${corner.x},${corner.y} "`. */
  function CornerToken(p: Point): string
  {
    IntToString(p.x) + "," + IntToString(p.y) + " "
  }

  /** The builder's content after appending the tokens of `corners` in
      order: empty exactly when there are no corners, and otherwise ending
      in the space that closes the last token. */
  function CornersText(corners: seq<Point>): (s: string)
    ensures AtTokenBoundary(s)
    ensures s == [] <==> corners == []
  {
    if corners == [] then ""
    else CornersText(corners[..|corners| - 1]) + CornerToken(corners[|corners| - 1])
  }

  /** `cornersString`: empty when ML Kit reports no corner points (`null`);
      it holds one space per reported point. */
  function CornersString(corners: Option<seq<Point>>): (s: string)
    ensures Occurrences(s, ' ') == if corners.Some? then |corners.value| else 0
  {
    match corners
    case None => ""
    case Some(cs) => OneSpacePerCorner(cs); CornersText(cs)
  }

  /** The `StringBuilder` loop over `barcodes[0].cornerPoints`. */
  method BuildCornersString(corners: Option<seq<Point>>) returns (s: string)
    ensures s == CornersString(corners)
  {
    s := "";
    if corners.Some? {
      var cs := corners.value;
      for i := 0 to |cs|
        invariant s == CornersText(cs[..i])
      {
        assert cs[..i + 1][..i] == cs[..i];
        s := s + CornerToken(cs[i]);
      }
      assert cs[..|cs|] == cs;
    }
  }

  // ---------------------------------------------------------------------
  // Reading the corner string back

  /** Number of occurrences of `c` in `s`. */
  function Occurrences(s: string, c: char): nat
  {
    if s == [] then 0
    else Occurrences(s[..|s| - 1], c) + (if s[|s| - 1] == c then 1 else 0)
  }

  /** The index just after the last `c` in `s`, or 0 when `s` holds no `c`. */
  function AfterLast(s: string, c: char): (k: nat)
    ensures k <= |s|
    ensures k > 0 ==> s[k - 1] == c
  {
    if s == [] then 0
    else if s[|s| - 1] == c then |s|
    else AfterLast(s[..|s| - 1], c)
  }

  /** Value of a nonempty string of decimal digits, `None` otherwise. */
  function ParseNat(s: string): Option<nat>
  {
    if s == [] || !IsDigit(s[|s| - 1]) then None
    else
      var d := (s[|s| - 1] as int) - ('0' as int);
      if |s| == 1 then Some(d)
      else match ParseNat(s[..|s| - 1])
        case None => None
        case Some(v) => Some(v * 10 + d)
  }

  /** Value of an optionally negative decimal numeral. */
  function ParseInt(s: string): Option<int>
  {
    if s != [] && s[0] == '-' then
      match ParseNat(s[1..])
      case None => None
      case Some(v) => Some(0 - v as int)
    else
      match ParseNat(s)
      case None => None
      case Some(v) => Some(v)
  }

  /** Reads one `"x,y"` token (without its trailing space). */
  function ParsePoint(t: string): Option<Point>
  {
    var k := AfterLast(t, ',');
    if k == 0 then None
    else match (ParseInt(t[..k - 1]), ParseInt(t[k..]))
      case (Some(x), Some(y)) => Some(Point(x, y))
      case _ => None
  }

  /** Reads a corner string back into its points, last token first. */
  function DecodeCorners(s: string): Option<seq<Point>>
    decreases |s|
  {
    if s == [] then Some([])
    else if s[|s| - 1] != ' ' then None
    else
      var body := s[..|s| - 1];
      var k := AfterLast(body, ' ');
      match (DecodeCorners(body[..k]), ParsePoint(body[k..]))
      case (Some(ps), Some(p)) => Some(ps + [p])
      case _ => None
  }

  // ---------------------------------------------------------------------
  // Lemmas

  lemma {:induction false} NatRoundTrip(n: nat)
    ensures ParseNat(NatToString(n)) == Some(n)
  {
    var s := NatToString(n);
    if n >= 10 {
      NatRoundTrip(n / 10);
      assert s[..|s| - 1] == NatToString(n / 10);
    }
  }

  lemma IntRoundTrip(n: int)
    ensures ParseInt(IntToString(n)) == Some(n)
  {
    if n < 0 {
      var digits := NatToString(-n);
      NatRoundTrip(-n);
      assert ("-" + digits)[1..] == digits;
    } else {
      var digits := NatToString(n);
      assert IsDigit(digits[0]);
      NatRoundTrip(n);
    }
  }

  lemma IntToStringHasNo(n: int, c: char)
    requires !IsDigit(c) && c != '-'
    ensures forall i :: 0 <= i < |IntToString(n)| ==> IntToString(n)[i] != c
  {
    var s := IntToString(n);
    if n < 0 {
      forall i | 1 <= i < |s| ensures s[i] != c {
        assert s[i] == NatToString(-n)[i - 1];
      }
    }
  }

  /** Appending text free of `c` after a prefix ending in `c` (or empty)
      leaves the last `c` where the prefix put it. */
  lemma {:induction false} AfterLastOfAppend(a: string, t: string, c: char)
    requires a == [] || a[|a| - 1] == c
    requires forall i :: 0 <= i < |t| ==> t[i] != c
    ensures AfterLast(a + t, c) == |a|
  {
    if t != [] {
      var t' := t[..|t| - 1];
      assert (a + t)[..|a + t| - 1] == a + t';
      AfterLastOfAppend(a, t', c);
    } else {
      assert a + t == a;
    }
  }

  lemma PointRoundTrip(p: Point)
    ensures ParsePoint(IntToString(p.x) + "," + IntToString(p.y)) == Some(p)
  {
    var sx, sy := IntToString(p.x), IntToString(p.y);
    var t := sx + "," + sy;
    IntToStringHasNo(p.y, ',');
    AfterLastOfAppend(sx + ",", sy, ',');
    assert t == (sx + ",") + sy;
    assert t[..|sx|] == sx;
    assert t[|sx| + 1..] == sy;
    IntRoundTrip(p.x);
    IntRoundTrip(p.y);
  }

  /** Every token the builder appends ends in the only space it holds. */
  lemma TokenShape(p: Point)
    ensures |CornerToken(p)| > 0 && CornerToken(p)[|CornerToken(p)| - 1] == ' '
    ensures forall i :: 0 <= i < |CornerToken(p)| - 1 ==> CornerToken(p)[i] != ' '
  {
    IntToStringHasNo(p.x, ' ');
    IntToStringHasNo(p.y, ' ');
    var sx, sy := IntToString(p.x), IntToString(p.y);
    var tok := CornerToken(p);
    forall i | 0 <= i < |tok| - 1 ensures tok[i] != ' ' {
      if i < |sx| { assert tok[i] == sx[i]; }
      else if i > |sx| { assert tok[i] == sy[i - |sx| - 1]; }
    }
  }

  /** One decoding step: a space-free token core and its space appended
      after a decodable prefix. */
  lemma DecodeStep(prev: string, core: string, ps: seq<Point>, p: Point)
    requires AtTokenBoundary(prev)
    requires forall i :: 0 <= i < |core| ==> core[i] != ' '
    requires DecodeCorners(prev) == Some(ps) && ParsePoint(core) == Some(p)
    ensures DecodeCorners(prev + core + " ") == Some(ps + [p])
  {
    var s := prev + core + " ";
    var body := s[..|s| - 1];
    assert body == prev + core;
    AfterLastOfAppend(prev, core, ' ');
    assert body[..|prev|] == prev;
    assert body[|prev|..] == core;
  }

  /** The same step, stated for a whole corner token. */
  lemma TokenStep(prev: string, ps: seq<Point>, p: Point)
    requires AtTokenBoundary(prev)
    requires DecodeCorners(prev) == Some(ps)
    ensures DecodeCorners(prev + CornerToken(p)) == Some(ps + [p])
  {
    var core := TokenCore(p);
    DecodeStep(prev, core, ps, p);
    AppendAssoc(prev, core, " ");
  }

  lemma AppendAssoc<T>(a: seq<T>, b: seq<T>, c: seq<T>)
    ensures a + (b + c) == a + b + c
  {
  }

  /** The corner string decodes back to the corner points, in input order:
      it is the concatenation of one token per point. */
  lemma {:induction false} CornersRoundTrip(corners: seq<Point>)
    ensures DecodeCorners(CornersText(corners)) == Some(corners)
  {
    if corners != [] {
      var init, p := corners[..|corners| - 1], corners[|corners| - 1];
      assert corners == init + [p];
      CornersRoundTrip(init);
      TokenStep(CornersText(init), init, p);
    }
  }

  /** A token without its trailing space: free of spaces, and read back by
      `ParsePoint`. */
  lemma TokenCore(p: Point) returns (core: string)
    ensures CornerToken(p) == core + " "
    ensures forall i :: 0 <= i < |core| ==> core[i] != ' '
    ensures ParsePoint(core) == Some(p)
  {
    core := IntToString(p.x) + "," + IntToString(p.y);
    TokenShape(p);
    forall i | 0 <= i < |core| ensures core[i] != ' ' {
      assert core[i] == CornerToken(p)[i];
    }
    PointRoundTrip(p);
  }

  /** `s` is empty or ends with a space: a point where a token may start. */
  predicate AtTokenBoundary(s: string) {
    s == [] || s[|s| - 1] == ' '
  }

  lemma {:induction false} OccurrencesOfAppend(a: string, b: string, c: char)
    ensures Occurrences(a + b, c) == Occurrences(a, c) + Occurrences(b, c)
  {
    if b != [] {
      var b' := b[..|b| - 1];
      assert (a + b)[..|a + b| - 1] == a + b';
      OccurrencesOfAppend(a, b', c);
    } else {
      assert a + b == a;
    }
  }

  lemma {:induction false} TokenHasOneSpace(tok: string)
    requires |tok| > 0 && tok[|tok| - 1] == ' '
    requires forall i :: 0 <= i < |tok| - 1 ==> tok[i] != ' '
    ensures Occurrences(tok, ' ') == 1
  {
    var t := tok[..|tok| - 1];
    NoOccurrences(t, ' ');
  }

  lemma {:induction false} NoOccurrences(s: string, c: char)
    requires forall i :: 0 <= i < |s| ==> s[i] != c
    ensures Occurrences(s, c) == 0
  {
    if s != [] {
      NoOccurrences(s[..|s| - 1], c);
    }
  }

  /** N corner points give exactly N space-terminated tokens: the corner
      string holds exactly one space per point. */
  lemma {:induction false} OneSpacePerCorner(corners: seq<Point>)
    ensures Occurrences(CornersText(corners), ' ') == |corners|
  {
    if corners != [] {
      var init, p := corners[..|corners| - 1], corners[|corners| - 1];
      OneSpacePerCorner(init);
      TokenShape(p);
      TokenHasOneSpace(CornerToken(p));
      OccurrencesOfAppend(CornersText(init), CornerToken(p), ' ');
    }
  }

  /** No corner points, or none reported, give the empty string. */
  lemma NoCornersGiveEmptyString(corners: Option<seq<Point>>)
    requires corners.None? || corners.value == []
    ensures CornersString(corners) == ""
  {
  }
}
