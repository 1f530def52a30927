/**
 * The renderable information of app/mx_data.py: the two-team score with its
 * glyph placement rules and change animation, and the clock.
 */
module MxData {
  import opened Constants
  import opened Data
  import opened Display

  const MIN_SCORE: int := 0
  const MAX_SCORE: int := 99
  const ZERO_TENS_DIGIT: int := 0
  const ONE_TENS_DIGIT: int := 1

  /** Start columns of a big one-digit half (SingleOneDigit), relative to x_shift. */
  const ONE_DIGIT_X_OFFSET: int := 4
  const ONE_DIGIT_X_OFFSET_FOR_1: int := 7
  /** Start columns of a big 10-19 half (SingleTwoDigit). */
  const TENS_X_OFFSET: int := 2
  const ONES_X_OFFSET: int := 6
  const ONES_X_OFFSET_FOR_1: int := 12
  /** Lateral shift of the right half of a medium-font 20-99 score (SingleHigherTwoDigit). */
  const RIGHT_SCORE_X_SHIFT: int := 18
  /** Shift of the minutes relative to the hours. */
  const MINUTES_X_SHIFT: int := 18
  /** Column of the delimiter bars, relative to x_shift. */
  const DELIMITER_X: int := 15

  predicate IsDigit(d: int) { 0 <= d <= 9 }

  /** A number the medium font can show as two digits. */
  predicate IsTwoDigitNum(n: int) { 0 <= n <= 99 }

  predicate InScoreRange(v: int) { MIN_SCORE <= v <= MAX_SCORE }

  predicate ValidScore(s: Score) { InScoreRange(s.left) && InScoreRange(s.right) }

  // ---------------------------------------------------------------------------
  // Reading a rendered layout back

  /** The digit of one operation when it is a glyph starting in [lo, hi). */
  function GlyphDigit(op: Op, lo: int, hi: int): seq<int>
  {
    if op.DrawGlyph? && lo <= op.x < hi then [op.digit] else []
  }

  /** The digits of the glyphs placed with a start column in [lo, hi), in drawing order. */
  function DigitsIn(ops: seq<Op>, lo: int, hi: int): seq<int>
  {
    if ops == [] then [] else GlyphDigit(ops[0], lo, hi) + DigitsIn(ops[1..], lo, hi)
  }

  /** The decimal number a sequence of digits spells. */
  function NumberOf(ds: seq<int>): int
  {
    if ds == [] then 0 else NumberOf(ds[..|ds| - 1]) * 10 + ds[|ds| - 1]
  }

  lemma {:induction false} DigitsInConcat(a: seq<Op>, b: seq<Op>, lo: int, hi: int)
    ensures DigitsIn(a + b, lo, hi) == DigitsIn(a, lo, hi) + DigitsIn(b, lo, hi)
  {
    if a == [] {
      assert a + b == b;
    } else {
      assert (a + b)[1..] == a[1..] + b;
      DigitsInConcat(a[1..], b, lo, hi);
    }
  }

  /** One or two glyphs read back from a range that holds all of them, or none of them. */
  lemma {:induction false} GlyphsReadBack(ops: seq<Op>, lo: int, hi: int)
    requires 1 <= |ops| <= 2
    requires forall op :: op in ops ==> op.DrawGlyph?
    ensures (forall op :: op in ops ==> lo <= op.x < hi) ==>
      NumberOf(DigitsIn(ops, lo, hi)) == if |ops| == 1 then ops[0].digit else 10 * ops[0].digit + ops[1].digit
    ensures (forall op :: op in ops ==> !(lo <= op.x < hi)) ==> DigitsIn(ops, lo, hi) == []
  {
    var a := ops[0];
    assert [a][..0] == [];
    if |ops| == 1 {
      assert ops[1..] == [];
      assert DigitsIn(ops, lo, hi) == GlyphDigit(a, lo, hi) + DigitsIn([], lo, hi);
      assert [a.digit][..0] == [];
    } else {
      var b := ops[1];
      assert ops[1..] == [b] && [b][1..] == [];
      assert DigitsIn([b], lo, hi) == GlyphDigit(b, lo, hi) + DigitsIn([], lo, hi);
      assert DigitsIn(ops, lo, hi) == GlyphDigit(a, lo, hi) + DigitsIn([b], lo, hi);
      if forall op :: op in ops ==> lo <= op.x < hi {
        assert a in ops && b in ops;
        assert DigitsIn(ops, lo, hi) == [a.digit, b.digit];
        assert [a.digit, b.digit][..1] == [a.digit];
        assert [a.digit][..0] == [];
        assert NumberOf([a.digit]) == a.digit;
        assert NumberOf([a.digit, b.digit]) == NumberOf([a.digit]) * 10 + b.digit;
      }
    }
  }

  // ---------------------------------------------------------------------------
  // MxNumeric: a two-digit number in the medium font

  /** The glyphs of _render_2_digit_num: tens at x, ones one matrix width further. */
  function TwoDigitNumOps(num: int, x: int): seq<Op>
    requires IsTwoDigitNum(num)
  {
    [DrawGlyph(Medium, num / 10, x), DrawGlyph(Medium, num % 10, x + COLS_IN_MATRIX)]
  }

  method RenderTwoDigitNum(matrix: Matrix, num: int, xShift: int)
    requires IsTwoDigitNum(num)
    modifies matrix
    ensures matrix.log == old(matrix.log) + TwoDigitNumOps(num, xShift)
  {
    var tens, ones := num / 10, num % 10;
    var digits := [tens, ones];
    var x := xShift;
    for i := 0 to |digits|
      invariant x == xShift + i * COLS_IN_MATRIX
      invariant matrix.log == old(matrix.log) + TwoDigitNumOps(num, xShift)[..i]
    {
      matrix.DrawGlyph(Medium, digits[i], x);
      x := x + COLS_IN_MATRIX;
    }
  }

  /** Both medium digits start inside [x, x + 15) and spell the number back. */
  lemma {:induction false} TwoDigitNumReadBack(num: int, x: int)
    requires IsTwoDigitNum(num)
    ensures NumberOf(DigitsIn(TwoDigitNumOps(num, x), x, x + DELIMITER_X)) == num
    ensures DigitsIn(TwoDigitNumOps(num, x), x + DELIMITER_X, x + PANEL_COLS) == []
  {
    GlyphsReadBack(TwoDigitNumOps(num, x), x, x + DELIMITER_X);
    GlyphsReadBack(TwoDigitNumOps(num, x), x + DELIMITER_X, x + PANEL_COLS);
  }

  // ---------------------------------------------------------------------------
  // Score

  /** Saturation of set_left / set_right: min(max(v, MIN_SCORE), MAX_SCORE). */
  function Clamp(v: int): (r: int)
    ensures InScoreRange(r)
    ensures InScoreRange(v) ==> r == v
    ensures v > MAX_SCORE ==> r == MAX_SCORE
    ensures v < MIN_SCORE ==> r == MIN_SCORE
  {
    if v > MAX_SCORE then MAX_SCORE else if v < MIN_SCORE then MIN_SCORE else v
  }

  /** Setting a value that was already set changes nothing. */
  lemma {:induction false} ClampIdempotent(v: int)
    ensures Clamp(Clamp(v)) == Clamp(v)
  {
  }

  /** One half of the score as one of the three compositions of MxScore. */
  datatype Half =
    | SingleOneDigit(digit: int, side: Side)
    | SingleTwoDigit(tens: int, ones: int, side: Side)
    | SingleHigherTwoDigit(singleScore: int, side: Side)

  predicate HalfValid(h: Half)
  {
    match h
    case SingleOneDigit(d, _) => IsDigit(d)
    case SingleTwoDigit(t, o, _) => t == ONE_TENS_DIGIT && IsDigit(o)
    case SingleHigherTwoDigit(n, _) => IsTwoDigitNum(n)
  }

  /** The number a half shows. */
  function HalfValue(h: Half): int
  {
    match h
    case SingleOneDigit(d, _) => d
    case SingleTwoDigit(t, o, _) => 10 * t + o
    case SingleHigherTwoDigit(n, _) => n
  }

  /**
   * Layout selection of render: the medium font on both halves as soon as
   * either side reaches 20, otherwise each side on its own: one big digit
   * below 10, a big 1x pair from 10 to 19.
   */
  function Compose(s: Score): (halves: (Half, Half))
    requires ValidScore(s)
    ensures HalfValid(halves.0) && HalfValid(halves.1)
    ensures halves.0.side == Left && halves.1.side == Right
    ensures HalfValue(halves.0) == s.left && HalfValue(halves.1) == s.right
    ensures halves.0.SingleHigherTwoDigit? <==> s.left >= 20 || s.right >= 20
    ensures halves.1.SingleHigherTwoDigit? <==> s.left >= 20 || s.right >= 20
    ensures halves.0.SingleOneDigit? <==> s.left < 10 && s.right < 20
    ensures halves.1.SingleOneDigit? <==> s.right < 10 && s.left < 20
  {
    var lTens, lOnes := s.left / 10, s.left % 10;
    var rTens, rOnes := s.right / 10, s.right % 10;
    if lTens > ONE_TENS_DIGIT || rTens > ONE_TENS_DIGIT then
      (SingleHigherTwoDigit(s.left, Left), SingleHigherTwoDigit(s.right, Right))
    else
      (if lTens == ZERO_TENS_DIGIT then SingleOneDigit(lOnes, Left) else SingleTwoDigit(lTens, lOnes, Left),
       if rTens == ZERO_TENS_DIGIT then SingleOneDigit(rOnes, Right) else SingleTwoDigit(rTens, rOnes, Right))
  }

  /** The shift a side adds: the given amount on the right, nothing on the left. */
  function SideShift(side: Side, amount: int): int
  {
    if side == Right then amount else 0
  }

  /** The glyphs the render of a half places. */
  function HalfOps(h: Half, x: int): seq<Op>
    requires HalfValid(h)
  {
    match h
    case SingleOneDigit(d, side) =>
      var offset := x + (if d == 1 then ONE_DIGIT_X_OFFSET_FOR_1 else ONE_DIGIT_X_OFFSET)
                      + SideShift(side, RIGHT_SIDE_X_OFFSET);
      [DrawGlyph(Big, d, offset)]
    case SingleTwoDigit(t, o, side) =>
      var tensOffset := x + TENS_X_OFFSET + SideShift(side, RIGHT_SIDE_X_OFFSET);
      var onesOffset := x + (if o == 1 then ONES_X_OFFSET_FOR_1 else ONES_X_OFFSET)
                          + SideShift(side, RIGHT_SIDE_X_OFFSET);
      [DrawGlyph(Big, t, tensOffset), DrawGlyph(Big, o, onesOffset)]
    case SingleHigherTwoDigit(n, side) =>
      TwoDigitNumOps(n, x + SideShift(side, RIGHT_SCORE_X_SHIFT))
  }

  function ScoreDelimiterOps(x: int): seq<Op>
  {
    [HLine(DELIMITER_X + x, 7, 2, 1), HLine(DELIMITER_X + x, 8, 2, 1)]
  }

  /** Everything render(x_shift, pre_clear, redraw, render_delim) sends to the matrix. */
  function RenderOps(s: Score, x: int, preClear: bool, redraw: bool, renderDelim: bool): seq<Op>
    requires ValidScore(s)
  {
    var halves := Compose(s);
    (if preClear then [Fill(0)] else [])
    + HalfOps(halves.0, x)
    + (if renderDelim then ScoreDelimiterOps(x) else [])
    + HalfOps(halves.1, x)
    + (if redraw then [RedrawTwice] else [])
  }

  /**
   * Placement: with x_shift = x every left glyph starts in [x, x + 15) and every
   * right glyph in [x + 18, x + 28], so the halves start on opposite sides of
   * the delimiter bars at columns x + 15 and x + 16; inside a half the ones
   * glyph starts at least 4 columns right of the tens glyph.
   */
  lemma {:induction false} HalfPlacement(h: Half, x: int)
    requires HalfValid(h) && h.side != LeftAndRight
    ensures 1 <= |HalfOps(h, x)| <= 2
    ensures forall op :: op in HalfOps(h, x) ==> op.DrawGlyph? && IsDigit(op.digit)
    ensures h.side == Left ==> forall op :: op in HalfOps(h, x) ==> x <= op.x < x + DELIMITER_X
    ensures h.side == Right ==> forall op :: op in HalfOps(h, x) ==> x + 18 <= op.x <= x + 28
    ensures |HalfOps(h, x)| == 2 ==> HalfOps(h, x)[0].x + 4 <= HalfOps(h, x)[1].x
  {
  }

  /** The digits of a half, read back from the side of the panel it is drawn on, spell its value. */
  lemma {:induction false} HalfReadBack(h: Half, x: int)
    requires HalfValid(h) && h.side != LeftAndRight
    ensures h.side == Left ==> NumberOf(DigitsIn(HalfOps(h, x), x, x + DELIMITER_X)) == HalfValue(h)
    ensures h.side == Left ==> DigitsIn(HalfOps(h, x), x + DELIMITER_X, x + PANEL_COLS) == []
    ensures h.side == Right ==> NumberOf(DigitsIn(HalfOps(h, x), x + DELIMITER_X, x + PANEL_COLS)) == HalfValue(h)
    ensures h.side == Right ==> DigitsIn(HalfOps(h, x), x, x + DELIMITER_X) == []
  {
    HalfPlacement(h, x);
    GlyphsReadBack(HalfOps(h, x), x, x + DELIMITER_X);
    GlyphsReadBack(HalfOps(h, x), x + DELIMITER_X, x + PANEL_COLS);
  }

  /**
   * Round trip of render: reading the digits back from the left part
   * [x, x + 15) and the right part [x + 15, x + 32) of the panel gives the
   * score, whatever the flags.
   */
  lemma {:induction false} ScoreReadBack(s: Score, x: int, preClear: bool, redraw: bool, renderDelim: bool)
    requires ValidScore(s)
    ensures NumberOf(DigitsIn(RenderOps(s, x, preClear, redraw, renderDelim), x, x + DELIMITER_X)) == s.left
    ensures NumberOf(DigitsIn(RenderOps(s, x, preClear, redraw, renderDelim), x + DELIMITER_X, x + PANEL_COLS)) == s.right
  {
    var halves := Compose(s);
    HalfReadBack(halves.0, x);
    HalfReadBack(halves.1, x);
    RenderDigits(s, x, preClear, redraw, renderDelim, x, x + DELIMITER_X);
    RenderDigits(s, x, preClear, redraw, renderDelim, x + DELIMITER_X, x + PANEL_COLS);
    assert DigitsIn(HalfOps(halves.0, x), x, x + DELIMITER_X) + [] == DigitsIn(HalfOps(halves.0, x), x, x + DELIMITER_X);
    assert [] + DigitsIn(HalfOps(halves.1, x), x + DELIMITER_X, x + PANEL_COLS)
        == DigitsIn(HalfOps(halves.1, x), x + DELIMITER_X, x + PANEL_COLS);
  }

  /** Operations that draw no glyph contribute no digit. */
  lemma {:induction false} NoGlyphNoDigits(ops: seq<Op>, lo: int, hi: int)
    requires forall op :: op in ops ==> !op.DrawGlyph?
    ensures DigitsIn(ops, lo, hi) == []
  {
    if ops != [] {
      assert ops[0] in ops;
      assert forall op :: op in ops[1..] ==> op in ops;
      NoGlyphNoDigits(ops[1..], lo, hi);
    }
  }

  /** Only the two halves of a score render contribute digits. */
  lemma {:induction false} RenderDigits(s: Score, x: int, preClear: bool, redraw: bool, renderDelim: bool, lo: int, hi: int)
    requires ValidScore(s)
    ensures DigitsIn(RenderOps(s, x, preClear, redraw, renderDelim), lo, hi)
         == DigitsIn(HalfOps(Compose(s).0, x), lo, hi) + DigitsIn(HalfOps(Compose(s).1, x), lo, hi)
  {
    var halves := Compose(s);
    var pre: seq<Op> := if preClear then [Fill(0)] else [];
    var delim: seq<Op> := if renderDelim then ScoreDelimiterOps(x) else [];
    var post: seq<Op> := if redraw then [RedrawTwice] else [];
    var l, r := HalfOps(halves.0, x), HalfOps(halves.1, x);
    assert RenderOps(s, x, preClear, redraw, renderDelim) == pre + l + delim + r + post;
    DigitsInConcat(pre + l + delim + r, post, lo, hi);
    DigitsInConcat(pre + l + delim, r, lo, hi);
    DigitsInConcat(pre + l, delim, lo, hi);
    DigitsInConcat(pre, l, lo, hi);
    NoGlyphNoDigits(pre, lo, hi);
    NoGlyphNoDigits(delim, lo, hi);
    NoGlyphNoDigits(post, lo, hi);
    assert [] + DigitsIn(l, lo, hi) == DigitsIn(l, lo, hi);
    assert DigitsIn(l, lo, hi) + [] == DigitsIn(l, lo, hi);
    assert DigitsIn(l, lo, hi) + DigitsIn(r, lo, hi) + [] == DigitsIn(l, lo, hi) + DigitsIn(r, lo, hi);
  }

  /**
   * Framing of render: Fill(0) first exactly when pre_clear, the two
   * delimiter bars exactly when render_delim, RedrawTwice last exactly when
   * redraw; nothing else clears or flushes.
   */
  lemma {:induction false} ScoreRenderFraming(s: Score, x: int, preClear: bool, redraw: bool, renderDelim: bool)
    requires ValidScore(s)
    ensures var ops := RenderOps(s, x, preClear, redraw, renderDelim);
      && |ops| > 0
      && (ops[0] == Fill(0) <==> preClear)
      && (ops[|ops| - 1] == RedrawTwice <==> redraw)
      && (Fill(0) in ops <==> preClear)
      && (RedrawTwice in ops <==> redraw)
      && (HLine(DELIMITER_X + x, 7, 2, 1) in ops <==> renderDelim)
      && (HLine(DELIMITER_X + x, 8, 2, 1) in ops <==> renderDelim)
      && (forall side: Side :: ClearHalf(side) !in ops)
  {
    var halves := Compose(s);
    var l, r := HalfOps(halves.0, x), HalfOps(halves.1, x);
    HalfPlacement(halves.0, x);
    HalfPlacement(halves.1, x);
    var pre: seq<Op> := if preClear then [Fill(0)] else [];
    var delim: seq<Op> := if renderDelim then ScoreDelimiterOps(x) else [];
    var post: seq<Op> := if redraw then [RedrawTwice] else [];
    var ops := RenderOps(s, x, preClear, redraw, renderDelim);
    assert ops == pre + l + delim + r + post;
    assert Fill(0) !in l && Fill(0) !in r && RedrawTwice !in l && RedrawTwice !in r;
    assert HLine(DELIMITER_X + x, 7, 2, 1) !in l && HLine(DELIMITER_X + x, 7, 2, 1) !in r;
    assert HLine(DELIMITER_X + x, 8, 2, 1) !in l && HLine(DELIMITER_X + x, 8, 2, 1) !in r;
    forall side: Side
      ensures ClearHalf(side) !in ops
    {
      assert ClearHalf(side) !in l && ClearHalf(side) !in r;
    }
    var first := if preClear then Fill(0) else l[0];
    var last := if redraw then RedrawTwice else r[|r| - 1];
    assert ops[0] == first;
    assert ops[|ops| - 1] == last;
  }

  /** A score render never pauses. */
  lemma {:induction false} ScoreRenderPauseFree(s: Score, x: int, preClear: bool, redraw: bool, renderDelim: bool)
    requires ValidScore(s)
    ensures Yield !in RenderOps(s, x, preClear, redraw, renderDelim)
  {
    var halves := Compose(s);
    var l, r := HalfOps(halves.0, x), HalfOps(halves.1, x);
    HalfPlacement(halves.0, x);
    HalfPlacement(halves.1, x);
    var pre: seq<Op> := if preClear then [Fill(0)] else [];
    var delim: seq<Op> := if renderDelim then ScoreDelimiterOps(x) else [];
    var post: seq<Op> := if redraw then [RedrawTwice] else [];
    assert RenderOps(s, x, preClear, redraw, renderDelim) == pre + l + delim + r + post;
    assert Yield !in l && Yield !in r;
  }

  /** Cleared and flushed, a score render is the render asked for neither, set between one clear and one flush. */
  lemma {:induction false} ScoreRenderFramed(s: Score, x: int, renderDelim: bool)
    requires ValidScore(s)
    ensures RenderOps(s, x, true, true, renderDelim) == [Fill(0)] + RenderOps(s, x, false, false, renderDelim) + [RedrawTwice]
  {
    var halves := Compose(s);
    var l, r := HalfOps(halves.0, x), HalfOps(halves.1, x);
    var delim: seq<Op> := if renderDelim then ScoreDelimiterOps(x) else [];
    assert RenderOps(s, x, false, false, renderDelim) == [] + l + delim + r + [];
    assert RenderOps(s, x, true, true, renderDelim) == [Fill(0)] + l + delim + r + [RedrawTwice];
  }

  /** A score render that clears and flushes ends in its flush and never pauses. */
  lemma {:induction false} ScoreFrameFlushed(s: Score, x: int, renderDelim: bool)
    requires ValidScore(s)
    ensures var ops := RenderOps(s, x, true, true, renderDelim);
      |ops| > 0 && ops[|ops| - 1] == RedrawTwice && Yield !in ops
  {
    ScoreRenderFramed(s, x, renderDelim);
    ScoreRenderPauseFree(s, x, true, true, renderDelim);
  }

  /** The medium font is used, on both halves, exactly when a side has reached 20 (so 19 is big, 20 medium). */
  lemma {:induction false} FontChoice(s: Score, x: int, preClear: bool, redraw: bool, renderDelim: bool)
    requires ValidScore(s)
    ensures forall op :: op in RenderOps(s, x, preClear, redraw, renderDelim) && op.DrawGlyph? ==>
              (op.font == Medium <==> s.left >= 20 || s.right >= 20)
  {
    var halves := Compose(s);
    HalfPlacement(halves.0, x);
    HalfPlacement(halves.1, x);
    var pre: seq<Op> := if preClear then [Fill(0)] else [];
    var delim: seq<Op> := if renderDelim then ScoreDelimiterOps(x) else [];
    var post: seq<Op> := if redraw then [RedrawTwice] else [];
    assert RenderOps(s, x, preClear, redraw, renderDelim)
        == pre + HalfOps(halves.0, x) + delim + HalfOps(halves.1, x) + post;
  }

  /** 5:25 draws the left side in the medium font as "0" then "5". */
  lemma {:induction false} MediumLeftPadsWithZero()
    ensures HalfOps(Compose(Score(5, 25)).0, 0) == [DrawGlyph(Medium, 0, 0), DrawGlyph(Medium, 5, 8)]
  {
  }

  /** A single big "1" starts three columns right of any other single big digit. */
  lemma {:induction false} DigitOneShift(side: Side, x: int, d: int)
    requires IsDigit(d) && d != 1
    ensures HalfOps(SingleOneDigit(1, side), x)[0].x == HalfOps(SingleOneDigit(d, side), x)[0].x + 3
  {
  }

  /** The transition render_change shows between the old and the new score. */
  datatype Transition = BlankAll | BlankLeft | BlankRight | Flash

  /** Compares the stored score with the raw, unclamped new values. */
  function ChangeTransition(s: Score, lVal: int, rVal: int): (t: Transition)
    ensures t == BlankAll <==> s.left != lVal && s.right != rVal
    ensures t == BlankLeft <==> s.left != lVal && s.right == rVal
    ensures t == BlankRight <==> s.left == lVal && s.right != rVal
    ensures t == Flash <==> s.left == lVal && s.right == rVal
  {
    if s.left != lVal then
      if s.right != rVal then BlankAll else BlankLeft
    else if s.right != rVal then BlankRight
    else Flash
  }

  function TransitionOps(t: Transition, s: Score): seq<Op>
    requires ValidScore(s)
  {
    match t
    case BlankAll => [Fill(0), RedrawTwice]
    case BlankLeft => [ClearHalf(Left)]
    case BlankRight => [ClearHalf(Right)]
    case Flash => RenderOps(s, 0, true, true, false)
  }

  /** The whole trace of render_change: current score, pause, transition, commit, pause, new score. */
  function ChangeOps(s: Score, lVal: int, rVal: int): seq<Op>
    requires ValidScore(s)
  {
    RenderOps(s, 0, true, true, true) + [Yield]
    + TransitionOps(ChangeTransition(s, lVal, rVal), s) + [Yield]
    + RenderOps(Score(Clamp(lVal), Clamp(rVal)), 0, true, true, true)
  }

  /**
   * A side that does not change is never blanked by the transition: its half
   * is not cleared, and when the panel is filled (the Flash case) that side is
   * drawn again before the flush.
   */
  lemma {:induction false} ChangeKeepsUnchangedSide(s: Score, lVal: int, rVal: int)
    requires ValidScore(s)
    ensures var mid := TransitionOps(ChangeTransition(s, lVal, rVal), s);
      && (s.left == lVal ==> ClearHalf(Left) !in mid && ClearHalf(LeftAndRight) !in mid)
      && (s.right == rVal ==> ClearHalf(Right) !in mid && ClearHalf(LeftAndRight) !in mid)
      && (s.left == lVal && Fill(0) in mid ==> NumberOf(DigitsIn(mid, 0, DELIMITER_X)) == s.left)
      && (s.right == rVal && Fill(0) in mid ==> NumberOf(DigitsIn(mid, DELIMITER_X, PANEL_COLS)) == s.right)
  {
    var t := ChangeTransition(s, lVal, rVal);
    var mid := TransitionOps(t, s);
    match t {
      case BlankAll =>
        assert mid == [Fill(0), RedrawTwice];
        assert s.left != lVal && s.right != rVal;
      case BlankLeft =>
        assert mid == [ClearHalf(Left)];
        assert s.left != lVal && s.right == rVal;
      case BlankRight =>
        assert mid == [ClearHalf(Right)];
        assert s.left == lVal && s.right != rVal;
      case Flash =>
        FlashClearsNoHalf(s);
        FlashRedrawsScore(s);
    }
  }

  /** The Flash transition clears no half. */
  lemma {:induction false} FlashClearsNoHalf(s: Score)
    requires ValidScore(s)
    ensures forall side: Side :: ClearHalf(side) !in TransitionOps(Flash, s)
  {
    ScoreRenderFraming(s, 0, true, true, false);
  }

  /** The Flash transition redraws both sides of the current score. */
  lemma {:induction false} FlashRedrawsScore(s: Score)
    requires ValidScore(s)
    ensures NumberOf(DigitsIn(TransitionOps(Flash, s), 0, DELIMITER_X)) == s.left
    ensures NumberOf(DigitsIn(TransitionOps(Flash, s), DELIMITER_X, PANEL_COLS)) == s.right
  {
    ScoreReadBack(s, 0, true, true, false);
  }

  /** render_change(5, 7) from 5:5 blanks only the right half; render_change(5, 5) from 5:5 only flashes the delimiter. */
  lemma {:induction false} ChangeExamples()
    ensures ChangeTransition(Score(5, 5), 5, 7) == BlankRight
    ensures ChangeTransition(Score(5, 5), 5, 5) == Flash
    ensures TransitionOps(Flash, Score(5, 5)) == [Fill(0), DrawGlyph(Big, 5, 4), DrawGlyph(Big, 5, 20), RedrawTwice]
  {
  }

  /** The comparison uses the raw value: 150 over a stored 99 blanks the left half although the stored value stays 99. */
  lemma {:induction false} ChangeComparesRawValues()
    ensures ChangeTransition(Score(99, 5), 150, 5) == BlankLeft
    ensures Score(Clamp(150), Clamp(5)) == Score(99, 5)
  {
  }

  /** The half a one-sided transition blanks. */
  function BlankedSide(t: Transition): Side
    requires t == BlankLeft || t == BlankRight
  {
    if t == BlankLeft then Left else Right
  }

  /**
   * As written, a one-sided change clears its half of the framebuffer and
   * pauses without a flush, and the commit render that follows clears the
   * whole framebuffer first: the blanked half never reaches the panel, and
   * the trace pauses on a frame it has not flushed.
   */
  lemma {:induction false} HalfBlankNeverShown(s: Score, lVal: int, rVal: int)
    requires ValidScore(s)
    requires ChangeTransition(s, lVal, rVal) == BlankLeft || ChangeTransition(s, lVal, rVal) == BlankRight
    ensures var n := |RenderOps(s, 0, true, true, true)|;
      var ops := ChangeOps(s, lVal, rVal);
      && n + 4 <= |ops|
      && ops[n + 1..n + 4] == [ClearHalf(BlankedSide(ChangeTransition(s, lVal, rVal))), Yield, Fill(0)]
    ensures !FlushedBeforeEachPause(ChangeOps(s, lVal, rVal))
  {
    var t := ChangeTransition(s, lVal, rVal);
    var after := Score(Clamp(lVal), Clamp(rVal));
    var r0, r1 := RenderOps(s, 0, true, true, true), RenderOps(after, 0, true, true, true);
    ScoreRenderFramed(after, 0, true);
    assert TransitionOps(t, s) == [ClearHalf(BlankedSide(t))];
    UnflushedBlank(r0 + [Yield], BlankedSide(t), r1);
  }

  /** The transitions as render_change evidently means them: a blanked half is flushed before the pause. */
  function CorrectedTransitionOps(t: Transition, s: Score): seq<Op>
    requires ValidScore(s)
  {
    match t
    case BlankLeft => [ClearHalf(Left), RedrawTwice]
    case BlankRight => [ClearHalf(Right), RedrawTwice]
    case _ => TransitionOps(t, s)
  }

  /** render_change with the corrected transition. */
  function CorrectedChangeOps(s: Score, lVal: int, rVal: int): seq<Op>
    requires ValidScore(s)
  {
    RenderOps(s, 0, true, true, true) + [Yield]
    + CorrectedTransitionOps(ChangeTransition(s, lVal, rVal), s) + [Yield]
    + RenderOps(Score(Clamp(lVal), Clamp(rVal)), 0, true, true, true)
  }

  /**
   * The corrected transition adds only the flush after a blanked half, and
   * with it every pause of render_change follows a flush: the old score, the
   * transition and the new score are each seen.
   */
  lemma {:induction false} CorrectedChangeFlushesEveryPause(s: Score, lVal: int, rVal: int)
    requires ValidScore(s)
    ensures var t := ChangeTransition(s, lVal, rVal);
      CorrectedTransitionOps(t, s) == TransitionOps(t, s) + (if t == BlankLeft || t == BlankRight then [RedrawTwice] else [])
    ensures FlushedBeforeEachPause(CorrectedChangeOps(s, lVal, rVal))
  {
    var t := ChangeTransition(s, lVal, rVal);
    var after := Score(Clamp(lVal), Clamp(rVal));
    ScoreFrameFlushed(s, 0, true);
    ScoreFrameFlushed(after, 0, true);
    if t == Flash {
      ScoreFrameFlushed(s, 0, false);
    }
    FlushedBetweenPauses(RenderOps(s, 0, true, true, true), CorrectedTransitionOps(t, s), RenderOps(after, 0, true, true, true));
  }

  // ---------------------------------------------------------------------------
  // Clock (MxTime)

  function TimeDelimiterOps(x: int): seq<Op>
  {
    [HLine(DELIMITER_X + x, 4, 2, 1), HLine(DELIMITER_X + x, 5, 2, 1),
     HLine(DELIMITER_X + x, 10, 2, 1), HLine(DELIMITER_X + x, 11, 2, 1)]
  }

  /** What MxTime.render sends to the matrix: pre_clear and redraw are not consulted. */
  function TimeRenderOps(hours: int, minutes: int, x: int): seq<Op>
    requires IsTwoDigitNum(hours) && IsTwoDigitNum(minutes)
  {
    [Fill(0)] + TwoDigitNumOps(hours, x) + TimeDelimiterOps(x)
    + TwoDigitNumOps(minutes, x + MINUTES_X_SHIFT) + [RedrawTwice]
  }

  /**
   * The clock always clears first and flushes last; hours are drawn at x and
   * x + 8, minutes at x + 18 and x + 26, all in the medium font, and the
   * colon is four bars at column x + 15 on rows 4, 5, 10 and 11.
   */
  lemma {:induction false} TimeRenderLayout(hours: int, minutes: int, x: int)
    requires IsTwoDigitNum(hours) && IsTwoDigitNum(minutes)
    ensures var ops := TimeRenderOps(hours, minutes, x);
      && |ops| == 10
      && ops[0] == Fill(0) && ops[9] == RedrawTwice
      && ops[1] == DrawGlyph(Medium, hours / 10, x) && ops[2] == DrawGlyph(Medium, hours % 10, x + 8)
      && ops[7] == DrawGlyph(Medium, minutes / 10, x + 18) && ops[8] == DrawGlyph(Medium, minutes % 10, x + 26)
      && ops[3..7] == [HLine(x + 15, 4, 2, 1), HLine(x + 15, 5, 2, 1), HLine(x + 15, 10, 2, 1), HLine(x + 15, 11, 2, 1)]
  {
  }

  /** Round trip of the clock: the digits left of the colon spell the hours, those right of it the minutes. */
  lemma {:induction false} TimeReadBack(hours: int, minutes: int, x: int)
    requires IsTwoDigitNum(hours) && IsTwoDigitNum(minutes)
    ensures NumberOf(DigitsIn(TimeRenderOps(hours, minutes, x), x, x + DELIMITER_X)) == hours
    ensures NumberOf(DigitsIn(TimeRenderOps(hours, minutes, x), x + DELIMITER_X, x + PANEL_COLS)) == minutes
  {
    var y := x + MINUTES_X_SHIFT;
    TwoDigitNumReadBack(hours, x);
    GlyphsReadBack(TwoDigitNumOps(minutes, y), x, x + DELIMITER_X);
    GlyphsReadBack(TwoDigitNumOps(minutes, y), x + DELIMITER_X, x + PANEL_COLS);
    TimeDigits(hours, minutes, x, x, x + DELIMITER_X);
    TimeDigits(hours, minutes, x, x + DELIMITER_X, x + PANEL_COLS);
    assert DigitsIn(TwoDigitNumOps(hours, x), x, x + DELIMITER_X) + []
        == DigitsIn(TwoDigitNumOps(hours, x), x, x + DELIMITER_X);
    assert [] + DigitsIn(TwoDigitNumOps(minutes, y), x + DELIMITER_X, x + PANEL_COLS)
        == DigitsIn(TwoDigitNumOps(minutes, y), x + DELIMITER_X, x + PANEL_COLS);
  }

  /** Only the hour and minute glyphs of a clock render contribute digits. */
  lemma {:induction false} TimeDigits(hours: int, minutes: int, x: int, lo: int, hi: int)
    requires IsTwoDigitNum(hours) && IsTwoDigitNum(minutes)
    ensures DigitsIn(TimeRenderOps(hours, minutes, x), lo, hi)
         == DigitsIn(TwoDigitNumOps(hours, x), lo, hi) + DigitsIn(TwoDigitNumOps(minutes, x + MINUTES_X_SHIFT), lo, hi)
  {
    var pre: seq<Op> := [Fill(0)];
    var h, d, m := TwoDigitNumOps(hours, x), TimeDelimiterOps(x), TwoDigitNumOps(minutes, x + MINUTES_X_SHIFT);
    var post: seq<Op> := [RedrawTwice];
    assert TimeRenderOps(hours, minutes, x) == pre + h + d + m + post;
    DigitsInConcat(pre + h + d + m, post, lo, hi);
    DigitsInConcat(pre + h + d, m, lo, hi);
    DigitsInConcat(pre + h, d, lo, hi);
    DigitsInConcat(pre, h, lo, hi);
    NoGlyphNoDigits(pre, lo, hi);
    NoGlyphNoDigits(d, lo, hi);
    NoGlyphNoDigits(post, lo, hi);
    assert [] + DigitsIn(h, lo, hi) == DigitsIn(h, lo, hi);
    assert DigitsIn(h, lo, hi) + [] == DigitsIn(h, lo, hi);
    assert DigitsIn(h, lo, hi) + DigitsIn(m, lo, hi) + [] == DigitsIn(h, lo, hi) + DigitsIn(m, lo, hi);
  }

  /**
   * The clock render as its signature and the (disabled) date renderer
   * suggest it was meant: Fill(0) only when pre_clear, RedrawTwice only when
   * redraw. Used by the scheduler's expansion in place of TimeRenderOps.
   */
  function CorrectedTimeRenderOps(hours: int, minutes: int, x: int, preClear: bool, redraw: bool): seq<Op>
    requires IsTwoDigitNum(hours) && IsTwoDigitNum(minutes)
  {
    (if preClear then [Fill(0)] else []) + TwoDigitNumOps(hours, x) + TimeDelimiterOps(x)
    + TwoDigitNumOps(minutes, x + MINUTES_X_SHIFT) + (if redraw then [RedrawTwice] else [])
  }

  /**
   * The corrected clock draws exactly what the clock as written draws between
   * its clear and its flush, and clears and flushes only when asked to.
   */
  lemma {:induction false} CorrectedTimeFraming(hours: int, minutes: int, x: int, preClear: bool, redraw: bool)
    requires IsTwoDigitNum(hours) && IsTwoDigitNum(minutes)
    ensures var ops := CorrectedTimeRenderOps(hours, minutes, x, preClear, redraw);
      var drawn := TimeRenderOps(hours, minutes, x)[1..9];
      && ops == (if preClear then [Fill(0)] else []) + drawn + (if redraw then [RedrawTwice] else [])
      && (Fill(0) in ops <==> preClear)
      && (RedrawTwice in ops <==> redraw)
      && (forall side: Side :: ClearHalf(side) !in ops)
      && Yield !in ops
  {
    var h, d, m := TwoDigitNumOps(hours, x), TimeDelimiterOps(x), TwoDigitNumOps(minutes, x + MINUTES_X_SHIFT);
    TimeRenderLayout(hours, minutes, x);
    assert TimeRenderOps(hours, minutes, x)[1..9] == h + d + m;
    assert Fill(0) !in h + d + m && RedrawTwice !in h + d + m && Yield !in h + d + m;
  }

  // ---------------------------------------------------------------------------
  // The renderable objects

  class MxScore {
    var score: Score
    const matrix: Matrix

    predicate Valid()
      reads this
    {
      ValidScore(score)
    }

    constructor (matrix: Matrix)
      ensures this.matrix == matrix && score == Score(0, 0) && Valid()
    {
      this.matrix := matrix;
      score := Score(0, 0);
    }

    method SetScore(lVal: int, rVal: int)
      modifies this
      ensures score == Score(Clamp(lVal), Clamp(rVal)) && Valid()
    {
      SetLeft(lVal);
      SetRight(rVal);
    }

    method SetLeft(val: int)
      modifies this
      ensures score == old(score).(left := Clamp(val))
    {
      if val > MAX_SCORE {
        score := score.(left := MAX_SCORE);
      } else if val < MIN_SCORE {
        score := score.(left := MIN_SCORE);
      } else {
        score := score.(left := val);
      }
    }

    method SetRight(val: int)
      modifies this
      ensures score == old(score).(right := Clamp(val))
    {
      if val > MAX_SCORE {
        score := score.(right := MAX_SCORE);
      } else if val < MIN_SCORE {
        score := score.(right := MIN_SCORE);
      } else {
        score := score.(right := val);
      }
    }

    /** render of SingleOneDigit, SingleTwoDigit and SingleHigherTwoDigit. */
    method RenderHalf(h: Half, xShift: int)
      requires HalfValid(h)
      modifies matrix
      ensures matrix.log == old(matrix.log) + HalfOps(h, xShift)
    {
      match h
      case SingleOneDigit(d, side) =>
        var offset := xShift;
        if d == 1 {
          offset := offset + ONE_DIGIT_X_OFFSET_FOR_1;
        } else {
          offset := offset + ONE_DIGIT_X_OFFSET;
        }
        if side == Right {
          offset := offset + RIGHT_SIDE_X_OFFSET;
        }
        matrix.DrawGlyph(Big, d, offset);
      case SingleTwoDigit(t, o, side) =>
        var tensOffset, onesOffset := xShift, xShift;
        tensOffset := tensOffset + TENS_X_OFFSET;
        if o == 1 {
          onesOffset := onesOffset + ONES_X_OFFSET_FOR_1;
        } else {
          onesOffset := onesOffset + ONES_X_OFFSET;
        }
        if side == Right {
          tensOffset := tensOffset + RIGHT_SIDE_X_OFFSET;
          onesOffset := onesOffset + RIGHT_SIDE_X_OFFSET;
        }
        matrix.DrawGlyph(Big, t, tensOffset);
        matrix.DrawGlyph(Big, o, onesOffset);
      case SingleHigherTwoDigit(n, side) =>
        var x := xShift;
        if side == Right {
          x := x + RIGHT_SCORE_X_SHIFT;
        }
        RenderTwoDigitNum(matrix, n, x);
    }

    method RenderScoreDelimiter(xShift: int)
      modifies matrix
      ensures matrix.log == old(matrix.log) + ScoreDelimiterOps(xShift)
    {
      matrix.HLine(DELIMITER_X + xShift, 7, 2, 1);
      matrix.HLine(DELIMITER_X + xShift, 8, 2, 1);
    }

    /** Draws the score; the score itself is left as it is. */
    method Render(xShift: int, preClear: bool, redraw: bool, renderDelim: bool)
      requires Valid()
      modifies matrix
      ensures score == old(score)
      ensures matrix.log == old(matrix.log) + RenderOps(score, xShift, preClear, redraw, renderDelim)
    {
      ghost var log0 := matrix.log;
      if preClear {
        matrix.Fill(0);
      }
      ghost var log1 := matrix.log;
      var halves := Compose(score);
      RenderHalf(halves.0, xShift);
      ghost var log2 := matrix.log;
      if renderDelim {
        RenderScoreDelimiter(xShift);
      }
      ghost var log3 := matrix.log;
      RenderHalf(halves.1, xShift);
      ghost var log4 := matrix.log;
      if redraw {
        matrix.RedrawTwice();
      }
      ghost var pre: seq<Op> := if preClear then [Op.Fill(0)] else [];
      ghost var delim: seq<Op> := if renderDelim then ScoreDelimiterOps(xShift) else [];
      ghost var post: seq<Op> := if redraw then [Op.RedrawTwice] else [];
      assert log1 == log0 + pre;
      assert log3 == log2 + delim;
      assert matrix.log == log4 + post;
      Assoc5(log0, pre, HalfOps(halves.0, xShift), delim, HalfOps(halves.1, xShift), post);
    }

    /** The change animation; the two awaited sleeps are the two suspension points. */
    method RenderChange(lVal: int, rVal: int)
      requires Valid()
      modifies this, matrix
      ensures Valid() && score == Score(Clamp(lVal), Clamp(rVal))
      ensures matrix.log == old(matrix.log) + ChangeOps(old(score), lVal, rVal)
    {
      ghost var log0 := matrix.log;
      ghost var before := score;
      Render(0, true, true, true);
      matrix.Suspend();
      ghost var log1 := matrix.log;
      var t := ChangeTransition(score, lVal, rVal);
      match t {
        case BlankAll =>
          matrix.Fill(0);
          matrix.RedrawTwice();
        case BlankLeft =>
          matrix.ClearHalf(Left);
        case BlankRight =>
          matrix.ClearHalf(Right);
        case Flash =>
          Render(0, true, true, false);
      }
      ghost var log2 := matrix.log;
      assert log2 == log1 + TransitionOps(t, before);
      SetScore(lVal, rVal);
      matrix.Suspend();
      ghost var log3 := matrix.log;
      Render(0, true, true, true);
      Assoc5(log0, RenderOps(before, 0, true, true, true), [Yield], TransitionOps(t, before), [Yield],
                   RenderOps(score, 0, true, true, true));
    }
  }

  /** The clock; pull reads the real-time clock, whose reading is passed in. */
  class MxTime {
    var hours: int
    var minutes: int
    const matrix: Matrix

    constructor (matrix: Matrix, hours: int, minutes: int)
      ensures this.matrix == matrix && this.hours == hours && this.minutes == minutes
    {
      this.matrix := matrix;
      this.hours := hours;
      this.minutes := minutes;
    }

    method Pull(hours: int, minutes: int)
      modifies this
      ensures this.hours == hours && this.minutes == minutes
    {
      this.hours := hours;
      this.minutes := minutes;
    }

    method RenderTimeDelimiter(xShift: int)
      modifies matrix
      ensures matrix.log == old(matrix.log) + TimeDelimiterOps(xShift)
    {
      matrix.HLine(DELIMITER_X + xShift, 4, 2, 1);
      matrix.HLine(DELIMITER_X + xShift, 5, 2, 1);
      matrix.HLine(DELIMITER_X + xShift, 10, 2, 1);
      matrix.HLine(DELIMITER_X + xShift, 11, 2, 1);
    }

    /** Pulls the time, then draws it; preClear and redraw are accepted and ignored, as in the source. */
    method Render(xShift: int, preClear: bool, redraw: bool, rtcHours: int, rtcMinutes: int)
      requires IsTwoDigitNum(rtcHours) && IsTwoDigitNum(rtcMinutes)
      modifies this, matrix
      ensures hours == rtcHours && minutes == rtcMinutes
      ensures matrix.log == old(matrix.log) + TimeRenderOps(rtcHours, rtcMinutes, xShift)
    {
      Pull(rtcHours, rtcMinutes);
      matrix.Fill(0);
      RenderTwoDigitNum(matrix, hours, xShift);
      RenderTimeDelimiter(xShift);
      RenderTwoDigitNum(matrix, minutes, xShift + MINUTES_X_SHIFT);
      matrix.RedrawTwice();
    }
  }
}
