/**
 * The view scheduler of basic operation: it rebuilds an ordered list of
 * renderables from the configuration, then either alternates them (one whole
 * item per 2 s step) or scrolls them across the panel, checking its mode flag
 * before every frame. Another task stops it by switching the mode off
 * (disable); in this cooperative program that can only happen while the
 * viewer is suspended. The environment is a number `grace`: it lets that many
 * suspensions pass and calls disable at the next one. Every trace below is the
 * prefix, of `grace + 1` frames, of the trace the scheduler would emit if it
 * were never disabled.
 *
 * The renderables are reached through their common render(x_shift,
 * pre_clear, redraw) interface, recorded as Render ops; Expand replaces each
 * of them by the operations the score or the clock sends to the matrix.
 */
module View {
  import opened Constants
  import opened Data
  import opened Display
  import MxData

  /** Columns of blank space between two scrolled items. */
  const SPACE := 8
  /** Width, in columns, of one piece of information. */
  const ONE_INFO_LEN := 32

  datatype Mode = NoView | ScrollMode | AlternateMode

  /** The render list load builds: the score if it is enabled and attached, then the clock if it is enabled. */
  function RenderList(c: Config, hasScore: bool): (items: seq<Item>)
    ensures |items| <= 2
    ensures ScoreItem in items <==> c.useScore && hasScore
    ensures TimeItem in items <==> c.useTime
    ensures |items| == 2 ==> items == [ScoreItem, TimeItem]
  {
    (if c.useScore && hasScore then [ScoreItem] else []) + (if c.useTime then [TimeItem] else [])
  }

  /** The mode load selects. */
  function LoadedMode(c: Config): (m: Mode)
    ensures m != NoView
    ensures m == ScrollMode <==> c.scroll
  {
    if c.scroll then ScrollMode else AlternateMode
  }

  /** The item returned by the j-th call (from 0) of next() on a circular list over items. */
  function Next(items: seq<Item>, start: nat, j: nat): Item
    requires |items| > 0
  {
    items[(start + j) % |items|]
  }

  // ---------------------------------------------------------------------------
  // The frames

  /** Frame f of alternate: the f-th item, drawn whole with the default arguments, then the pause. */
  function AlternateFrame(items: seq<Item>, start: nat, f: nat): seq<Op>
    requires |items| > 0
  {
    [Render(Next(items, start, f), 0, true, true), Yield]
  }

  /** The first n frames of alternate. */
  function AlternateOps(items: seq<Item>, start: nat, n: nat): seq<Op>
    requires |items| > 0
  {
    if n == 0 then [] else AlternateOps(items, start, n - 1) + AlternateFrame(items, start, n - 1)
  }

  /** Frame k of _scroll_basic_info_1: the item alone at x_shift 32 - k, then the pause. */
  function Scroll1Frame(obj: Item, k: nat): seq<Op>
  {
    [Render(obj, ONE_INFO_LEN - k, true, true), Yield]
  }

  /** The first n frames of _scroll_basic_info_1. */
  function Scroll1Frames(obj: Item, n: nat): seq<Op>
  {
    if n == 0 then [] else Scroll1Frames(obj, n - 1) + Scroll1Frame(obj, n - 1)
  }

  /** Frame k of _scroll_basic_info_2: clear, both items without clearing or flushing, one flush, the pause. */
  function Scroll2Frame(obj1: Item, obj2: Item, k: nat): seq<Op>
  {
    [Fill(0), Render(obj1, -(k as int), false, false), Render(obj2, -(k as int) + SPACE + ONE_INFO_LEN, false, false), RedrawTwice, Yield]
  }

  /** The first n frames of _scroll_basic_info_2. */
  function Scroll2Frames(obj1: Item, obj2: Item, n: nat): seq<Op>
  {
    if n == 0 then [] else Scroll2Frames(obj1, obj2, n - 1) + Scroll2Frame(obj1, obj2, n - 1)
  }

  /**
   * The mode and the remaining grace after k frames of a scroll routine that
   * started in mode0: nothing is drawn unless it started in SCROLL, and the
   * viewer is disabled at the suspension after `grace` others.
   */
  ghost predicate FramesSpent(mode0: Mode, grace: nat, k: nat, mode: Mode, left: nat)
  {
    if mode0 != ScrollMode then k == 0 && mode == mode0 && left == grace
    else if k <= grace then mode == ScrollMode && left == grace - k
    else k == grace + 1 && mode == NoView && left == 0
  }

  /**
   * How many of its `len` frames a scroll routine started in mode0 draws: none
   * unless it started in SCROLL, and it stops after the frame whose pause is
   * the suspension at which the viewer is disabled (after `grace` others).
   */
  function FramesDrawn(mode0: Mode, grace: nat, len: nat): nat
  {
    if mode0 != ScrollMode then 0 else if grace < len then grace + 1 else len
  }

  /** A scroll routine that stops before its last frame because the mode changed has drawn FramesDrawn frames. */
  lemma {:induction false} FramesStop(mode0: Mode, grace: nat, k: nat, mode: Mode, left: nat, len: nat)
    requires FramesSpent(mode0, grace, k, mode, left) && k <= len && mode != ScrollMode
    ensures k == FramesDrawn(mode0, grace, len)
  {
  }

  /** The frame of _scroll at which round c (the c-th _scroll_basic_info_2 call, from 0) begins. */
  function RoundStart(c: nat): nat
  {
    ONE_INFO_LEN + (SPACE + ONE_INFO_LEN) * c
  }

  /** The round that frame f, past the first 32, of _scroll belongs to. */
  function RoundOf(f: nat): nat
    requires f >= ONE_INFO_LEN
  {
    if f < RoundStart(1) then 0 else RoundOf(f - (SPACE + ONE_INFO_LEN)) + 1
  }

  /** How far into its round frame f, past the first 32, of _scroll is. */
  function OffsetIn(f: nat): nat
    requires f >= ONE_INFO_LEN
  {
    if f < RoundStart(1) then f - ONE_INFO_LEN else OffsetIn(f - (SPACE + ONE_INFO_LEN))
  }

  /** Frame 32 + 40 c + k, for k < 40, is frame k of round c. */
  lemma {:induction false} RoundOfStart(c: nat, k: nat)
    requires k < SPACE + ONE_INFO_LEN
    ensures RoundOf(RoundStart(c) + k) == c && OffsetIn(RoundStart(c) + k) == k
  {
    if c > 0 {
      RoundOfStart(c - 1, k);
      assert RoundStart(c) + k - (SPACE + ONE_INFO_LEN) == RoundStart(c - 1) + k;
    }
  }

  /** Every frame past the first 32 lies in exactly one round: its round and offset are a quotient and remainder by 40. */
  lemma {:induction false} RoundDecomposition(f: nat)
    requires f >= ONE_INFO_LEN
    ensures f == RoundStart(RoundOf(f)) + OffsetIn(f) && OffsetIn(f) < SPACE + ONE_INFO_LEN
    ensures RoundOf(f) == (f - ONE_INFO_LEN) / (SPACE + ONE_INFO_LEN) && OffsetIn(f) == (f - ONE_INFO_LEN) % (SPACE + ONE_INFO_LEN)
  {
    if f >= RoundStart(1) {
      RoundDecomposition(f - (SPACE + ONE_INFO_LEN));
    }
  }

  /**
   * Frame f of _scroll: the 32 frames bringing in the first item, then rounds of
   * 40 frames, round c moving item c out and item c + 1 in.
   */
  function ScrollFrame(items: seq<Item>, start: nat, f: nat): seq<Op>
    requires |items| > 0
  {
    if f < ONE_INFO_LEN then Scroll1Frame(Next(items, start, 0), f)
    else Scroll2Frame(Next(items, start, RoundOf(f)), Next(items, start, RoundOf(f) + 1), OffsetIn(f))
  }

  /** The first n frames of _scroll. */
  function ScrollOps(items: seq<Item>, start: nat, n: nat): seq<Op>
    requires |items| > 0
  {
    if n == 0 then [] else ScrollOps(items, start, n - 1) + ScrollFrame(items, start, n - 1)
  }

  /** What view_info emits when the environment disables the viewer at the suspension after `grace` others. */
  function ViewTrace(c: Config, hasScore: bool, start: nat, grace: nat): seq<Op>
  {
    var items := RenderList(c, hasScore);
    if items == [] then []
    else if c.scroll then ScrollOps(items, start, grace + 1)
    else AlternateOps(items, start, grace + 1)
  }

  // ---------------------------------------------------------------------------
  // Properties of the frames

  /** _scroll_basic_info_1 draws its item at 32, 31, ..., one frame each, each frame ending in a pause. */
  lemma {:induction false} Scroll1Offsets(obj: Item, n: nat)
    ensures |Scroll1Frames(obj, n)| == 2 * n
    ensures forall k :: 0 <= k < n ==>
      Scroll1Frames(obj, n)[2 * k] == Render(obj, ONE_INFO_LEN - k, true, true) && Scroll1Frames(obj, n)[2 * k + 1] == Yield
  {
    if n > 0 {
      Scroll1Offsets(obj, n - 1);
    }
  }

  /** Every offset _scroll_basic_info_1 uses lies in [1, 32]: the item never reaches column 0 there. */
  lemma {:induction false} Scroll1NeverAtZero(obj: Item, n: nat)
    requires n <= ONE_INFO_LEN
    ensures forall op :: op in Scroll1Frames(obj, n) ==> op.Render? ==> 1 <= op.x <= ONE_INFO_LEN
  {
    Scroll1Offsets(obj, n);
    forall op | op in Scroll1Frames(obj, n) && op.Render?
      ensures 1 <= op.x <= ONE_INFO_LEN
    {
      var ops := Scroll1Frames(obj, n);
      var i :| 0 <= i < |ops| && ops[i] == op;
      var k := i / 2;
      assert ops[2 * k] == Render(obj, ONE_INFO_LEN - k, true, true) && ops[2 * k + 1] == Yield;
    }
  }

  /** The first 32 frames of _scroll are exactly those of _scroll_basic_info_1 on the first item. */
  lemma {:induction false} ScrollOpsOpening(items: seq<Item>, start: nat, n: nat)
    requires |items| > 0 && n <= ONE_INFO_LEN
    ensures ScrollOps(items, start, n) == Scroll1Frames(Next(items, start, 0), n)
  {
    if n > 0 {
      ScrollOpsOpening(items, start, n - 1);
    }
  }

  /** Frame k of round c of _scroll is frame k of _scroll_basic_info_2 on items c and c + 1. */
  lemma {:induction false} RoundFrame(items: seq<Item>, start: nat, c: nat, k: nat)
    requires |items| > 0 && k < SPACE + ONE_INFO_LEN
    ensures ScrollFrame(items, start, RoundStart(c) + k) == Scroll2Frame(Next(items, start, c), Next(items, start, c + 1), k)
  {
    RoundOfStart(c, k);
  }

  /** Round c of _scroll is _scroll_basic_info_2 moving item c out and item c + 1 in. */
  lemma {:induction false} ScrollOpsRound(items: seq<Item>, start: nat, c: nat, k: nat)
    requires |items| > 0 && k <= SPACE + ONE_INFO_LEN
    ensures ScrollOps(items, start, RoundStart(c) + k)
         == ScrollOps(items, start, RoundStart(c)) + Scroll2Frames(Next(items, start, c), Next(items, start, c + 1), k)
  {
    if k > 0 {
      var base := RoundStart(c);
      var obj1, obj2 := Next(items, start, c), Next(items, start, c + 1);
      var done, soFar, last := ScrollOps(items, start, base), Scroll2Frames(obj1, obj2, k - 1), Scroll2Frame(obj1, obj2, k - 1);
      ScrollOpsRound(items, start, c, k - 1);
      RoundFrame(items, start, c, k - 1);
      assert ScrollOps(items, start, base + k) == done + soFar + last;
      Assoc(done, soFar, last);
    } else {
      assert ScrollOps(items, start, RoundStart(c)) + [] == ScrollOps(items, start, RoundStart(c));
    }
  }

  /**
   * A call of _scroll_basic_info_2 on items c and c + 1 that draws m frames,
   * all 40 of them or fewer when cut short, continues the _scroll trace from
   * the start of round c.
   */
  lemma {:induction false} ScrollRoundStep(items: seq<Item>, start: nat, done: nat, c: nat, obj1: Item, obj2: Item, m: nat, total: nat,
                        log0: seq<Op>, before: seq<Op>, after: seq<Op>)
    requires |items| > 0 && done == RoundStart(c)
    requires obj1 == Next(items, start, c) && obj2 == Next(items, start, c + 1)
    requires m <= SPACE + ONE_INFO_LEN && total == done + m
    requires before == log0 + ScrollOps(items, start, done) && after == before + Scroll2Frames(obj1, obj2, m)
    ensures after == log0 + ScrollOps(items, start, total)
  {
    ScrollOpsRound(items, start, c, m);
    Assoc(log0, ScrollOps(items, start, done), Scroll2Frames(obj1, obj2, m));
  }

  /**
   * The j-th item of the circular list is drawn at column 32 + 40 j - f in
   * frame f: each item's position drops by exactly one column per frame, also
   * across the hand-over from one _scroll_basic_info_2 call (where it enters
   * as obj2 and ends at 1) to the next (where it is obj1 from 0).
   */
  lemma {:induction false} ScrollPositions(items: seq<Item>, start: nat, f: nat)
    requires |items| > 0
    ensures f < ONE_INFO_LEN ==>
      Render(Next(items, start, 0), ONE_INFO_LEN - f, true, true) in ScrollFrame(items, start, f)
    ensures f >= ONE_INFO_LEN ==>
      var c := (f - ONE_INFO_LEN) / (SPACE + ONE_INFO_LEN);
      && Render(Next(items, start, c), ONE_INFO_LEN + (SPACE + ONE_INFO_LEN) * c - f, false, false) in ScrollFrame(items, start, f)
      && Render(Next(items, start, c + 1), ONE_INFO_LEN + (SPACE + ONE_INFO_LEN) * (c + 1) - f, false, false) in ScrollFrame(items, start, f)
  {
    if f >= ONE_INFO_LEN {
      var c := (f - ONE_INFO_LEN) / (SPACE + ONE_INFO_LEN);
      var k := (f - ONE_INFO_LEN) % (SPACE + ONE_INFO_LEN);
      RoundDecomposition(f);
      assert ScrollFrame(items, start, f)[1] == Render(Next(items, start, c), -(k as int), false, false);
      assert ScrollFrame(items, start, f)[2] == Render(Next(items, start, c + 1), -(k as int) + SPACE + ONE_INFO_LEN, false, false);
    }
  }

  /** Scrolling never pauses on a frame it has not flushed. */
  lemma {:induction false} ScrollFlushesEveryFrame(items: seq<Item>, start: nat, n: nat)
    requires |items| > 0
    ensures FlushedBeforeEachPause(ScrollOps(items, start, n))
  {
    if n > 0 {
      ScrollFlushesEveryFrame(items, start, n - 1);
      FlushedConcat(ScrollOps(items, start, n - 1), ScrollFrame(items, start, n - 1));
    }
  }

  /** Alternating never pauses on a frame it has not flushed. */
  lemma {:induction false} AlternateFlushesEveryFrame(items: seq<Item>, start: nat, n: nat)
    requires |items| > 0
    ensures FlushedBeforeEachPause(AlternateOps(items, start, n))
  {
    if n > 0 {
      AlternateFlushesEveryFrame(items, start, n - 1);
      FlushedConcat(AlternateOps(items, start, n - 1), AlternateFrame(items, start, n - 1));
    }
  }

  /** Alternate shows the items whole, in circular order, one per frame. */
  lemma {:induction false} AlternateOrder(items: seq<Item>, start: nat, n: nat)
    requires |items| > 0
    ensures |AlternateOps(items, start, n)| == 2 * n
    ensures forall k :: 0 <= k < n ==>
      AlternateOps(items, start, n)[2 * k] == Render(items[(start + k) % |items|], 0, true, true)
      && AlternateOps(items, start, n)[2 * k + 1] == Yield
  {
    if n > 0 {
      AlternateOrder(items, start, n - 1);
    }
  }

  /** A shorter run is a prefix of a longer one: disabling later only extends the trace. */
  lemma {:induction false} ScrollOpsPrefix(items: seq<Item>, start: nat, n: nat, m: nat)
    requires |items| > 0 && n <= m
    ensures ScrollOps(items, start, n) <= ScrollOps(items, start, m)
  {
    if n < m {
      ScrollOpsPrefix(items, start, n, m - 1);
    }
  }

  /** A shorter run is a prefix of a longer one: disabling later only extends the trace. */
  lemma {:induction false} AlternateOpsPrefix(items: seq<Item>, start: nat, n: nat, m: nat)
    requires |items| > 0 && n <= m
    ensures AlternateOps(items, start, n) <= AlternateOps(items, start, m)
  {
    if n < m {
      AlternateOpsPrefix(items, start, n, m - 1);
    }
  }

  /** The number of pauses in a trace. */
  function Pauses(ops: seq<Op>): nat
  {
    if ops == [] then 0 else (if ops[0] == Yield then 1 else 0) + Pauses(ops[1..])
  }

  lemma {:induction false} PausesConcat(a: seq<Op>, b: seq<Op>)
    ensures Pauses(a + b) == Pauses(a) + Pauses(b)
  {
    if a == [] {
      assert a + b == b;
    } else {
      assert (a + b)[1..] == a[1..] + b;
      PausesConcat(a[1..], b);
    }
  }

  /**
   * view_info renders nothing when the list is empty, and otherwise exactly
   * grace + 1 frames: the disable that arrives at the suspension after grace
   * others stops it before the next frame.
   */
  lemma {:induction false} ViewTraceFrames(c: Config, hasScore: bool, start: nat, grace: nat)
    ensures RenderList(c, hasScore) == [] <==> ViewTrace(c, hasScore, start, grace) == []
    ensures RenderList(c, hasScore) != [] ==> Pauses(ViewTrace(c, hasScore, start, grace)) == grace + 1
  {
    var items := RenderList(c, hasScore);
    if items != [] {
      if c.scroll {
        ScrollPauses(items, start, grace + 1);
      } else {
        AlternatePauses(items, start, grace + 1);
      }
    }
  }

  lemma {:induction false} ScrollPauses(items: seq<Item>, start: nat, n: nat)
    requires |items| > 0
    ensures Pauses(ScrollOps(items, start, n)) == n
  {
    if n > 0 {
      ScrollPauses(items, start, n - 1);
      var frame := ScrollFrame(items, start, n - 1);
      PausesConcat(ScrollOps(items, start, n - 1), frame);
      OnePause(frame);
    }
  }

  lemma {:induction false} AlternatePauses(items: seq<Item>, start: nat, n: nat)
    requires |items| > 0
    ensures Pauses(AlternateOps(items, start, n)) == n
  {
    if n > 0 {
      AlternatePauses(items, start, n - 1);
      var frame := AlternateFrame(items, start, n - 1);
      PausesConcat(AlternateOps(items, start, n - 1), frame);
      OnePause(frame);
    }
  }

  /** A frame that ends in its only pause. */
  lemma {:induction false} OnePause(frame: seq<Op>)
    requires |frame| > 0 && frame[|frame| - 1] == Yield && Yield !in frame[..|frame| - 1]
    ensures Pauses(frame) == 1
  {
    var body := frame[..|frame| - 1];
    assert frame == body + [Yield];
    PausesConcat(body, [Yield]);
    NoPauses(body);
    assert [Yield][1..] == [];
  }

  lemma {:induction false} NoPauses(ops: seq<Op>)
    requires Yield !in ops
    ensures Pauses(ops) == 0
  {
    if ops != [] {
      assert ops[0] in ops;
      assert forall op :: op in ops[1..] ==> op in ops;
      NoPauses(ops[1..]);
    }
  }

  // ---------------------------------------------------------------------------
  // What the renderables send to the matrix

  /**
   * The operations a Render op stands for: the score's render (with the
   * delimiter), or the clock's, as written (ignoring pre_clear and redraw)
   * or as corrected (honouring them). The clock shows hours:minutes.
   */
  function ItemOps(item: Item, x: int, preClear: bool, redraw: bool, s: Score, hours: int, minutes: int, asWritten: bool): seq<Op>
    requires MxData.ValidScore(s) && MxData.IsTwoDigitNum(hours) && MxData.IsTwoDigitNum(minutes)
  {
    match item
    case ScoreItem => MxData.RenderOps(s, x, preClear, redraw, true)
    case TimeItem =>
      if asWritten then MxData.TimeRenderOps(hours, minutes, x)
      else MxData.CorrectedTimeRenderOps(hours, minutes, x, preClear, redraw)
  }

  /** One reading of the real-time clock, as pull() takes it. */
  datatype Reading = Reading(hours: int, minutes: int)

  /**
   * The clock as the renderables see it: the reading taken by the j-th render
   * call of a trace (calls numbered from 0 in trace order). The clock pulls
   * afresh on every render, so each call may show a different time.
   */
  type Clock = nat -> Reading

  /** Every reading is a two-digit hours and minutes. */
  ghost predicate ValidClock(clock: Clock)
  {
    forall j: nat :: MxData.IsTwoDigitNum(clock(j).hours) && MxData.IsTwoDigitNum(clock(j).minutes)
  }

  /**
   * What each renderable sends to the matrix for one render(x_shift,
   * pre_clear, redraw) call; the first argument is the call's number in the trace.
   */
  type Renderer = (nat, Item, int, bool, bool) -> seq<Op>

  /** The renderables of this program, showing score s; the clock shows the reading of each call. */
  function Renderables(s: Score, clock: Clock, asWritten: bool): Renderer
    requires MxData.ValidScore(s) && ValidClock(clock)
  {
    (j: nat, item: Item, x: int, preClear: bool, redraw: bool) =>
      ItemOps(item, x, preClear, redraw, s, clock(j).hours, clock(j).minutes, asWritten)
  }

  /** The number of render calls in a trace. */
  function RenderCalls(ops: seq<Op>): nat
  {
    if ops == [] then 0 else (if ops[0].Render? then 1 else 0) + RenderCalls(ops[1..])
  }

  /** A Render op, the j-th render call, replaced by the operations it stands for; any other op kept. */
  function ExpandOp(op: Op, render: Renderer, j: nat): seq<Op>
  {
    match op
    case Render(item, x, preClear, redraw) => render(j, item, x, preClear, redraw)
    case _ => [op]
  }

  /** A trace with every Render op replaced by the operations it stands for; j render calls came before it. */
  function Expand(ops: seq<Op>, render: Renderer, j: nat): seq<Op>
  {
    if ops == [] then []
    else ExpandOp(ops[0], render, j) + Expand(ops[1..], render, j + (if ops[0].Render? then 1 else 0))
  }

  lemma {:induction false} ExpandConcat(a: seq<Op>, b: seq<Op>, render: Renderer, j: nat)
    ensures Expand(a + b, render, j) == Expand(a, render, j) + Expand(b, render, j + RenderCalls(a))
  {
    if a == [] {
      assert a + b == b;
    } else {
      assert (a + b)[1..] == a[1..] + b;
      ExpandConcat(a[1..], b, render, j + (if a[0].Render? then 1 else 0));
    }
  }

  /**
   * A composed trace: each frame (the operations up to and including a pause)
   * begins with the one clear and ends with the one flush just before its
   * pause, nothing else clears or flushes, and the trace ends on a pause.
   */
  predicate ComposedTrace(ops: seq<Op>)
  {
    && (|ops| > 0 ==> ops[0] == Fill(0) && ops[|ops| - 1] == Yield)
    && (forall i :: 0 < i < |ops| ==> (ops[i] == Fill(0) <==> ops[i - 1] == Yield))
    && (forall i :: 0 <= i < |ops| - 1 ==> (ops[i] == RedrawTwice <==> ops[i + 1] == Yield))
  }

  /** Composed traces joined one after the other stay composed. */
  lemma {:induction false} ComposedConcat(a: seq<Op>, b: seq<Op>)
    requires ComposedTrace(a) && ComposedTrace(b)
    ensures ComposedTrace(a + b)
  {
    var ops := a + b;
    forall i | 0 < i < |ops|
      ensures ops[i] == Fill(0) <==> ops[i - 1] == Yield
    {
      if i < |a| {
        assert ops[i] == a[i] && ops[i - 1] == a[i - 1];
      } else if i == |a| {
        assert ops[i] == b[0] && ops[i - 1] == a[|a| - 1];
      } else {
        assert ops[i] == b[i - |a|] && ops[i - 1] == b[i - |a| - 1];
      }
    }
    forall i | 0 <= i < |ops| - 1
      ensures ops[i] == RedrawTwice <==> ops[i + 1] == Yield
    {
      if i < |a| - 1 {
        assert ops[i] == a[i] && ops[i + 1] == a[i + 1];
      } else if i == |a| - 1 {
        assert ops[i] == a[|a| - 1] && ops[i + 1] == b[0];
      } else {
        assert ops[i] == b[i - |a|] && ops[i + 1] == b[i - |a| + 1];
      }
    }
  }

  /** Two traces whose expansions are composed expand, joined, to a composed trace. */
  lemma {:induction false} ExpandComposed(a: seq<Op>, b: seq<Op>, render: Renderer, j: nat, jb: nat)
    requires jb == j + RenderCalls(a)
    requires ComposedTrace(Expand(a, render, j)) && ComposedTrace(Expand(b, render, jb))
    ensures ComposedTrace(Expand(a + b, render, j))
  {
    ExpandConcat(a, b, render, j);
    ComposedConcat(Expand(a, render, j), Expand(b, render, jb));
  }

  /** Operations that neither clear, flush nor pause, set between one clear and one flush, form a composed frame. */
  lemma {:induction false} QuietFrameComposed(a: seq<Op>)
    requires Fill(0) !in a && RedrawTwice !in a && Yield !in a
    ensures ComposedTrace([Fill(0)] + a + [RedrawTwice, Yield])
  {
    var ops := [Fill(0)] + a + [RedrawTwice, Yield];
    forall i | 0 < i < |ops|
      ensures ops[i] == Fill(0) <==> ops[i - 1] == Yield
    {
      if i <= |a| {
        assert ops[i] == a[i - 1];
      }
      if 1 < i <= |a| + 1 {
        assert ops[i - 1] == a[i - 2];
      }
    }
    forall i | 0 <= i < |ops| - 1
      ensures ops[i] == RedrawTwice <==> ops[i + 1] == Yield
    {
      if 0 < i <= |a| {
        assert ops[i] == a[i - 1];
      }
      if i < |a| {
        assert ops[i + 1] == a[i];
      }
    }
  }

  /** A frame of _scroll_basic_info_2 expands to the clear, the two render calls' operations, the flush and the pause. */
  lemma {:induction false} ExpandScroll2Frame(obj1: Item, obj2: Item, k: nat, render: Renderer, j: nat)
    ensures Expand(Scroll2Frame(obj1, obj2, k), render, j)
         == [Fill(0)] + render(j, obj1, -(k as int), false, false)
          + render(j + 1, obj2, -(k as int) + SPACE + ONE_INFO_LEN, false, false) + [RedrawTwice, Yield]
  {
    var frame := Scroll2Frame(obj1, obj2, k);
    var e1, e2 := render(j, obj1, -(k as int), false, false), render(j + 1, obj2, -(k as int) + SPACE + ONE_INFO_LEN, false, false);
    assert frame[4..][1..] == [];
    assert Expand(frame[4..], render, j + 2) == [Yield];
    assert Expand(frame[3..], render, j + 2) == [RedrawTwice, Yield];
    assert Expand(frame[2..], render, j + 1) == e2 + [RedrawTwice, Yield];
    assert Expand(frame[1..], render, j) == e1 + (e2 + [RedrawTwice, Yield]);
  }

  /** A frame drawing one item whole (as alternate and _scroll_basic_info_1 do) expands to that render call's operations and the pause. */
  lemma {:induction false} ExpandWholeFrame(obj: Item, x: int, render: Renderer, j: nat)
    ensures Expand([Render(obj, x, true, true), Yield], render, j) == render(j, obj, x, true, true) + [Yield]
  {
    var frame := [Render(obj, x, true, true), Yield];
    assert frame[1..][1..] == [];
    assert Expand(frame[1..], render, j + 1) == [Yield];
  }

  /**
   * A frame whose second render call clears and flushes on its own is not
   * composed: the call's clear follows the first call's operations, and its
   * flush comes just before the frame's own.
   */
  lemma {:induction false} SelfFramedSecondCall(e1: seq<Op>, e2: seq<Op>)
    requires |e2| > 0 && e2[0] == Fill(0) && e2[|e2| - 1] == RedrawTwice
    ensures var ops := [Fill(0)] + e1 + e2 + [RedrawTwice, Yield];
      && ops[|e1| + 1] == Fill(0)
      && ops[|e1| + |e2|] == RedrawTwice && ops[|e1| + |e2| + 1] == RedrawTwice
      && !ComposedTrace(ops)
  {
    var ops := [Fill(0)] + e1 + e2 + [RedrawTwice, Yield];
    assert ops[|e1| + 1] == e2[0];
    var i := |e1| + |e2|;
    assert ops[i] == e2[|e2| - 1] && ops[i + 1] == RedrawTwice;
  }

  /**
   * A frame of _scroll_basic_info_2 whose incoming item clears and flushes
   * even when asked not to is not composed: its clear follows the outgoing
   * item's operations.
   */
  lemma {:induction false} Scroll2FrameSelfFramed(obj1: Item, obj2: Item, k: nat, render: Renderer, j: nat)
    requires var e2 := render(j + 1, obj2, -(k as int) + SPACE + ONE_INFO_LEN, false, false);
      |e2| > 0 && e2[0] == Fill(0) && e2[|e2| - 1] == RedrawTwice
    ensures var ops := Expand(Scroll2Frame(obj1, obj2, k), render, j);
      var n := |render(j, obj1, -(k as int), false, false)|;
      var m := |render(j + 1, obj2, -(k as int) + SPACE + ONE_INFO_LEN, false, false)|;
      && n + m + 1 < |ops| && ops[n + 1] == Fill(0)
      && ops[n + m] == RedrawTwice && ops[n + m + 1] == RedrawTwice
      && !ComposedTrace(ops)
  {
    ExpandScroll2Frame(obj1, obj2, k, render, j);
    SelfFramedSecondCall(render(j, obj1, -(k as int), false, false), render(j + 1, obj2, -(k as int) + SPACE + ONE_INFO_LEN, false, false));
  }

  /**
   * As written, a scroll frame moving the score out and the clock in is not
   * composed: the clock's own Fill(0) comes after the score's glyphs and wipes
   * them, and the clock's own flush comes before the frame's.
   */
  lemma {:induction false} ScoreToTimeFrameNotComposed(k: nat, s: Score, clock: Clock, j: nat)
    requires MxData.ValidScore(s) && ValidClock(clock)
    ensures var ops := Expand(Scroll2Frame(ScoreItem, TimeItem, k), Renderables(s, clock, true), j);
      var n := |MxData.RenderOps(s, -(k as int), false, false, true)|;
      && n + 11 < |ops| && ops[n + 1] == Fill(0)
      && ops[n + 10] == RedrawTwice && ops[n + 11] == RedrawTwice
    ensures !ComposedTrace(Expand(Scroll2Frame(ScoreItem, TimeItem, k), Renderables(s, clock, true), j))
  {
    var x1, x2 := -(k as int), -(k as int) + SPACE + ONE_INFO_LEN;
    var render := Renderables(s, clock, true);
    var hours, minutes := clock(j + 1).hours, clock(j + 1).minutes;
    assert render(j, ScoreItem, x1, false, false) == MxData.RenderOps(s, x1, false, false, true);
    assert render(j + 1, TimeItem, x2, false, false) == MxData.TimeRenderOps(hours, minutes, x2);
    MxData.TimeRenderLayout(hours, minutes, x2);
    Scroll2FrameSelfFramed(ScoreItem, TimeItem, k, render, j);
  }

  /** A render call asked neither to clear nor to flush does neither, and never pauses. */
  predicate Quiet(render: Renderer, j: nat, item: Item, x: int)
  {
    && Fill(0) !in render(j, item, x, false, false)
    && RedrawTwice !in render(j, item, x, false, false)
    && Yield !in render(j, item, x, false, false)
  }

  /**
   * Renderables that honour pre_clear and redraw: asked for neither, a call is
   * quiet; asked for both, it is the quiet call between one clear and one flush.
   */
  ghost predicate WellFramed(render: Renderer)
  {
    forall j: nat, item: Item, x: int ::
      && Quiet(render, j, item, x)
      && render(j, item, x, true, true) == [Fill(0)] + render(j, item, x, false, false) + [RedrawTwice]
  }

  /** A frame of _scroll_basic_info_2 is composed when neither render call clears, flushes or pauses. */
  lemma {:induction false} Scroll2FrameComposedWith(obj1: Item, obj2: Item, k: nat, render: Renderer, j: nat)
    requires Quiet(render, j, obj1, -(k as int)) && Quiet(render, j + 1, obj2, -(k as int) + SPACE + ONE_INFO_LEN)
    ensures ComposedTrace(Expand(Scroll2Frame(obj1, obj2, k), render, j))
  {
    var e1, e2 := render(j, obj1, -(k as int), false, false), render(j + 1, obj2, -(k as int) + SPACE + ONE_INFO_LEN, false, false);
    ExpandScroll2Frame(obj1, obj2, k, render, j);
    QuietFrameComposed(e1 + e2);
    Assoc([Fill(0)], e1, e2);
  }

  /** With well-framed renderables a frame drawing one item whole is composed. */
  lemma {:induction false} WholeFrameComposed(obj: Item, x: int, render: Renderer, j: nat)
    requires WellFramed(render)
    ensures ComposedTrace(Expand([Render(obj, x, true, true), Yield], render, j))
  {
    ExpandWholeFrame(obj, x, render, j);
    assert Quiet(render, j, obj, x);
    QuietFrameComposed(render(j, obj, x, false, false));
    Assoc([Fill(0)] + render(j, obj, x, false, false), [RedrawTwice], [Yield]);
  }

  /** With well-framed renderables every frame of _scroll is composed. */
  lemma {:induction false} ScrollFrameComposed(items: seq<Item>, start: nat, f: nat, render: Renderer, j: nat)
    requires |items| > 0 && WellFramed(render)
    ensures ComposedTrace(Expand(ScrollFrame(items, start, f), render, j))
  {
    if f < ONE_INFO_LEN {
      WholeFrameComposed(Next(items, start, 0), ONE_INFO_LEN - f, render, j);
    } else {
      var c, k := RoundOf(f), OffsetIn(f);
      assert Quiet(render, j, Next(items, start, c), -(k as int));
      assert Quiet(render, j + 1, Next(items, start, c + 1), -(k as int) + SPACE + ONE_INFO_LEN);
      Scroll2FrameComposedWith(Next(items, start, c), Next(items, start, c + 1), k, render, j);
    }
  }

  /** With well-framed renderables the first f + 1 frames of _scroll, expanded, are a composed trace. */
  lemma {:induction false} ScrollStepComposed(items: seq<Item>, start: nat, f: nat, render: Renderer)
    requires |items| > 0 && WellFramed(render)
    ensures ComposedTrace(Expand(ScrollOps(items, start, f + 1), render, 0))
    decreases f + 1, 0
  {
    var done, frame := ScrollOps(items, start, f), ScrollFrame(items, start, f);
    assert ScrollOps(items, start, f + 1) == done + frame;
    ScrollComposed(items, start, f, render);
    ScrollFrameComposed(items, start, f, render, RenderCalls(done));
    ExpandComposed(done, frame, render, 0, RenderCalls(done));
  }

  /** With well-framed renderables the whole of _scroll, expanded, is a composed trace. */
  lemma {:induction false} ScrollComposed(items: seq<Item>, start: nat, n: nat, render: Renderer)
    requires |items| > 0 && WellFramed(render)
    ensures ComposedTrace(Expand(ScrollOps(items, start, n), render, 0))
    decreases n, 1
  {
    if n > 0 {
      ScrollStepComposed(items, start, n - 1, render);
    }
  }

  /** With well-framed renderables every frame of alternate is composed. */
  lemma {:induction false} AlternateFrameComposed(items: seq<Item>, start: nat, f: nat, render: Renderer, j: nat)
    requires |items| > 0 && WellFramed(render)
    ensures ComposedTrace(Expand(AlternateFrame(items, start, f), render, j))
  {
    WholeFrameComposed(Next(items, start, f), 0, render, j);
  }

  /** With well-framed renderables the first f + 1 frames of alternate, expanded, are a composed trace. */
  lemma {:induction false} AlternateStepComposed(items: seq<Item>, start: nat, f: nat, render: Renderer)
    requires |items| > 0 && WellFramed(render)
    ensures ComposedTrace(Expand(AlternateOps(items, start, f + 1), render, 0))
    decreases f + 1, 0
  {
    var done, frame := AlternateOps(items, start, f), AlternateFrame(items, start, f);
    assert AlternateOps(items, start, f + 1) == done + frame;
    AlternateComposed(items, start, f, render);
    AlternateFrameComposed(items, start, f, render, RenderCalls(done));
    ExpandComposed(done, frame, render, 0, RenderCalls(done));
  }

  /** With well-framed renderables the whole of alternate, expanded, is a composed trace. */
  lemma {:induction false} AlternateComposed(items: seq<Item>, start: nat, n: nat, render: Renderer)
    requires |items| > 0 && WellFramed(render)
    ensures ComposedTrace(Expand(AlternateOps(items, start, n), render, 0))
    decreases n, 1
  {
    if n > 0 {
      AlternateStepComposed(items, start, n - 1, render);
    }
  }

  /** With the corrected clock, a render call asked neither to clear nor to flush does neither, and never pauses. */
  lemma {:induction false} RenderablesQuiet(j: nat, item: Item, x: int, s: Score, clock: Clock)
    requires MxData.ValidScore(s) && ValidClock(clock)
    ensures Quiet(Renderables(s, clock, false), j, item, x)
  {
    match item {
      case ScoreItem =>
        MxData.ScoreRenderFraming(s, x, false, false, true);
        MxData.ScoreRenderPauseFree(s, x, false, false, true);
      case TimeItem => MxData.CorrectedTimeFraming(clock(j).hours, clock(j).minutes, x, false, false);
    }
  }

  /** With the corrected clock the program's renderables are well framed. */
  lemma {:induction false} RenderablesWellFramed(s: Score, clock: Clock)
    requires MxData.ValidScore(s) && ValidClock(clock)
    ensures WellFramed(Renderables(s, clock, false))
  {
    var render := Renderables(s, clock, false);
    forall j: nat, item: Item, x: int
      ensures Quiet(render, j, item, x)
      ensures render(j, item, x, true, true) == [Fill(0)] + render(j, item, x, false, false) + [RedrawTwice]
    {
      RenderablesQuiet(j, item, x, s, clock);
      var hours, minutes := clock(j).hours, clock(j).minutes;
      match item {
        case ScoreItem => MxData.ScoreRenderFramed(s, x, true);
        case TimeItem =>
          MxData.CorrectedTimeFraming(hours, minutes, x, true, true);
          MxData.CorrectedTimeFraming(hours, minutes, x, false, false);
      }
    }
  }

  /**
   * With the corrected clock everything view_info draws, expanded down to the
   * matrix operations, is a composed trace: every frame is one clear, the
   * items, one flush and the pause, whatever time each clock render reads.
   */
  lemma {:induction false} ViewTraceComposed(c: Config, hasScore: bool, start: nat, grace: nat, s: Score, clock: Clock)
    requires MxData.ValidScore(s) && ValidClock(clock)
    ensures ComposedTrace(Expand(ViewTrace(c, hasScore, start, grace), Renderables(s, clock, false), 0))
  {
    var items := RenderList(c, hasScore);
    var render := Renderables(s, clock, false);
    if items != [] {
      RenderablesWellFramed(s, clock);
      if c.scroll {
        ScrollComposed(items, start, grace + 1, render);
      } else {
        AlternateComposed(items, start, grace + 1, render);
      }
    }
  }

  // ---------------------------------------------------------------------------
  // The scheduler

  class BasicViewer {
    var config: Config
    /** The score renderable, attached by the application after construction. */
    var score: MxData.MxScore?
    var toRender: seq<Item>
    var viewMode: Mode
    const matrix: Matrix

    constructor (matrix: Matrix)
      ensures this.matrix == matrix && score == null
      ensures config == Config(true, false, true, false, INITIAL_BRIGHTNESS)
      ensures toRender == [TimeItem] && viewMode == AlternateMode
    {
      this.matrix := matrix;
      config := Config(true, false, true, false, INITIAL_BRIGHTNESS);
      score := null;
      new;
      Load();
    }

    /** Rebuild the render list from scratch and pick the mode from the configuration. */
    method Load()
      modifies this`toRender, this`viewMode
      ensures toRender == RenderList(config, score != null)
      ensures viewMode == LoadedMode(config)
    {
      toRender := [];
      if config.useScore && score != null {
        toRender := toRender + [ScoreItem];
      }
      if config.useTime {
        toRender := toRender + [TimeItem];
      }
      if config.scroll {
        viewMode := ScrollMode;
      } else {
        viewMode := AlternateMode;
      }
    }

    method Disable()
      modifies this`viewMode
      ensures viewMode == NoView
    {
      viewMode := NoView;
    }

    /**
     * An awaited sleep. The environment disables the viewer at this
     * suspension when its grace is used up; otherwise one unit of grace is spent.
     */
    method Suspend(grace: nat) returns (left: nat)
      modifies matrix, this`viewMode
      ensures matrix.log == old(matrix.log) + [Yield]
      ensures grace == 0 ==> viewMode == NoView && left == 0
      ensures grace > 0 ==> viewMode == old(viewMode) && left == grace - 1
    {
      matrix.Suspend();
      if grace == 0 {
        Disable();
        left := 0;
      } else {
        left := grace - 1;
      }
    }

    /** One frame of _scroll_basic_info_1, at x_shift = 32 - k, ending with its pause. */
    method DrawScroll1Frame(obj: Item, k: nat, grace: nat) returns (left: nat)
      requires k <= ONE_INFO_LEN
      modifies matrix, this`viewMode
      ensures matrix.log == old(matrix.log) + Scroll1Frame(obj, k)
      ensures grace == 0 ==> viewMode == NoView && left == 0
      ensures grace > 0 ==> viewMode == old(viewMode) && left == grace - 1
    {
      matrix.RenderItem(obj, ONE_INFO_LEN - k, true, true);
      left := Suspend(grace);
    }

    /** One item scrolled in from the right, at offsets 32 down to 1, while the mode stays SCROLL. */
    method ScrollBasicInfo1(obj: Item, grace: nat) returns (left: nat)
      modifies matrix, this`viewMode
      ensures matrix.log == old(matrix.log) + Scroll1Frames(obj, FramesDrawn(old(viewMode), grace, ONE_INFO_LEN))
      ensures FramesSpent(old(viewMode), grace, FramesDrawn(old(viewMode), grace, ONE_INFO_LEN), viewMode, left)
    {
      left := grace;
      for k := 0 to ONE_INFO_LEN
        invariant matrix.log == old(matrix.log) + Scroll1Frames(obj, k)
        invariant FramesSpent(old(viewMode), grace, k, viewMode, left)
      {
        if viewMode != ScrollMode {
          FramesStop(old(viewMode), grace, k, viewMode, left, ONE_INFO_LEN);
          break;
        }
        left := DrawScroll1Frame(obj, k, left);
        Assoc(old(matrix.log), Scroll1Frames(obj, k), Scroll1Frame(obj, k));
      }
    }

    /** One frame of _scroll_basic_info_2, at x_shift = -k, ending with its pause. */
    method DrawScroll2Frame(obj1: Item, obj2: Item, k: nat, grace: nat) returns (left: nat)
      modifies matrix, this`viewMode
      ensures matrix.log == old(matrix.log) + Scroll2Frame(obj1, obj2, k)
      ensures grace == 0 ==> viewMode == NoView && left == 0
      ensures grace > 0 ==> viewMode == old(viewMode) && left == grace - 1
    {
      ghost var log0 := matrix.log;
      matrix.Fill(0);
      ghost var log1 := matrix.log;
      matrix.RenderItem(obj1, -(k as int), false, false);
      ghost var log2 := matrix.log;
      matrix.RenderItem(obj2, -(k as int) + SPACE + ONE_INFO_LEN, false, false);
      ghost var log3 := matrix.log;
      matrix.RedrawTwice();
      ghost var log4 := matrix.log;
      left := Suspend(grace);
      AppendFive(log0, log1, log2, log3, log4, matrix.log);
    }

    /** obj1 scrolled out to the left while obj2 follows 40 columns behind it, while the mode stays SCROLL. */
    method ScrollBasicInfo2(obj1: Item, obj2: Item, grace: nat) returns (left: nat)
      modifies matrix, this`viewMode
      ensures matrix.log == old(matrix.log) + Scroll2Frames(obj1, obj2, FramesDrawn(old(viewMode), grace, SPACE + ONE_INFO_LEN))
      ensures FramesSpent(old(viewMode), grace, FramesDrawn(old(viewMode), grace, SPACE + ONE_INFO_LEN), viewMode, left)
    {
      left := grace;
      for k := 0 to SPACE + ONE_INFO_LEN
        invariant matrix.log == old(matrix.log) + Scroll2Frames(obj1, obj2, k)
        invariant FramesSpent(old(viewMode), grace, k, viewMode, left)
      {
        if viewMode != ScrollMode {
          FramesStop(old(viewMode), grace, k, viewMode, left, SPACE + ONE_INFO_LEN);
          break;
        }
        left := DrawScroll2Frame(obj1, obj2, k, left);
        Assoc(old(matrix.log), Scroll2Frames(obj1, obj2, k), Scroll2Frame(obj1, obj2, k));
      }
    }

    /** _scroll: the first item scrolled in, then item after item scrolled through, until the mode changes. */
    method Scroll(start: nat, grace: nat) returns (left: nat)
      modifies matrix, this`viewMode
      ensures toRender == [] || old(viewMode) != ScrollMode ==>
        viewMode == old(viewMode) && left == grace && matrix.log == old(matrix.log)
      ensures toRender != [] && old(viewMode) == ScrollMode ==>
        viewMode == NoView && left == 0 && matrix.log == old(matrix.log) + ScrollOps(toRender, start, grace + 1)
    {
      left := grace;
      var items := toRender;
      if items != [] {
        ghost var log0 := matrix.log;
        ghost var mode0 := viewMode;
        var obj1 := Next(items, start, 0);
        left := ScrollBasicInfo1(obj1, left);
        ghost var intro := FramesDrawn(mode0, grace, ONE_INFO_LEN);
        ScrollOpsOpening(items, start, intro);
        left := ScrollRounds(items, start, obj1, left, mode0 == ScrollMode, log0, intro, grace + 1);
      }
    }

    /**
     * The while loop of _scroll, entered after the first item has been
     * scrolled in (the first `intro` frames): one _scroll_basic_info_2 call
     * per round, handing each item over from obj2 to obj1, while the mode stays SCROLL.
     */
    method ScrollRounds(items: seq<Item>, start: nat, first: Item, grace: nat,
                        ghost scrolling: bool, ghost log0: seq<Op>, ghost intro: nat, ghost total: nat)
      returns (left: nat)
      requires |items| > 0 && first == Next(items, start, 0)
      requires !scrolling ==> viewMode != ScrollMode
      requires scrolling ==> matrix.log == log0 + ScrollOps(items, start, intro)
      requires scrolling && viewMode == ScrollMode ==> intro == ONE_INFO_LEN && total == intro + grace + 1
      requires scrolling && viewMode != ScrollMode ==> viewMode == NoView && grace == 0 && intro == total
      modifies matrix, this`viewMode
      ensures !scrolling ==> viewMode == old(viewMode) && left == grace && matrix.log == old(matrix.log)
      ensures scrolling ==> viewMode == NoView && left == 0 && matrix.log == log0 + ScrollOps(items, start, total)
    {
      left := grace;
      var calls := 0;
      var obj1 := first;
      ghost var frames: nat := intro;
      while viewMode == ScrollMode
        invariant obj1 == Next(items, start, calls)
        invariant !scrolling ==> viewMode == old(viewMode) && left == grace && matrix.log == old(matrix.log)
        invariant scrolling ==> matrix.log == log0 + ScrollOps(items, start, frames)
        invariant scrolling && viewMode == ScrollMode ==> frames == RoundStart(calls) && frames + left + 1 == total
        invariant scrolling && viewMode != ScrollMode ==> viewMode == NoView && left == 0 && frames == total
        decreases left + (if viewMode == ScrollMode then 1 else 0)
      {
        var obj2 := Next(items, start, calls + 1);
        ghost var before := matrix.log;
        ghost var rest := left;
        left := ScrollBasicInfo2(obj1, obj2, left);
        if viewMode == ScrollMode {
          ScrollRoundStep(items, start, frames, calls, obj1, obj2, SPACE + ONE_INFO_LEN, RoundStart(calls + 1), log0, before, matrix.log);
          frames := RoundStart(calls + 1);
        } else {
          ScrollRoundStep(items, start, frames, calls, obj1, obj2, rest + 1, total, log0, before, matrix.log);
          frames := total;
        }
        obj1 := obj2;
        calls := calls + 1;
      }
    }

    /** _alternate: the next item drawn whole at every step, until the mode changes. */
    method Alternate(start: nat, grace: nat) returns (left: nat)
      modifies matrix, this`viewMode
      ensures toRender == [] || old(viewMode) != AlternateMode ==>
        viewMode == old(viewMode) && left == grace && matrix.log == old(matrix.log)
      ensures toRender != [] && old(viewMode) == AlternateMode ==>
        viewMode == NoView && left == 0 && matrix.log == old(matrix.log) + AlternateOps(toRender, start, grace + 1)
    {
      left := grace;
      if toRender != [] {
        var calls := 0;
        while viewMode == AlternateMode
          invariant old(viewMode) != AlternateMode ==> calls == 0 && viewMode == old(viewMode) && left == grace
          invariant matrix.log == old(matrix.log) + AlternateOps(toRender, start, calls)
          invariant old(viewMode) == AlternateMode && viewMode == AlternateMode ==> calls <= grace && left == grace - calls
          invariant old(viewMode) == AlternateMode && viewMode != AlternateMode ==>
            viewMode == NoView && left == 0 && calls == grace + 1
          decreases left + (if viewMode == AlternateMode then 1 else 0)
        {
          ghost var before := matrix.log;
          matrix.RenderItem(Next(toRender, start, calls), 0, true, true);
          left := Suspend(left);
          assert matrix.log == before + AlternateFrame(toRender, start, calls);
          calls := calls + 1;
        }
      }
    }

    /** view_info: load, then scroll or alternate according to the loaded mode. */
    method ViewInfo(start: nat, grace: nat) returns (left: nat)
      modifies this`toRender, this`viewMode, matrix
      ensures toRender == RenderList(config, score != null)
      ensures matrix.log == old(matrix.log) + ViewTrace(config, score != null, start, grace)
      ensures toRender == [] ==> viewMode == LoadedMode(config) && left == grace
      ensures toRender != [] ==> viewMode == NoView && left == 0
    {
      Load();
      if viewMode == ScrollMode {
        left := Scroll(start, grace);
      } else {
        left := Alternate(start, grace);
      }
    }
  }
}
