/**
 * The matrix driver, kept abstract. Its framebuffer, chip mapping and font
 * bitmaps are not part of this model: every call made on it is recorded, in
 * order, as one Op of a log. The log also records the points where the calling
 * coroutine suspends (Yield), so frame and step boundaries can be read off it,
 * and calls made on a renderable through the scheduler's Renderable interface
 * (Render).
 */
module Display {
  import opened Constants

  /** The two bitmap font catalogs. */
  datatype Font = Big | Medium

  /** A renderable handed to the view scheduler: the score, or the clock (one shared instance). */
  datatype Item = ScoreItem | TimeItem

  datatype Op =
    | Fill(value: int)
    | DrawGlyph(font: Font, digit: int, x: int)
    | HLine(x: int, y: int, len: int, value: int)
    | ClearHalf(side: Side)
    | RedrawTwice
    | TurnOn
    | TurnOff
    | Reinit(brightness: int)
    | Render(item: Item, x: int, preClear: bool, redraw: bool)
    | Yield

  /** An operation that pushes the framebuffer to the chips. */
  predicate Flushes(op: Op) {
    op == RedrawTwice || (op.Render? && op.redraw)
  }

  /** Every pause of a trace directly follows an operation that flushes the framebuffer to the panel. */
  ghost predicate FlushedBeforeEachPause(ops: seq<Op>)
  {
    forall i :: 0 <= i < |ops| && ops[i] == Yield ==> i > 0 && Flushes(ops[i - 1])
  }

  lemma {:induction false} FlushedConcat(a: seq<Op>, b: seq<Op>)
    requires FlushedBeforeEachPause(a) && FlushedBeforeEachPause(b)
    ensures FlushedBeforeEachPause(a + b)
  {
    forall i | 0 <= i < |a + b| && (a + b)[i] == Yield
      ensures i > 0 && Flushes((a + b)[i - 1])
    {
      if i < |a| {
        assert a[i] == Yield;
      } else {
        assert b[i - |a|] == Yield;
        assert (a + b)[i - 1] == b[i - |a| - 1];
      }
    }
  }

  /** A frame that ends in a flush and has no pause of its own, followed by its pause. */
  lemma {:induction false} FlushedFrame(a: seq<Op>)
    requires |a| > 0 && Flushes(a[|a| - 1]) && Yield !in a
    ensures FlushedBeforeEachPause(a + [Yield])
  {
    forall i | 0 <= i < |a + [Yield]| && (a + [Yield])[i] == Yield
      ensures i > 0 && Flushes((a + [Yield])[i - 1])
    {
      assert i == |a|;
    }
  }

  /** Three frames, each ending in a flush and without a pause of its own, joined by two pauses. */
  lemma {:induction false} FlushedBetweenPauses(a: seq<Op>, b: seq<Op>, c: seq<Op>)
    requires |a| > 0 && Flushes(a[|a| - 1]) && Yield !in a
    requires |b| > 0 && Flushes(b[|b| - 1]) && Yield !in b
    requires Yield !in c
    ensures FlushedBeforeEachPause(a + [Yield] + b + [Yield] + c)
  {
    FlushedFrame(a);
    FlushedFrame(b);
    assert FlushedBeforeEachPause(c);
    FlushedConcat(a + [Yield], b + [Yield]);
    FlushedConcat(a + [Yield] + (b + [Yield]), c);
    assert a + [Yield] + b + [Yield] + c == a + [Yield] + (b + [Yield]) + c;
  }

  /** A half cleared and left unflushed over a pause, then wiped by a full clear. */
  lemma {:induction false} UnflushedBlank(a: seq<Op>, side: Side, b: seq<Op>)
    requires |b| > 0 && b[0] == Fill(0)
    ensures var ops := a + [ClearHalf(side)] + [Yield] + b;
      && ops[|a|..|a| + 3] == [ClearHalf(side), Yield, Fill(0)]
      && !FlushedBeforeEachPause(ops)
  {
    var ops := a + [ClearHalf(side)] + [Yield] + b;
    assert ops[|a| + 1] == Yield && !Flushes(ops[|a|]);
  }

  // ---------------------------------------------------------------------------
  // Regrouping appended logs

  /** Three appended logs regrouped to the right. */
  lemma {:induction false} Assoc<T>(a: seq<T>, b: seq<T>, c: seq<T>)
    ensures a + b + c == a + (b + c)
  {
  }

  /** A log grown by five single appends is the old log followed by the five operations. */
  lemma {:induction false} AppendFive<T>(l0: seq<T>, l1: seq<T>, l2: seq<T>, l3: seq<T>, l4: seq<T>, l5: seq<T>)
    requires |l1| == |l0| + 1 && l1[..|l0|] == l0
    requires |l2| == |l1| + 1 && l2[..|l1|] == l1
    requires |l3| == |l2| + 1 && l3[..|l2|] == l2
    requires |l4| == |l3| + 1 && l4[..|l3|] == l3
    requires |l5| == |l4| + 1 && l5[..|l4|] == l4
    ensures l5 == l0 + [l1[|l0|], l2[|l1|], l3[|l2|], l4[|l3|], l5[|l4|]]
  {
  }

  /** Six appended logs regrouped: the first followed by the other five. */
  lemma {:induction false} Assoc5<T>(z: seq<T>, a: seq<T>, b: seq<T>, c: seq<T>, d: seq<T>, e: seq<T>)
    ensures z + a + b + c + d + e == z + (a + b + c + d + e)
  {
  }

  // ---------------------------------------------------------------------------
  // The driver

  class Matrix {
    var log: seq<Op>

    constructor ()
      ensures log == []
    {
      log := [];
    }

    method Fill(value: int)
      modifies this
      ensures log == old(log) + [Op.Fill(value)]
    {
      log := log + [Op.Fill(value)];
    }

    /** Places a glyph of the given font at column x (the font object's x_shift followed by its render). */
    method DrawGlyph(font: Font, digit: int, x: int)
      requires 0 <= digit <= 9
      modifies this
      ensures log == old(log) + [Op.DrawGlyph(font, digit, x)]
    {
      log := log + [Op.DrawGlyph(font, digit, x)];
    }

    method HLine(x: int, y: int, len: int, value: int)
      modifies this
      ensures log == old(log) + [Op.HLine(x, y, len, value)]
    {
      log := log + [Op.HLine(x, y, len, value)];
    }

    method ClearHalf(side: Side)
      modifies this
      ensures log == old(log) + [Op.ClearHalf(side)]
    {
      log := log + [Op.ClearHalf(side)];
    }

    method RedrawTwice()
      modifies this
      ensures log == old(log) + [Op.RedrawTwice]
    {
      log := log + [Op.RedrawTwice];
    }

    method TurnOn()
      modifies this
      ensures log == old(log) + [Op.TurnOn]
    {
      log := log + [Op.TurnOn];
    }

    method TurnOff()
      modifies this
      ensures log == old(log) + [Op.TurnOff]
    {
      log := log + [Op.TurnOff];
    }

    method ReinitDisplay(brightness: int)
      modifies this
      ensures log == old(log) + [Op.Reinit(brightness)]
    {
      log := log + [Op.Reinit(brightness)];
    }

    /** A render(x, pre_clear, redraw) call on a renderable, dispatched through the Renderable interface. */
    method RenderItem(item: Item, x: int, preClear: bool, redraw: bool)
      modifies this
      ensures log == old(log) + [Op.Render(item, x, preClear, redraw)]
    {
      log := log + [Op.Render(item, x, preClear, redraw)];
    }

    /** The calling coroutine suspends (an awaited sleep); other tasks may run. */
    method Suspend()
      modifies this
      ensures log == old(log) + [Op.Yield]
    {
      log := log + [Op.Yield];
    }
  }
}
