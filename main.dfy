/**
 * The application: the control flags shared by the button handlers and the
 * two cooperative tasks, the debounce that gates a handler, and one step of
 * each task (`basic_operation` shows information while in basic mode,
 * `setting_operation` shows the side being set and returns to basic mode).
 */
module AppMain {
  import opened Constants
  import opened Data
  import opened Display
  import MxData
  import View

  /** Smallest tick difference, in milliseconds, that lets a second change through. */
  const MIN_TICKS_DIFF: int := 200

  /** The application's flags, all updated in place by the handlers and tasks. */
  datatype Flags = Flags(
    setLeftScore: bool,
    setRightScore: bool,
    brightnessChanged: bool,
    scoreReset: bool,
    revertScore: bool,
    exit: bool,
    basicMode: bool,
    displayOn: bool,
    lastButton: int,
    exitCnt: int)

  /** The flags right after start-up. */
  const INITIAL_FLAGS: Flags :=
    Flags(false, false, false, false, false, false, true, true, 0x00, 0)

  /** A change that a button handler hands to the debounce. */
  datatype Command = BtnLeft | ToggleOnOff | ReinitDisplay | ExitProgram

  /** The debounce condition on the wrapped tick difference; a negative difference also passes. */
  predicate NotTooFast(diff: int)
  {
    diff > MIN_TICKS_DIFF || diff < 0
  }

  /** The flags after a command has run. */
  function AfterCommand(f: Flags, cmd: Command): Flags
  {
    match cmd
    case BtnLeft => if f.basicMode then f.(setLeftScore := true, basicMode := false) else f
    case ToggleOnOff => f.(displayOn := !f.displayOn)
    case ReinitDisplay => f
    case ExitProgram => f.(exit := true, basicMode := false)
  }

  /** What a command does to the display, given the flags before it and the stored score. */
  function CommandOps(f: Flags, cmd: Command, s: Score): seq<Op>
    requires MxData.ValidScore(s)
  {
    match cmd
    case BtnLeft => if f.basicMode then MxData.RenderOps(s, 0, true, true, true) else []
    case ToggleOnOff => if f.displayOn then [TurnOff] else [TurnOn]
    case ReinitDisplay => [Reinit(INITIAL_BRIGHTNESS)]
    case ExitProgram => []
  }

  /** The half cleared to show which side is being set: left wins when both flags are up. */
  function SettingSide(f: Flags): Side
  {
    if f.setLeftScore then Left else Right
  }

  /** The flags after one pass of the setting task's loop body. */
  function AfterSetting(f: Flags): Flags
  {
    if f.basicMode then f else f.(basicMode := true)
  }

  /** A pass of the setting task's loop body shows something: a side is chosen outside basic mode. */
  predicate ShowsSetting(f: Flags)
  {
    !f.basicMode && (f.setLeftScore || f.setRightScore)
  }

  /** What a showing pass of the setting task's loop body draws: clear the chosen half, wait, render the score, wait. */
  function SettingShownOps(f: Flags, s: Score): seq<Op>
    requires MxData.ValidScore(s)
  {
    if ShowsSetting(f)
    then [ClearHalf(SettingSide(f))] + [Yield] + MxData.RenderOps(s, 0, true, true, true) + [Yield]
    else []
  }

  /** What one pass of the setting task's loop body does to the display: what it shows, then always the final zero-length sleep. */
  function SettingOps(f: Flags, s: Score): seq<Op>
    requires MxData.ValidScore(s)
  {
    SettingShownOps(f, s) + [Yield]
  }

  /**
   * As written, a showing pass clears the chosen half and pauses without a
   * flush, and the score render after the pause clears the whole framebuffer
   * first: the blanked half never reaches the panel.
   */
  lemma {:induction false} SettingHalfBlankNeverShown(f: Flags, s: Score)
    requires MxData.ValidScore(s) && ShowsSetting(f)
    ensures |SettingShownOps(f, s)| >= 3
    ensures SettingShownOps(f, s)[..3] == [ClearHalf(SettingSide(f)), Yield, Fill(0)]
    ensures !FlushedBeforeEachPause(SettingShownOps(f, s))
  {
    var r := MxData.RenderOps(s, 0, true, true, true);
    MxData.ScoreRenderFramed(s, 0, true);
    var blank: seq<Op> := [ClearHalf(SettingSide(f))];
    UnflushedBlank([], SettingSide(f), r + [Yield]);
    assert [] + blank == blank;
    Assoc(blank + [Yield], r, [Yield]);
  }

  /** A showing pass as the setting task evidently means it: the blanked half is flushed before the pause. */
  function CorrectedSettingShownOps(f: Flags, s: Score): seq<Op>
    requires MxData.ValidScore(s)
  {
    if ShowsSetting(f)
    then [ClearHalf(SettingSide(f)), RedrawTwice] + [Yield] + MxData.RenderOps(s, 0, true, true, true) + [Yield]
    else []
  }

  /**
   * The corrected pass shows the chosen half blank, then the score: it adds
   * only the flush after the clear, and every one of its pauses follows a flush.
   */
  lemma {:induction false} CorrectedSettingFlushesEveryPause(f: Flags, s: Score)
    requires MxData.ValidScore(s)
    ensures |CorrectedSettingShownOps(f, s)| == (if ShowsSetting(f) then |SettingShownOps(f, s)| + 1 else 0)
    ensures ShowsSetting(f) ==> CorrectedSettingShownOps(f, s)[..3] == [ClearHalf(SettingSide(f)), RedrawTwice, Yield]
    ensures ShowsSetting(f) ==> CorrectedSettingShownOps(f, s)[2..] == SettingShownOps(f, s)[1..]
    ensures FlushedBeforeEachPause(CorrectedSettingShownOps(f, s))
  {
    if ShowsSetting(f) {
      var r := MxData.RenderOps(s, 0, true, true, true);
      MxData.ScoreFrameFlushed(s, 0, true);
      var shown := [ClearHalf(SettingSide(f)), RedrawTwice] + [Yield] + r + [Yield];
      FlushedBetweenPauses([ClearHalf(SettingSide(f)), RedrawTwice], r, []);
      assert shown + [] == shown;
      assert SettingShownOps(f, s)[1..] == [Yield] + r + [Yield];
    }
  }

  /** A change passes the debounce exactly outside the window [0, 200]. */
  lemma {:induction false} DebounceWindow(diff: int)
    ensures !NotTooFast(diff) <==> 0 <= diff <= MIN_TICKS_DIFF
    ensures NotTooFast(MIN_TICKS_DIFF + 1) && !NotTooFast(MIN_TICKS_DIFF)
    ensures !NotTooFast(0) && NotTooFast(-1)
  {
  }

  /** The left button in basic mode draws the whole score: cleared first, flushed last, both halves apart. */
  lemma {:induction false} BtnLeftShowsScore(f: Flags, s: Score)
    requires MxData.ValidScore(s) && f.basicMode
    ensures var ops := CommandOps(f, BtnLeft, s);
      && |ops| > 0 && ops[0] == Fill(0) && ops[|ops| - 1] == RedrawTwice
      && HLine(MxData.DELIMITER_X, 7, 2, 1) in ops
      && (forall side: Side :: ClearHalf(side) !in ops)
    ensures !AfterCommand(f, BtnLeft).basicMode && AfterCommand(f, BtnLeft).setLeftScore
  {
    MxData.ScoreRenderFraming(s, 0, true, true, true);
  }

  /** Outside basic mode the left button changes nothing. */
  lemma {:induction false} BtnLeftIgnoredWhileSetting(f: Flags, s: Score)
    requires MxData.ValidScore(s) && !f.basicMode
    ensures AfterCommand(f, BtnLeft) == f && CommandOps(f, BtnLeft, s) == []
  {
  }

  /** Two toggles restore the flags, and between them the display is switched off and on once each. */
  lemma {:induction false} ToggleTwiceRestores(f: Flags, s: Score)
    requires MxData.ValidScore(s)
    ensures AfterCommand(AfterCommand(f, ToggleOnOff), ToggleOnOff) == f
    ensures var ops := CommandOps(f, ToggleOnOff, s) + CommandOps(AfterCommand(f, ToggleOnOff), ToggleOnOff, s);
      ops == (if f.displayOn then [TurnOff, TurnOn] else [TurnOn, TurnOff])
  {
  }

  /**
   * The setting step clears the left half exactly when it runs with the left
   * flag up, and the right half exactly when it runs with only the right flag
   * up; in every case it ends in basic mode.
   */
  lemma {:induction false} SettingClearsChosenHalf(f: Flags, s: Score)
    requires MxData.ValidScore(s)
    ensures ClearHalf(Left) in SettingOps(f, s) <==> !f.basicMode && f.setLeftScore
    ensures ClearHalf(Right) in SettingOps(f, s) <==> !f.basicMode && !f.setLeftScore && f.setRightScore
    ensures ClearHalf(LeftAndRight) !in SettingOps(f, s)
    ensures AfterSetting(f).basicMode
  {
    var render := MxData.RenderOps(s, 0, true, true, true);
    MxData.ScoreRenderFraming(s, 0, true, true, true);
    if ShowsSetting(f) {
      var ops := [ClearHalf(SettingSide(f))] + [Yield] + render + [Yield] + [Yield];
      forall side: Side
        ensures ClearHalf(side) in ops <==> side == SettingSide(f)
      {
        assert ClearHalf(side) !in render;
      }
    } else {
      assert SettingOps(f, s) == [Yield];
    }
  }

  /**
   * The left button followed by one setting step shows the score with its
   * left half blanked first and returns to basic mode; the left flag stays up.
   */
  lemma {:induction false} LeftButtonThenSetting(f: Flags, s: Score)
    requires MxData.ValidScore(s) && f.basicMode
    ensures AfterSetting(AfterCommand(f, BtnLeft)) == f.(setLeftScore := true)
    ensures SettingOps(AfterCommand(f, BtnLeft), s)
         == [ClearHalf(Left), Yield] + MxData.RenderOps(s, 0, true, true, true) + [Yield, Yield]
  {
    var g := AfterCommand(f, BtnLeft);
    assert !g.basicMode && g.setLeftScore && SettingSide(g) == Left;
  }

  /** The exit request is kept by the setting step, which nevertheless restores basic mode. */
  lemma {:induction false} ExitSurvivesSetting(f: Flags)
    ensures AfterSetting(AfterCommand(f, ExitProgram)).exit
    ensures AfterSetting(AfterCommand(f, ExitProgram)).basicMode
  {
  }

  class App {
    var flags: Flags
    /** Tick count of the last change let through by the debounce. */
    var ticks: int
    const display: Matrix
    const mxScore: MxData.MxScore
    const basicViewer: View.BasicViewer

    /** The score renderable and the viewer share the application's display, and the viewer shows that score. */
    predicate Valid()
      reads this, mxScore, basicViewer
    {
      && mxScore.matrix == display
      && basicViewer.matrix == display
      && basicViewer.score == mxScore
      && mxScore.Valid()
    }

    /** Start-up, with `ticksNow` the reading of the millisecond tick counter. */
    constructor (display: Matrix, ticksNow: int)
      ensures Valid() && this.display == display
      ensures flags == INITIAL_FLAGS && ticks == ticksNow
      ensures mxScore.score == Score(0, 0)
      ensures basicViewer.config == Config(true, false, true, false, INITIAL_BRIGHTNESS)
      ensures basicViewer.toRender == [TimeItem] && basicViewer.viewMode == View.AlternateMode
      ensures display.log == old(display.log)
    {
      flags := INITIAL_FLAGS;
      this.display := display;
      ticks := ticksNow;
      var score := new MxData.MxScore(display);
      var viewer := new View.BasicViewer(display);
      mxScore := score;
      basicViewer := viewer;
      new;
      basicViewer.score := mxScore;
    }

    /** The left button handler. */
    method HandleBtnLeft()
      requires Valid()
      modifies this`flags, display
      ensures Valid()
      ensures flags == AfterCommand(old(flags), BtnLeft)
      ensures display.log == old(display.log) + CommandOps(old(flags), BtnLeft, mxScore.score)
    {
      if flags.basicMode {
        flags := flags.(setLeftScore := true, basicMode := false);
        mxScore.Render(0, true, true, true);
      }
    }

    method ToggleOnOff()
      requires Valid()
      modifies this`flags, display
      ensures Valid()
      ensures flags == AfterCommand(old(flags), Command.ToggleOnOff)
      ensures display.log == old(display.log) + CommandOps(old(flags), Command.ToggleOnOff, mxScore.score)
    {
      if flags.displayOn {
        display.TurnOff();
        flags := flags.(displayOn := false);
      } else {
        display.TurnOn();
        flags := flags.(displayOn := true);
      }
    }

    /** Reinitialises the display at the initial brightness, not the last one set. */
    method ReinitDisplay()
      requires Valid()
      modifies display
      ensures Valid()
      ensures display.log == old(display.log) + CommandOps(flags, Command.ReinitDisplay, mxScore.score)
    {
      display.ReinitDisplay(INITIAL_BRIGHTNESS);
    }

    method ExitProgram()
      requires Valid()
      modifies this`flags
      ensures Valid()
      ensures flags == AfterCommand(old(flags), Command.ExitProgram)
    {
      flags := flags.(exit := true, basicMode := false);
    }

    /** Runs one command; this is the `change` callback handed to the debounce. */
    method Run(cmd: Command)
      requires Valid()
      modifies this`flags, display
      ensures Valid()
      ensures flags == AfterCommand(old(flags), cmd)
      ensures display.log == old(display.log) + CommandOps(old(flags), cmd, mxScore.score)
    {
      match cmd
      case BtnLeft => HandleBtnLeft();
      case ToggleOnOff => ToggleOnOff();
      case ReinitDisplay => ReinitDisplay();
      case ExitProgram => ExitProgram();
    }

    /**
     * Runs `cmd` only when the tick difference `diff` since the last change
     * passes the debounce; `ticksNow` is the current tick reading.
     */
    method ExecNotTooFast(ticksNow: int, diff: int, cmd: Command) returns (executed: bool)
      requires Valid()
      modifies this`flags, this`ticks, display
      ensures Valid()
      ensures executed == NotTooFast(diff)
      ensures executed ==> (ticks == ticksNow && flags == AfterCommand(old(flags), cmd)
        && display.log == old(display.log) + CommandOps(old(flags), cmd, mxScore.score))
      ensures !executed ==> ticks == old(ticks) && flags == old(flags) && display.log == old(display.log)
    {
      executed := false;
      if diff > MIN_TICKS_DIFF || diff < 0 {
        ticks := ticksNow;
        Run(cmd);
        executed := true;
      }
    }

    /**
     * One pass of the basic task's loop body: in basic mode, show information
     * until the viewer is disabled (`grace` suspensions later), then the
     * zero-length sleep. `start` is the render list's first position.
     */
    method BasicStep(start: nat, grace: nat)
      requires Valid()
      modifies display, basicViewer`toRender, basicViewer`viewMode
      ensures Valid()
      ensures display.log == old(display.log)
        + (if flags.basicMode then View.ViewTrace(basicViewer.config, true, start, grace) else [])
        + [Yield]
      ensures flags.basicMode ==> basicViewer.toRender == View.RenderList(basicViewer.config, true)
      ensures flags.basicMode && basicViewer.toRender == [] ==> basicViewer.viewMode == View.LoadedMode(basicViewer.config)
      ensures flags.basicMode && basicViewer.toRender != [] ==> basicViewer.viewMode == View.NoView
      ensures !flags.basicMode ==> (basicViewer.viewMode == old(basicViewer.viewMode)
        && basicViewer.toRender == old(basicViewer.toRender))
    {
      if flags.basicMode {
        var _ := basicViewer.ViewInfo(start, grace);
      }
      display.Suspend();
    }

    /** One pass of the setting task's loop body. */
    method SettingStep()
      requires Valid()
      modifies this`flags, display, basicViewer`viewMode
      ensures Valid()
      ensures flags == AfterSetting(old(flags))
      ensures display.log == old(display.log) + SettingOps(old(flags), mxScore.score)
      ensures !old(flags).basicMode ==> basicViewer.viewMode == View.NoView
      ensures old(flags).basicMode ==> basicViewer.viewMode == old(basicViewer.viewMode)
    {
      if !flags.basicMode {
        basicViewer.Disable();
        if flags.setLeftScore || flags.setRightScore {
          display.ClearHalf(if flags.setLeftScore then Left else Right);
          display.Suspend();
          mxScore.Render(0, true, true, true);
          display.Suspend();
        }
        flags := flags.(basicMode := true);
      }
      display.Suspend();
    }
  }
}
