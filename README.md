# BLE score counter display: a Dafny model

This project models the logic of a MicroPython scoreboard that drives a 32×16 LED matrix:

- the score and clock renderables (`app/mx_data.py`);
- the basic view scheduler, which alternates or scrolls information on the panel (`app/view.py`);
- the application's control flags, its button debounce and one step of each of its two cooperative tasks (`app/main.py`).

It proves properties of that model.

The matrix driver is abstract. `Display.Matrix` keeps a log, `log: seq<Op>`, of the operations sent to the panel:

- `Fill`;
- `DrawGlyph(font, digit, x)`;
- `HLine(x, y, len, v)`;
- `ClearHalf(side)`;
- `RedrawTwice`;
- `TurnOn` and `TurnOff`;
- `Reinit(brightness)`.

Two further ops record what the driver cannot see:

- `Render(item, x, preClear, redraw)` is a call through the common renderable interface.
- `Yield` is an awaited sleep, that is, a point where the coroutine suspends.

Every routine is a method whose `ensures` states the exact operations it appends to the log. That sequence is given by a specification function, and the lemmas prove what the source promises about it:

- glyph placement;
- which font is used;
- that the digits shown read back as the score or the time;
- framing by clears and flushes;
- frame offsets;
- the number of suspensions.

The scheduler is cooperative. Another task can change the viewer's mode only while the viewer is suspended, so the environment is modelled as a number `grace`: it lets `grace` suspensions pass and calls `disable()` at the next one. Every scheduler trace is therefore the prefix, `grace + 1` frames long, of the infinite trace. `View.Expand` replaces each `Render` op by what the score or the clock actually sends to the matrix. `MxTime.render` pulls the real-time clock on every call, so the clock is a `View.Clock`: one reading per render call, numbered in trace order, and each of the clock's render calls shows its own reading. This is how the scheduler's frames are related to the renderables' operations.

Modules:

- `Constants` (`constants.dfy`): the constants and sides from `app/constants.py`.
- `Data` (`data.dfy`): the `Score` and `Config` records from `app/data.py`.
- `Display` (`display.dfy`): the matrix as an operation log.
- `MxData` (`mx_data.dfy`):
  - the two-digit medium-font number;
  - the three score layouts (`Half`) and the layout selector;
  - `MxScore`, with its clamping setters, `render` and `render_change`;
  - `MxTime`.
- `View` (`view.dfy`): `BasicViewer`, with its frame functions and its scheduling lemmas.
- `AppMain` (`main.dfy`): `App`, with its flags, its handlers and its task steps.

## Model

| member | source | states |
|---|---|---|
| MxData.RenderTwoDigitNum | app/mx_data.py:28-37 | draws the tens digit in the medium font at x_shift, then the ones digit 8 columns (COLS_IN_MATRIX) further right |
| MxData.TwoDigitNumReadBack | app/mx_data.py:28-37 | reading the glyphs in columns [x, x+15) as a decimal number gives back num; no glyph lands in [x+15, x+32) |
| MxData.GlyphsReadBack | app/mx_data.py:28-37 | one or two digit glyphs that all start in a column window read back as the one- or two-digit number they spell; glyphs outside the window contribute nothing |
| MxData.DigitsInConcat | app/mx_data.py:28-37 | the digits read from a window of a concatenated log are those of each part, in order |
| MxData.Clamp | app/mx_data.py:156-170 | the stored side value is always in [0, 99]; a value in range is kept, a value above 99 becomes 99 and one below 0 becomes 0 |
| MxData.ClampIdempotent | app/mx_data.py:156-170 | clamping twice is clamping once, so setting the same value twice gives the same state |
| MxData.MxScore.constructor | app/mx_data.py:147-150 | the initial score is (0, 0) |
| MxData.MxScore.SetScore | app/mx_data.py:152-154 | both sides become their clamped arguments |
| MxData.MxScore.SetLeft | app/mx_data.py:156-162 | the left side becomes min(max(val, 0), 99); the right side is unchanged |
| MxData.MxScore.SetRight | app/mx_data.py:164-170 | the right side becomes min(max(val, 0), 99); the left side is unchanged |
| MxData.Compose | app/mx_data.py:176-191 | layout selection: both halves use the medium two-digit layout iff either side is ≥ 20; otherwise a side uses the one-digit layout iff it is < 10, and the big two-digit layout for 10–19; each half shows its side's value |
| MxData.FontChoice | app/mx_data.py:176-191 | every glyph render emits is in the medium font iff either side is ≥ 20, and in the big font otherwise; the switch lies exactly between 19 and 20 |
| MxData.MediumLeftPadsWithZero | app/mx_data.py:122-144 | at 5:25 the left side is drawn as medium "0" at column 0 and "5" at column 8 |
| MxData.DigitOneShift | app/mx_data.py:56-73 | a one-digit "1" starts 3 columns further right (x+7) than any other digit (x+4) |
| MxData.HalfPlacement | app/mx_data.py:51-144 | each half draws one or two digit glyphs; left-half glyphs start in columns [x, x+15), right-half glyphs in [x+18, x+28], so the two halves lie on opposite sides of the delimiter at columns 15–16; in a two-glyph half the second glyph starts at least 4 columns after the first |
| MxData.HalfReadBack | app/mx_data.py:51-144 | the glyphs of a half, read in its own window (left [x, x+15), right [x+15, x+32)), give its value; nothing appears in the other window |
| MxData.MxScore.RenderHalf | app/mx_data.py:51-144 | appends exactly the glyph operations of the chosen layout (one-digit, 10–19 or medium) at its fixed offsets |
| MxData.MxScore.RenderScoreDelimiter | app/mx_data.py:201-203 | appends the two 2-column hlines at column 15+x on rows 7 and 8 |
| MxData.MxScore.Render | app/mx_data.py:172-199 | appends the clear (if pre_clear), the left half, the delimiter (if render_delim), the right half and the flush (if redraw); never changes the score |
| MxData.ScoreRenderFraming | app/mx_data.py:172-203 | Fill(0) comes first iff pre_clear, RedrawTwice comes last iff redraw, each occurs at all only then, both delimiter hlines occur iff render_delim, and render never clears a half |
| MxData.ScoreReadBack | app/mx_data.py:172-199 | the digits drawn left of column x+15 read back as the left score, and those right of it as the right score |
| MxData.RenderDigits | app/mx_data.py:172-199 | the digits render draws in any window are those of the left half followed by those of the right half |
| MxData.NoGlyphNoDigits | app/mx_data.py:172-199 | operations other than glyphs (clear, delimiter, flush) contribute no digits |
| MxData.ChangeTransition | app/mx_data.py:213-222 | the transition of render_change is exactly one of: blank all when both raw arguments differ from the stored sides, clear the left half when only the left differs, clear the right half when only the right differs, flash the score without the delimiter when neither differs |
| MxData.MxScore.RenderChange | app/mx_data.py:205-229 | appends a full render, a pause, the transition, a pause and a full render of the new score; the score becomes the clamped arguments |
| MxData.ChangeKeepsUnchangedSide | app/mx_data.py:213-222 | the transition never clears a side whose value is unchanged; when it redraws, an unchanged side is shown with its old value |
| MxData.FlashClearsNoHalf | app/mx_data.py:221-222 | when neither side changes, no half is cleared |
| MxData.FlashRedrawsScore | app/mx_data.py:221-222 | when neither side changes, the flash still shows both sides' values |
| MxData.ChangeExamples | app/mx_data.py:205-229 | at 5:5, setting 5:7 clears only the right half, and setting 5:5 flashes the score without its delimiter |
| MxData.HalfBlankNeverShown | app/mx_data.py:213-229 | as written, a change of one side clears that half, pauses without a flush and then renders with a full clear: the operations right after the first pause are ClearHalf, Yield, Fill(0), and some pause of render_change follows no flush |
| MxData.CorrectedChangeFlushesEveryPause | app/mx_data.py:205-229 | the corrected transition differs from the written one only by a RedrawTwice after a cleared half, and every pause of the corrected render_change follows a flush |
| MxData.ScoreRenderPauseFree | app/mx_data.py:172-199 | render never suspends: no Yield among its operations |
| MxData.ScoreRenderFramed | app/mx_data.py:172-199 | render with pre_clear and redraw is the render with neither, preceded by one Fill(0) and followed by one RedrawTwice |
| MxData.ChangeComparesRawValues | app/mx_data.py:213-227 | the comparison uses the raw argument: at 99:5, setting 150 on the left counts as a change although the clamped score stays 99:5 |
| MxData.MxTime.constructor | app/mx_data.py:280-283 | the clock starts from the clock reading passed in |
| MxData.MxTime.Pull | app/mx_data.py:285-293 | hours and minutes become the clock reading |
| MxData.MxTime.RenderTimeDelimiter | app/mx_data.py:310-314 | appends the four 2-column hlines at column 15+x on rows 4, 5, 10 and 11 |
| MxData.MxTime.Render | app/mx_data.py:295-308 | pulls the clock and then appends Fill(0), hours, delimiter, minutes, RedrawTwice, whatever pre_clear and redraw are |
| MxData.TimeRenderLayout | app/mx_data.py:295-314 | the clock emits exactly 10 operations: Fill(0) first and RedrawTwice last, hour digits at x and x+8, minute digits at x+18 and x+26, the delimiter at column x+15 on rows 4, 5, 10 and 11 |
| MxData.TimeReadBack | app/mx_data.py:295-308 | the digits left of column x+15 read back as the hours, and those right of it as the minutes |
| MxData.TimeDigits | app/mx_data.py:295-308 | the clock's digits in any window are those of the hours followed by those of the minutes |
| MxData.CorrectedTimeFraming | app/mx_data.py:295-308 | the corrected clock clears iff pre_clear and flushes iff redraw, with the same glyphs and delimiter in between, and never clears a half |
| View.RenderList | app/view.py:36-45 | the rebuilt list holds the score iff use_score and a score is attached, the clock iff use_time, at most 2 items, score before clock |
| View.LoadedMode | app/view.py:47-50 | the loaded mode is SCROLL iff config.scroll, ALTERNATE otherwise, never NO_VIEW |
| View.BasicViewer.constructor | app/view.py:26-34 | the default configuration (score, no date, clock, no scroll, initial brightness), no score attached, so the list is the clock alone and the mode is ALTERNATE |
| View.BasicViewer.Load | app/view.py:36-50 | the list is rebuilt from empty to RenderList and the mode is set to LoadedMode, overriding any earlier disable |
| View.BasicViewer.Disable | app/view.py:52-53 | the mode becomes NO_VIEW |
| View.BasicViewer.ViewInfo | app/view.py:55-61 | load first, then the scroll or the alternate trace of grace + 1 frames; nothing is drawn for an empty list |
| View.ViewTraceFrames | app/view.py:55-96 | view_info draws nothing iff the rebuilt list is empty; otherwise its trace suspends exactly grace + 1 times before it stops |
| View.BasicViewer.Alternate | app/view.py:63-76 | with an empty list or outside ALTERNATE nothing is drawn and the mode is unchanged; otherwise one whole item is rendered per step until the disable, giving grace + 1 frames |
| View.AlternateOrder | app/view.py:71-76 | frame k of alternate renders the k-th item of the circular list at x 0 with the defaults, then pauses |
| View.AlternateFlushesEveryFrame | app/view.py:74-76 | in alternate, every pause follows a render call that flushes |
| View.AlternatePauses | app/view.py:74-76 | n frames of alternate contain exactly n pauses |
| View.AlternateOpsPrefix | app/view.py:74-76 | a shorter run of alternate is a prefix of a longer one |
| View.BasicViewer.Scroll | app/view.py:78-96 | with an empty list or outside SCROLL nothing is drawn; otherwise _scroll draws the first grace + 1 frames of the introduction followed by rounds, ends with the mode NO_VIEW, and draws nothing after the disable |
| View.BasicViewer.ScrollRounds | app/view.py:92-96 | the while loop over rounds, each round passing the incoming item on as the next outgoing one, extends the log to exactly ScrollOps of the whole run; if it is entered outside SCROLL it draws nothing |
| View.BasicViewer.ScrollBasicInfo1 | app/view.py:98-111 | draws the item at 32, 31, … while the mode stays SCROLL, checked before each frame: all 32 frames when the grace lasts, otherwise grace + 1 frames; none when entered outside SCROLL |
| View.BasicViewer.DrawScroll1Frame | app/view.py:109-111 | one frame: the item rendered at 32 − k with the defaults, then the pause |
| View.Scroll1Offsets | app/view.py:105-111 | frame k of _scroll_basic_info_1 renders at x_shift 32 − k and then pauses |
| View.Scroll1NeverAtZero | app/view.py:105-111 | every offset _scroll_basic_info_1 renders at lies in [1, 32], so it never reaches 0 |
| View.BasicViewer.ScrollBasicInfo2 | app/view.py:113-132 | draws frames at x = 0, −1, …, −39 while the mode stays SCROLL: all 40 frames when the grace lasts, otherwise grace + 1 frames |
| View.BasicViewer.DrawScroll2Frame | app/view.py:125-132 | one frame: Fill(0), obj1 at x and obj2 at x+40, both with pre_clear and redraw False, then one RedrawTwice and the pause |
| View.ExpandScroll2Frame | app/view.py:125-132 | a frame of _scroll_basic_info_2 expands to the clear, the two render calls' operations (calls j and j + 1 of the trace), the flush and the pause |
| View.ScrollOpsOpening | app/view.py:89-90 | the first 32 frames of _scroll are those of _scroll_basic_info_1 on the first item |
| View.RoundFrame | app/view.py:92-96 | frame k of round c is a _scroll_basic_info_2 frame moving item c out and item c + 1 in |
| View.ScrollOpsRound | app/view.py:92-96 | the frames of _scroll up to frame k of round c are the earlier rounds followed by k frames of round c |
| View.ScrollRoundStep | app/view.py:92-96 | a round drawn after the earlier frames extends the log to exactly the frames of _scroll so far |
| View.RoundOfStart | app/view.py:92-96 | frame 32 + 40c + k, for k < 40, is frame k of round c |
| View.RoundDecomposition | app/view.py:92-96 | every frame past the first 32 lies in exactly one round: its round and offset are the quotient and remainder by 40 |
| View.ScrollPositions | app/view.py:92-132 | in frame f each item sits exactly f columns left of where it entered: first at 32 − f, then item c at 32 + 40c − f and item c + 1 at 40 columns more; so an item moves by exactly 1 per frame across calls, and obj2 leaves one call at offset 1 to be drawn at 0 by the next |
| View.ScrollFlushesEveryFrame | app/view.py:109-130 | in _scroll every pause follows a flush |
| View.ScrollPauses | app/view.py:105-132 | n frames of _scroll contain exactly n pauses |
| View.ScrollOpsPrefix | app/view.py:92-132 | a shorter run of _scroll is a prefix of a longer one, so a disabled scroll has drawn a prefix of the full sequence |
| View.BasicViewer.Suspend | app/view.py:111 | an awaited sleep (here and at app/view.py:76 and 132): appends one Yield; when the grace is used up the environment's disable() makes the mode NO_VIEW, otherwise the mode is unchanged and one unit of grace is spent |
| View.ScoreToTimeFrameNotComposed | app/mx_data.py:295-308 | as written, at any clock reading, a frame moving the score out and the clock in is not composed: the clock's own Fill(0) comes right after the score's n operations (at n + 1), and the clock's own RedrawTwice (at n + 10) comes just before the frame's (at n + 11) |
| View.Scroll2FrameSelfFramed | app/view.py:125-132 | when the incoming item clears and flushes although asked not to, its Fill(0) follows the outgoing item's operations, its RedrawTwice comes just before the frame's, and the _scroll_basic_info_2 frame is not composed |
| View.ComposedConcat | app/view.py:78-132 | composed traces joined one after the other form a composed trace |
| View.QuietFrameComposed | app/view.py:125-130 | operations that neither clear, flush nor pause, set between one clear and one flush and followed by the pause, form a composed frame |
| View.ExpandWholeFrame | app/view.py:74-76 | a frame drawing one item whole expands to that render call's operations and the pause |
| View.Scroll2FrameComposedWith | app/view.py:125-132 | when neither render call clears, flushes or pauses, the expanded _scroll_basic_info_2 frame is composed |
| View.WholeFrameComposed | app/view.py:109-111 | with renderables that honour pre_clear and redraw, a frame rendering one item whole is composed |
| View.ScrollFrameComposed | app/view.py:78-132 | with renderables that honour pre_clear and redraw, every frame of _scroll, from either routine, is composed |
| View.ScrollStepComposed | app/view.py:78-132 | with such renderables, the first f + 1 frames of _scroll expand to a composed trace |
| View.ScrollComposed | app/view.py:78-132 | with such renderables, any run of _scroll expands to a composed trace |
| View.AlternateFrameComposed | app/view.py:74-76 | with such renderables, every frame of alternate is composed |
| View.AlternateStepComposed | app/view.py:71-76 | with such renderables, the first f + 1 frames of alternate expand to a composed trace |
| View.AlternateComposed | app/view.py:71-76 | with such renderables, any run of alternate expands to a composed trace |
| View.RenderablesQuiet | app/mx_data.py:172-199 | with the corrected clock, at any reading of each call, both renderables asked for pre_clear False and redraw False emit no clear, no flush and no pause |
| View.RenderablesWellFramed | app/mx_data.py:172-199 | with the corrected clock, whatever the clock reads at each call, both renderables honour pre_clear and redraw: asked for both, a call is the quiet call between one clear and one flush |
| View.ViewTraceComposed | app/view.py:55-132 | with the corrected clock, and for any clock whose reading may change from one render call to the next, everything view_info draws before the disable, expanded to matrix operations, is a composed trace: every frame is one clear, the items, one flush and its pause |
| AppMain.App.constructor | app/main.py:18-52 | basic_mode and display_on are True, every other flag is False, last_button and exit_cnt are 0, the score is (0, 0), and the viewer shares the display and is given that score after its own load, so its list still holds only the clock |
| AppMain.DebounceWindow | app/main.py:61-67 | a change is let through exactly when diff lies outside [0, 200]: 201 and −1 pass, 200 and 0 do not |
| AppMain.App.ExecNotTooFast | app/main.py:54-72 | returns True iff diff > 200 or diff < 0; then ticks becomes the current reading and the change runs; otherwise ticks, flags and display are unchanged |
| AppMain.App.HandleBtnLeft | app/main.py:74-83 | in basic mode sets set_left_score, clears basic_mode and renders the score; outside it nothing changes |
| AppMain.BtnLeftShowsScore | app/main.py:79-82 | the left button in basic mode draws the full score: cleared first, flushed last, with the delimiter, no half cleared, and leaves basic mode with the left flag up |
| AppMain.BtnLeftIgnoredWhileSetting | app/main.py:79 | outside basic mode the left button changes neither flags nor display |
| AppMain.App.ToggleOnOff | app/main.py:85-97 | flips display_on, emitting TurnOff exactly when it was on, TurnOn otherwise |
| AppMain.ToggleTwiceRestores | app/main.py:85-97 | two toggles restore the flags and switch the display off and on once each, in the order set by the initial state |
| AppMain.App.ReinitDisplay | app/main.py:99-106 | reinitialises the display at the initial brightness |
| AppMain.App.ExitProgram | app/main.py:108-110 | sets exit and clears basic_mode; nothing else changes |
| AppMain.App.Run | app/main.py:54-110 | the change callback runs exactly the chosen handler's effect on flags and display |
| AppMain.App.BasicStep | app/main.py:124-129 | in basic mode runs view_info, leaving the render list rebuilt from the configuration and the viewer disabled (or in its loaded mode when the list is empty), and then the zero sleep; outside it only the zero sleep, with the viewer untouched |
| AppMain.App.SettingStep | app/main.py:131-148 | outside basic mode disables the viewer, shows the side being set (clear half, pause, render, pause) if a set flag is up, and returns to basic mode; then the zero sleep |
| AppMain.SettingClearsChosenHalf | app/main.py:133-145 | the setting step clears the left half iff it runs in setting mode with set_left_score up (left wins), the right half iff only set_right_score is up, never both halves, and always ends in basic mode |
| AppMain.SettingHalfBlankNeverShown | app/main.py:136-143 | as written, a showing pass starts with ClearHalf, Yield, Fill(0): the blanked half is paused on without a flush and wiped by the score render |
| AppMain.CorrectedSettingFlushesEveryPause | app/main.py:136-143 | the corrected pass is the written one with a RedrawTwice after the clear, and every one of its pauses follows a flush |
| AppMain.LeftButtonThenSetting | app/main.py:74-148 | the left button and then one setting step blank the left half, show the score and return to basic mode, with set_left_score still up |
| AppMain.ExitSurvivesSetting | app/main.py:108-145 | a setting step after exit_program keeps exit but restores basic mode |

## Left out

- The matrix driver, the font bitmaps and the chip addressing (`app/display.py`, `app/font.py`) are not part of this model. Operations are recorded in a log, and glyph widths and pixels are not modelled.
- `app/hw.py`, the SPI and Pin setup, `led_blink`, `mem_monitor`, `main` and the module-level `asyncio.run` are hardware and runtime plumbing, so they are left out. So are the console `print` calls, including those in `handle_btn_left`, `toggle_on_off` and `reinit_display` (app/main.py:83, 91, 95, 104).
- `uasyncio.sleep_ms` durations (2000, 650, 400, 300, 10, 5, 0 ms) appear only as `Yield` suspension points. Real time and the asyncio scheduler itself are not modelled.
- View.BasicViewer.Scroll: it states only runs that are disabled after `grace` suspensions, each a prefix of grace + 1 frames. A viewer that is never disabled runs forever, and its infinite trace is not modelled.
- View.BasicViewer.Alternate: the same `grace` bound applies as for Scroll.
- View.Next: `CircularList` (`app/adt.py`) is not part of this model. Its starting position is a parameter `start`, and the j-th `next()` call returns item `(start + j) mod n`.
- MxData.MxTime.Render: the real-time clock is read through parameters, hours and minutes in [0, 99]. `rtc.datetime()` is not modelled. In the viewer's traces a `View.Clock` gives every render call its own reading, so the time may change within a trace.
- AppMain.App.ExecNotTooFast: the tick difference is an input. It says nothing about how `utime.ticks_diff` wraps.
- AppMain.App.Run: only the handlers in `app/main.py` are commands (left button, on/off, reinit, exit). Other button decoding and the BLE prefixes (`app/constants.py:104-106`) have no code here.
- The score renderable inside the viewer is the `ScoreItem` tag. Its actual drawing is connected through `View.Expand` and `View.Renderables`.
- `MxDate` is commented out in the source, so it is left out.
- The `singleton` decorator is left out. `MxTime` is one instance.
- The brightness in `Config` is not applied to the display anywhere in this code: `reinit_display` always uses `INITIAL_BRIGHTNESS`. The model follows the code, although the `# TODO last brigtness level` at app/main.py:105 shows the last level was meant to be reapplied.
- The findings about a blanked half assume that `clear_half` changes only the framebuffer and that only `redraw_twice` sends it to the panel. `app/display.py` is not part of this model.
- `MxData.MxScore.RenderChange` and `AppMain.App.SettingStep` model the code as written. The corrected transitions exist only as the functions `MxData.CorrectedChangeOps` and `AppMain.CorrectedSettingShownOps`.
- `setting_operation` never clears `set_left_score` or `set_right_score`, and the model keeps this, as AppMain.LeftButtonThenSetting states.

## Findings

| source | as written | input that shows it | evidently intended | confidence | as-written member | corrected member |
|---|---|---|---|---|---|---|
| app/mx_data.py:213-229 | When only one side changes, `render_change` clears that half and sleeps 400 ms without a flush. The `render` after the sleep starts with `fill(0)`, so the blanked half never reaches the panel, although the docstring says that score part blinks. | score 5:5, `render_change(5, 7)` | a flush (`redraw_twice`) after `clear_half`, as the both-sides branch does after `fill(0)` | medium, not executed | MxData.HalfBlankNeverShown | MxData.CorrectedChangeFlushesEveryPause |
| app/main.py:136-143 | `setting_operation` clears the chosen half and sleeps 300 ms without a flush. `mx_score.render()` then clears the whole framebuffer first, so the half being set never shows blank. | basic mode left by the left button, any score | a flush after `clear_half`, so the blank half is seen before the score returns | medium, not executed | AppMain.SettingHalfBlankNeverShown | AppMain.CorrectedSettingFlushesEveryPause |
| app/mx_data.py:295-308 | `MxTime.render` always clears the whole panel and flushes it, ignoring `pre_clear` and `redraw`. In a `_scroll_basic_info_2` frame the outgoing item is drawn first, then the clock's clear wipes it and the clock flushes mid-frame. | list [score, clock] in scroll mode, any score such as 5:5 and any time such as 12:34, any frame of the score-to-clock round | the clock honours `pre_clear` and `redraw` as the score does, so every scroll frame is one clear, both items and one flush | medium, not executed | View.ScoreToTimeFrameNotComposed | View.ViewTraceComposed (clock: MxData.CorrectedTimeFraming) |

`MxData.MxTime.Render` models the code as written. The scheduler's own traces hold for either clock. With the corrected clock, `View.ViewTraceComposed` proves that every trace of `view_info`, expanded through `View.Renderables(s, clock, false)` with a fresh clock reading at every render call, is a composed trace.
