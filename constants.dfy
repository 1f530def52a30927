/** Fixed values of the scoreboard (app/constants.py) that the modelled code uses. */
module Constants {
  /** Width of one 8x8 matrix; also the step between two medium-font digits. */
  const COLS_IN_MATRIX: int := 8
  /** Lateral shift of the right half of a big-font score. */
  const RIGHT_SIDE_X_OFFSET: int := 16
  /** Brightness level the display is (re)initialised with. */
  const INITIAL_BRIGHTNESS: int := 3
  /** Number of columns of the whole panel: four matrices in a row. */
  const PANEL_COLS: int := 32

  /** The halves of the panel a clear operation can address (LEFT = 1, RIGHT = 2, LEFT_AND_RIGHT = 3). */
  datatype Side = Left | Right | LeftAndRight
}
