/** The plain records of app/data.py. */
module Data {
  /** The score of both teams. */
  datatype Score = Score(left: int, right: int)

  /** Which pieces of information the viewer shows and how (field order as in the source). */
  datatype Config = Config(useScore: bool, useDate: bool, useTime: bool, scroll: bool, brightLvl: int)
}
