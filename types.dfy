/**
  Shared vocabulary of the bowling score sheet: the two game constants of
  `BowlingGame`, the errors the parser and the calculator raise, and the
  result type that carries either a value or one of those errors.
 */
module BowlingTypes {

  /** Number of frames in a game (`MAX_FRAMES`). */
  const MaxFrames: nat := 10

  /** Pins standing at the start of a frame (`PINS_PER_FRAME`). */
  const PinsPerFrame: nat := 10

  /** The failures of the game, one constructor per distinct `raise`. */
  datatype Err =
    | EmptyInput               // "Game string cannot be empty."
    | InvalidChar(c: char)     // "Invalid character in game string: c"
    | IllegalSpare             // "Spare '/' must follow a numeric roll (0-9)."
    | DigitTooLarge(d: int)    // "Digit d must be less than 10."
    | FrameOverflow(frame: nat) // "Frame n exceeds 10 pins."
    | IncompleteRequired       // "Incomplete game: Missing required rolls."
    | IncompleteBonus          // "Incomplete game: Missing bonus rolls."
    | OpenFrameIndexError      // Python IndexError on the missing second roll of an open frame
    | TrailingData(extra: int) // "Trailing data: Found n extra roll(s)."

  /** Errors raised while the notation is turned into rolls. */
  predicate IsParseError(e: Err) {
    e.InvalidChar? || e.IllegalSpare? || e.DigitTooLarge? || e.FrameOverflow?
  }

  /** Errors raised while the rolls are scored. */
  predicate IsScoreError(e: Err) {
    e.IncompleteRequired? || e.IncompleteBonus? || e.OpenFrameIndexError? || e.TrailingData?
  }

  datatype Result<T> = Ok(value: T) | Fail(error: Err)
}
