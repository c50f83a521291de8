# Ten-pin bowling score sheet

A model in Dafny of `main.py`, a ten-pin bowling scorer. `calculate_score`
takes a game written in score-sheet notation, one character per roll:
`X` strike, `/` spare, `-` miss, `0`-`9` pins. It returns the total score or
raises an error. The work happens in two stages, both on the class
`BowlingGame`:

- The constructor refuses blank input, upper-cases the notation and
  removes spaces. `_parse_rolls` then turns the notation into a list of
  pin counts. It tracks the current frame and whether the next roll is
  the first of its frame. It refuses an illegal spare, a frame of more
  than ten pins and any foreign character.
- `calculate_score` walks a cursor over the rolls for exactly ten frames.
  A strike scores ten plus the next two rolls. A spare scores ten plus the
  roll after it. An open frame scores its two rolls. In frame 10 the
  cursor also consumes the bonus rolls. Any roll left over is an error.

Layout:

- `types.dfy` (module `BowlingTypes`): the two game constants, the error
  variants (one per distinct `raise`, plus the `IndexError` of a missing
  open-frame roll), and `Result`.
- `notation.dfy` (module `Notation`): normalisation and the parser.
  - `Step`, `Scan` and `Parse` specify `_parse_rolls` one character at a
    time.
  - `ParseRolls` is the loop of the source, proved to compute `Parse`.
  - Lemmas state the reading of every character, the two refusal rules
    and the first-error behaviour.
- `scoring.dfy` (module `Scoring`): the calculator.
  - `FrameScore`, `Walk` and `Score` specify `calculate_score` frame by
    frame.
  - Lemmas state strike precedence, cursor accounting, the error cases
    and the 0..300 bound.
- `game.dfy` (module `Game`): the class `BowlingGame` and the module-level
  `calculate_score`.
  - The class keeps the two fields the constructor sets, `gameStr` and
    `rolls`.
  - A Dafny constructor cannot fail, so the failing `__init__` is the
    static method `Create`, which returns either the new object or the
    error.
  - `CalculateScore` is the frame loop of the source, proved to compute
    `Score`.
- `examples.dfy` (module `Examples`): every game of the test suite, and a
  few at the edges of the source, worked out on the model.
  - Each notation is given character by character as a precondition.
  - `...Rolls` states the rolls or the parse error, `...Score` the score or
    the scoring error, and `...Game` the outcome of `calculate_score`.
  - `...Literal` restates `...Game` for the notation written as a string
    literal.
- `findings.dfy` (module `Findings`): the tenth-frame spare bonus defect
  listed under Findings, as written and corrected.

The main model follows `main.py` as written, including the defect. The
corrected parser `ParseIntended` and the game built on it,
`GameScoreIntended`, sit beside it in `Findings`. They reuse the same
normalisation and scoring.

## Model

| member | source | states |
|---|---|---|
| Notation.Normalize | main.py:13 | the normalised notation is no longer than the input and holds no space and no lower-case letter |
| Notation.NormalizeFixed | main.py:13 | normalisation leaves a notation unchanged exactly when it holds no space and no lower-case letter |
| Notation.NormalizeIdempotent | main.py:13 | normalising twice is normalising once |
| Notation.NormalizeAppend | main.py:13 | normalisation works character by character: it distributes over concatenation |
| Notation.BlankNormalizesBlank | main.py:9-13 | blank input stays blank after normalisation |
| Notation.NonBlankNormalizesNonBlank | main.py:9-13 | input that passes the blank check is still neither blank nor empty after normalisation |
| Notation.Step | main.py:25-74 | reading one character appends exactly one roll, and every refusal is a parse error |
| Notation.StepExtends | main.py:28-70 | reading a character never changes the rolls read before it |
| Notation.Scan | main.py:20-76 | after `n` characters a successful scan holds exactly `n` rolls, and every failure is a parse error |
| Notation.Parse | main.py:16-76 | definition of `_parse_rolls`: the scan over the whole notation, its rolls or its first error (properties in the rows below) |
| Notation.ScanPrefix | main.py:25-76 | an error stops the scan for good, and a successful scan extends every shorter scan of the same notation |
| Notation.ScannedRolls | main.py:25-72 | every roll of a successful scan is the reading of its character (`X` 10, `-` 0, digit its value, `/` ten minus the roll before) and lies in 0..10 |
| Notation.ParsedRolls | main.py:16-76 | an accepted notation has exactly one roll per character, each the reading of its character and each in 0..10 |
| Notation.AcceptedIsNormalized | main.py:25-74 | a notation the parser accepts holds no space and no lower-case letter, so normalising it changes nothing |
| Notation.SpareRule | main.py:44-52 | `/` is refused exactly when it is the first character or follows `X`; after `-` it is accepted and counts ten pins |
| Notation.FrameOverflowRule | main.py:60-68 | a digit is refused, with the current frame number, exactly when it is a second roll of a frame up to 10, does not follow `X`, and it and the roll before exceed ten pins |
| Notation.ParseFailsAtFirstError | main.py:25-74 | a refused notation reports the error of the first character that cannot be read, and every character before it was read |
| Notation.DigitTooLargeDead | main.py:60-63 | the "digit must be less than 10" error is never raised |
| Notation.ParseRolls | main.py:16-76 | the loop over the characters returns exactly the specified parse, rolls or first error |
| Scoring.RollSafe | main.py:125-128 | the roll at an index exists exactly when the index is inside the rolls; otherwise the error is a missing bonus roll |
| Scoring.IsSpare | main.py:118-120 | definition of `_is_spare`: false when the next roll is missing, else whether the two rolls make ten (used by `SpareFrame` and `OpenFrame`) |
| Scoring.StrikeScore | main.py:122-123 | a strike is worth ten plus the next two rolls, and fails with a missing bonus roll exactly when one of them is absent |
| Scoring.FrameScore | main.py:90-110 | definition of one pass of the frame loop: missing-roll check, strike, spare, open frame, giving the frame's points and the next cursor (properties in `StrikeFirst`, `SpareFrame`, `OpenFrame`, `FrameAdvance`, `FrameBounds`) |
| Scoring.Walk | main.py:86-110 | definition of the first `n` passes of the loop, from 0 points at roll 0 |
| Scoring.Score | main.py:82-116 | definition of `calculate_score`: ten frames, then the trailing-data check (properties in `ScoreOutcome`, `GameLength`, `ScoreBounds`) |
| Scoring.WalkExtend | main.py:89-110 | proof step: unfolds `Walk` by one frame, the form the loop invariant of `BowlingGame.CalculateScore` needs |
| Scoring.ScoreStopsAtFrame | main.py:89-110 | a frame that fails makes the whole calculation fail with the same error |
| Scoring.FrameFails | main.py:89-110 | a frame that cannot be scored from the cursor makes the calculation fail with that frame's error |
| Scoring.StrikeFirst | main.py:94-101 | a roll of ten at the cursor is always scored as a strike, never as the first half of a spare |
| Scoring.SpareFrame | main.py:101-105 | a first roll under ten that makes ten with the next is scored ten plus the roll after, moving the cursor two rolls (three in frame 10); without that roll the bonus is missing |
| Scoring.OpenFrame | main.py:107-110 | a first roll under ten that is not a spare is scored with the next roll, moving the cursor two; without a next roll the frame fails with the missing open-frame roll |
| Scoring.FrameAdvance | main.py:94-110 | each frame moves the cursor by one or two rolls, by two or three in frame 10, and never past the end |
| Scoring.WalkCursor | main.py:89-110 | after `n` frames the cursor has consumed between `n` and `2n` rolls, between 11 and 21 after ten frames |
| Scoring.WalkErrors | main.py:89-110 | the frame walk fails only with a missing required roll, a missing bonus roll or a missing open-frame roll |
| Scoring.ScoreOutcome | main.py:89-116 | a score is produced exactly when the ten frames end with the cursor on the end of the rolls; trailing data reports the number of rolls after the cursor; every other failure is a missing roll |
| Scoring.GameLength | main.py:89-116 | a scored game has between 11 and 21 rolls |
| Scoring.ShortGameIncomplete | main.py:89-91 | ten rolls or fewer never make a game, and the failure is a missing roll |
| Scoring.FrameBounds | main.py:94-110 | with rolls in 0..10, a frame is worth 0 to 30 points |
| Scoring.WalkBounds | main.py:89-110 | with rolls in 0..10, the first `n` frames are worth 0 to 30n points |
| Scoring.ScoreBounds | main.py:86-116 | with rolls in 0..10, every score is between 0 and 300 |
| Scoring.OpenWalk | main.py:108-110 | with no strike and no spare, the first `n` frames score the pins of their `2n` rolls |
| Scoring.OpenGameScoresPins | main.py:86-116 | a game of ten open frames scores the total of its pins |
| Game.Prepare | main.py:5-14 | definition of the constructor's work: blank check, normalisation, parse |
| Game.GameScore | main.py:130-131 | definition of `calculate_score(game_str)`: prepare, then score; the first error wins |
| Game.ParsedScoreBounds | main.py:16-116 | every score of rolls the parser accepted is between 0 and 300 |
| Game.GameScoreErrors | main.py:9-14 | only blank input is reported as empty; a parse error is reported before any scoring; otherwise the outcome is the score of the parsed rolls |
| Game.GameScoreBounds | main.py:130-131 | every successful game scores between 0 and 300 |
| Game.GameScoreNormalized | main.py:9-13 | for every input, normalising first keeps blank input blank and non-blank input non-blank, and does not change the outcome |
| Game.BowlingGame.Valid | main.py:13-14 | the object invariant: `gameStr` is normalised and `rolls` is its parse |
| Game.BowlingGame.constructor | main.py:13-14 | given a normalised notation and its parse, the object holds the two and is valid |
| Game.BowlingGame.Create | main.py:5-14 | construction fails exactly when the input is blank or its normalised notation is refused, with that error; otherwise the new object is valid and holds the normalised notation and its parsed rolls |
| Game.BowlingGame.ScoreFrame | main.py:90-110 | proof step: the body of the frame loop split out as a method, specified by `FrameScore`, returning the frame's points and where the next frame starts, or the frame's error |
| Game.BowlingGame.CalculateScore | main.py:82-116 | on a valid object, the frame loop and the trailing-data check return exactly the specified score or error of the stored rolls, and a score is between 0 and 300 |
| Game.CalculateScore | main.py:130-131 | the module-level function returns exactly the specified outcome for the input |
| Findings.SpareBonusRefused | main.py:66-68 | as written, a tenth-frame spare followed by a bonus digit that with the spare's roll exceeds ten makes the notation fail with `FrameOverflow(10)` |
| Findings.TenthSpareSixRolls | main.py:66-68 | as written, every notation that starts with 18 misses and `5/6` is refused with `FrameOverflow(10)` |
| Findings.TenthSpareSixGame | main.py:66-68 | as written, `calculate_score` of 18 misses and `5/6` fails with `FrameOverflow(10)` |
| Findings.StepIntended | main.py:66-68 | the corrected step also appends exactly one roll per character |
| Findings.ScanIntended | main.py:20-76 | a successful corrected scan holds one roll per character read |
| Findings.FrameOverflowIntendedRule | main.py:66-68 | corrected: a digit is refused exactly when it is a second roll of a frame up to 10, follows neither `X` nor `/`, and it and the roll before exceed ten pins |
| Findings.SpareBonusAccepted | main.py:66-68 | corrected: a digit directly after `/` is always read as its own value |
| Findings.IntendedExtends | main.py:25-76 | the correction only accepts more: a scan that succeeds as written succeeds with the same rolls |
| Findings.IntendedAgrees | main.py:25-76 | where no digit directly follows `/`, the corrected scan is the scan as written, errors and all |
| Findings.IntendedPins | main.py:25-72 | every roll of a successful corrected scan is in 0..10 |
| Findings.GameScoreIntendedBounds | main.py:86-116 | with the correction, every successful game still scores between 0 and 300 |
| Findings.TenthSpareSixIntendedRolls | main.py:66-68 | corrected, 18 misses and `5/6` read as 21 rolls ending 5, 5, 6 |
| Findings.TenthSpareSixScore | main.py:101-105 | those rolls score 16 |
| Findings.TenthSpareSixIntendedGame | main.py:66-68 | corrected, `calculate_score` of 18 misses and `5/6` scores 16 |
| Findings.TenthSpareSixLiteral | main.py:66-68 | for the literal "------------------5/6", `calculate_score` fails with `FrameOverflow(10)` as written and scores 16 corrected |
| Examples.NinesRolls | test_bowling.py:7 | the notation parses to its 20 rolls |
| Examples.NinesScore | test_bowling.py:7 | those rolls score 90 |
| Examples.NinesGame | test_bowling.py:7 | `calculate_score` scores 90 |
| Examples.NinesLiteral | test_bowling.py:7 | `calculate_score` of the literal "9-9-9-9-9-9-9-9-9-9-" scores 90 |
| Examples.PerfectRolls | test_bowling.py:9 | the notation parses to its 12 rolls |
| Examples.PerfectScore | test_bowling.py:9 | those rolls score 300 |
| Examples.PerfectGame | test_bowling.py:9 | `calculate_score` scores 300 |
| Examples.PerfectLiteral | test_bowling.py:9 | `calculate_score` of the literal "XXXXXXXXXXXX" scores 300 |
| Examples.FiveSparesRolls | test_bowling.py:11 | the notation parses to its 21 rolls |
| Examples.FiveSparesScore | test_bowling.py:11 | those rolls score 150 |
| Examples.FiveSparesGame | test_bowling.py:11 | `calculate_score` scores 150 |
| Examples.FiveSparesLiteral | test_bowling.py:11 | `calculate_score` of the literal "5/5/5/5/5/5/5/5/5/5/5" scores 150 |
| Examples.MixedRolls | test_bowling.py:13 | the notation parses to its 18 rolls |
| Examples.MixedScore | test_bowling.py:13 | those rolls score 142 |
| Examples.MixedGame | test_bowling.py:13 | `calculate_score` scores 142 |
| Examples.MixedLiteral | test_bowling.py:13 | `calculate_score` of the literal "X7/9-X-88/-6X8/X11" scores 142 |
| Examples.TenthStrikeDigitsRolls | test_bowling.py:18 | the notation parses to its 21 rolls |
| Examples.TenthStrikeDigitsScore | test_bowling.py:18 | those rolls score 17 |
| Examples.TenthStrikeDigitsGame | test_bowling.py:18 | `calculate_score` scores 17 |
| Examples.TenthStrikeDigitsLiteral | test_bowling.py:18 | `calculate_score` of the literal "------------------X52" scores 17 |
| Examples.TenthSpareStrikeRolls | test_bowling.py:20 | the notation parses to its 21 rolls |
| Examples.TenthSpareStrikeScore | test_bowling.py:20 | those rolls score 20 |
| Examples.TenthSpareStrikeGame | test_bowling.py:20 | `calculate_score` scores 20 |
| Examples.TenthSpareStrikeLiteral | test_bowling.py:20 | `calculate_score` of the literal "------------------5/X" scores 20 |
| Examples.TenthThreeStrikesRolls | test_bowling.py:22 | the notation parses to its 21 rolls |
| Examples.TenthThreeStrikesScore | test_bowling.py:22 | those rolls score 30 |
| Examples.TenthThreeStrikesGame | test_bowling.py:22 | `calculate_score` scores 30 |
| Examples.TenthThreeStrikesLiteral | test_bowling.py:22 | `calculate_score` of the literal "------------------XXX" scores 30 |
| Examples.SpareAfterStrikeRolls | test_bowling.py:28 | every notation starting like this one is refused with `IllegalSpare` |
| Examples.SpareAfterStrikeGame | test_bowling.py:28 | `calculate_score` fails with `IllegalSpare` |
| Examples.SpareAfterStrikeLiteral | test_bowling.py:28 | `calculate_score` of the literal "X/------------------" fails with `IllegalSpare` |
| Examples.EightAndThreeRolls | test_bowling.py:33 | every notation starting like this one is refused with `FrameOverflow(1)` |
| Examples.EightAndThreeGame | test_bowling.py:33 | `calculate_score` fails with `FrameOverflow(1)` |
| Examples.EightAndThreeLiteral | test_bowling.py:33 | `calculate_score` of the literal "83------------------" fails with `FrameOverflow(1)` |
| Examples.TenthStrikeOneBonusRolls | test_bowling.py:39 | the notation parses to its 20 rolls |
| Examples.TenthStrikeOneBonusScore | test_bowling.py:39 | those rolls fail with `IncompleteBonus` |
| Examples.TenthStrikeOneBonusGame | test_bowling.py:39 | `calculate_score` fails with `IncompleteBonus` |
| Examples.TenthStrikeOneBonusLiteral | test_bowling.py:39 | `calculate_score` of the literal "------------------X5" fails with `IncompleteBonus` |
| Examples.EightStrikesRolls | test_bowling.py:43 | the notation parses to its 8 rolls |
| Examples.EightStrikesScore | test_bowling.py:43 | those rolls fail with `IncompleteBonus` |
| Examples.EightStrikesGame | test_bowling.py:43 | `calculate_score` fails with `IncompleteBonus` |
| Examples.EightStrikesLiteral | test_bowling.py:43 | `calculate_score` of the literal "XXXXXXXX" fails with `IncompleteBonus` |
| Examples.NinesExtraRollRolls | test_bowling.py:49 | the notation parses to its 21 rolls |
| Examples.NinesExtraRollScore | test_bowling.py:49 | those rolls fail with `TrailingData(1)` |
| Examples.NinesExtraRollGame | test_bowling.py:49 | `calculate_score` fails with `TrailingData(1)` |
| Examples.NinesExtraRollLiteral | test_bowling.py:49 | `calculate_score` of the literal "9-9-9-9-9-9-9-9-9-9-1" fails with `TrailingData(1)` |
| Examples.ThirteenStrikesRolls | test_bowling.py:53 | the notation parses to its 13 rolls |
| Examples.ThirteenStrikesScore | test_bowling.py:53 | those rolls fail with `TrailingData(1)` |
| Examples.ThirteenStrikesGame | test_bowling.py:53 | `calculate_score` fails with `TrailingData(1)` |
| Examples.ThirteenStrikesLiteral | test_bowling.py:53 | `calculate_score` of the literal "XXXXXXXXXXXXX" fails with `TrailingData(1)` |
| Examples.MissSpareRolls | test_bowling.py:63 | the notation parses to its 20 rolls |
| Examples.MissSpareScore | test_bowling.py:63 | those rolls score 10 |
| Examples.MissSpareGame | test_bowling.py:63 | `calculate_score` scores 10 |
| Examples.MissSpareLiteral | test_bowling.py:63 | `calculate_score` of the literal "-/------------------" scores 10 |
| Examples.TenthStrikeSpareRolls | test_bowling.py:65 | the notation parses to its 21 rolls |
| Examples.TenthStrikeSpareScore | test_bowling.py:65 | those rolls score 20 |
| Examples.TenthStrikeSpareGame | test_bowling.py:65 | `calculate_score` scores 20 |
| Examples.TenthStrikeSpareLiteral | test_bowling.py:65 | `calculate_score` of the literal "------------------X8/" scores 20 |
| Examples.GutterRolls | test_bowling.py:67 | the notation parses to its 20 rolls |
| Examples.GutterScore | test_bowling.py:67 | those rolls score 0 |
| Examples.GutterGame | test_bowling.py:67 | `calculate_score` scores 0 |
| Examples.GutterLiteral | test_bowling.py:67 | `calculate_score` of the literal "--------------------" scores 0 |
| Examples.NineSparesRolls | test_bowling.py:72 | the notation parses to its 21 rolls |
| Examples.NineSparesScore | test_bowling.py:72 | those rolls score 190 |
| Examples.NineSparesGame | test_bowling.py:72 | `calculate_score` scores 190 |
| Examples.NineSparesLiteral | test_bowling.py:72 | `calculate_score` of the literal "9/9/9/9/9/9/9/9/9/9/9" scores 190 |
| Examples.NinesShortRolls | main.py:109 | the notation parses to its 19 rolls |
| Examples.NinesShortScore | main.py:109 | those rolls fail with `OpenFrameIndexError` |
| Examples.NinesShortGame | main.py:109 | `calculate_score` fails with `OpenFrameIndexError` |
| Examples.NinesShortLiteral | main.py:109 | `calculate_score` of the literal "9-9-9-9-9-9-9-9-9-9" fails with `OpenFrameIndexError` |
| Examples.PastTenthDigitsRolls | main.py:66 | the notation parses to its 22 rolls |
| Examples.PastTenthDigitsScore | main.py:66 | those rolls fail with `TrailingData(2)` |
| Examples.PastTenthDigitsGame | main.py:66 | `calculate_score` fails with `TrailingData(2)` |
| Examples.PastTenthDigitsLiteral | main.py:66 | `calculate_score` of the literal "--------------------96" fails with `TrailingData(2)` |
| Examples.TabRefusedRolls | main.py:74 | every notation starting like this one is refused with `InvalidChar('\t')` |
| Examples.TabRefusedGame | main.py:74 | `calculate_score` fails with `InvalidChar('\t')` |
| Examples.TabRefusedLiteral | main.py:74 | `calculate_score` of the literal "\tX" fails with `InvalidChar('\t')` |
| Examples.LowerSpacedNormalizes | test_bowling.py:58 | upper-casing and removing spaces leaves twelve strikes |
| Examples.LowerSpacedGame | test_bowling.py:58 | `calculate_score` scores 300 |

## Left out

- Exception classes and message text: each distinct `raise` is one `Err` variant. The variant carries the frame number, the refused character or the count of extra rolls that the message prints.
- `OpenFrameIndexError`: the source does not check for a missing second roll of an open frame (main.py:109). Python then raises `IndexError`, and the model gives it a variant of its own.
- `str.upper` is modelled for ASCII only: `a`-`z` become `A`-`Z`. Other lower-case letters have upper-case forms, some of them longer. The parser refuses all of them, but the refused character reported may differ from Python's.
- `str.isdigit` also accepts non-ASCII digits, such as Arabic-Indic digits and superscripts. The model treats every non-ASCII character as an invalid character.
- `_update_frame_state` (main.py:78-80) does nothing and is not modelled.
- The "digit must be less than 10" branch (main.py:62-63) is kept in `Step` and `ParseRolls`. `Notation.DigitTooLargeDead` proves it never fires.
- The in-place `append` to the `rolls` list is modelled as a sequence variable reassigned by the loop. The list is local to `_parse_rolls`, so no other object can see it change.
- The class constants `MAX_FRAMES` and `PINS_PER_FRAME` are module constants. Nothing in the source changes them.
- The test runner itself is not modelled. Its cases are the lemmas of `Examples`.

## Findings

| source | as written | input that shows it | evidently intended | confidence | as-written member | corrected member |
|---|---|---|---|---|---|---|
| main.py:66-68 | after a spare in frame 10 the parser keeps the frame open, so the bonus digit is checked against the spare's own roll and refused when the two exceed ten | `------------------5/6` fails with "Frame 10 exceeds 10 pins" | the bonus roll after a tenth-frame spare is thrown at ten fresh pins, like the bonus after a strike, which the check already exempts; the game scores 16 | not executed | Findings.SpareBonusRefused | Findings.SpareBonusAccepted |
