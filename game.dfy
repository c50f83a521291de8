/**
  The `BowlingGame` object and the module-level entry point: the
  constructor normalises and parses the notation once, and
  `CalculateScore` walks the stored rolls frame by frame.
 */
module Game {
  import opened BowlingTypes
  import opened Notation
  import opened Scoring

  /** What `BowlingGame.__init__` leaves in `rolls`, or the error it raises. */
  function Prepare(input: string): Result<seq<int>> {
    if Blank(input) then Fail(EmptyInput) else Parse(Normalize(input))
  }

  /** `calculate_score(game_str)`: parse, then score; the first error wins. */
  function GameScore(input: string): Result<int> {
    match Prepare(input)
    case Fail(e) => Fail(e)
    case Ok(rolls) => Score(rolls)
  }

  /**
    Only blank input is reported as empty; every other failure is either a
    notation error (before any scoring) or a scoring error.
   */
  lemma GameScoreErrors(input: string)
    ensures GameScore(input) == Fail(EmptyInput) <==> Blank(input)
    ensures !Blank(input) && Parse(Normalize(input)).Fail? ==>
      GameScore(input) == Fail(Parse(Normalize(input)).error) && IsParseError(GameScore(input).error)
    ensures !Blank(input) && Parse(Normalize(input)).Ok? ==>
      GameScore(input) == Score(Parse(Normalize(input)).value)
    ensures GameScore(input).Fail? && !Blank(input) ==>
      IsParseError(GameScore(input).error) || IsScoreError(GameScore(input).error)
  {
    if !Blank(input) && Parse(Normalize(input)).Ok? {
      var rolls := Parse(Normalize(input)).value;
      if Score(rolls).Fail? {
        ScoreOutcome(rolls);
      }
    }
  }

  /** The rolls of an accepted notation that make a game score between 0 and 300. */
  lemma ParsedScoreBounds(s: string)
    requires Parse(s).Ok? && Score(Parse(s).value).Ok?
    ensures 0 <= Score(Parse(s).value).value <= 300
  {
    var rolls := Parse(s).value;
    ParsedRolls(s);
    assert PinCounts(rolls) by {
      forall i | 0 <= i < |rolls|
        ensures 0 <= rolls[i] <= PinsPerFrame
      {
        assert ReadsAs(s, rolls, i);
      }
    }
    ScoreBounds(rolls);
  }

  /** Every successful game scores between 0 and 300. */
  lemma GameScoreBounds(input: string)
    requires GameScore(input).Ok?
    ensures 0 <= GameScore(input).value <= 300
  {
    ParsedScoreBounds(Normalize(input));
  }

  /** Upper-casing and removing spaces keep blank input blank and do not change the outcome. */
  lemma GameScoreNormalized(input: string)
    ensures Blank(Normalize(input)) <==> Blank(input)
    ensures GameScore(Normalize(input)) == GameScore(input)
  {
    if Blank(input) {
      BlankNormalizesBlank(input);
    } else {
      NonBlankNormalizesNonBlank(input);
    }
    NormalizeIdempotent(input);
  }

  class BowlingGame {
    /** The normalised notation (`game_str`). */
    const gameStr: string
    /** The pinfall of each roll (`rolls`). */
    const rolls: seq<int>

    /** What every object built by `__init__` satisfies: `rolls` is the parse of the normalised `gameStr`. */
    ghost predicate Valid() {
      Normalized(gameStr) && Parse(gameStr) == Ok(rolls)
    }

    constructor (normalized: string, parsed: seq<int>)
      requires Normalized(normalized) && Parse(normalized) == Ok(parsed)
      ensures gameStr == normalized && rolls == parsed
      ensures Valid()
    {
      gameStr := normalized;
      rolls := parsed;
    }

    /**
      `BowlingGame(game_str)`: refuses blank input, normalises, parses, and
      stores both; any error of the parser is passed on.
     */
    static method Create(input: string) returns (r: Result<BowlingGame>)
      ensures r.Fail? <==> Prepare(input).Fail?
      ensures r.Fail? ==> r.error == Prepare(input).error
      ensures r.Ok? ==> fresh(r.value) && r.value.Valid() && r.value.gameStr == Normalize(input)
                        && r.value.rolls == Prepare(input).value
    {
      if Blank(input) {
        return Fail(EmptyInput);
      }
      var normalized := Normalize(input);
      var parsed := ParseRolls(normalized);
      match parsed
      case Fail(e) =>
        return Fail(e);
      case Ok(rs) =>
        var game := new BowlingGame(normalized, rs);
        return Ok(game);
    }

    /**
      One pass of the frame loop of `calculate_score`: the points of frame
      `frame` starting at roll `rollIdx`, and where the next frame starts.
     */
    method ScoreFrame(frame: nat, rollIdx: nat) returns (r: Result<Tally>)
      ensures r == FrameScore(rolls, frame, rollIdx)
    {
      if rollIdx >= |rolls| {
        return Fail(IncompleteRequired);
      }
      var points := 0;
      var next := rollIdx;
      if rolls[rollIdx] == PinsPerFrame {
        var strike := StrikeScore(rolls, rollIdx);
        if strike.Fail? {
          return Fail(strike.error);
        }
        points := points + strike.value;
        next := next + 1;
        if frame == MaxFrames {
          next := next + 2;
        }
      } else if IsSpare(rolls, rollIdx) {
        var bonus := RollSafe(rolls, rollIdx + 2);
        if bonus.Fail? {
          return Fail(bonus.error);
        }
        points := points + PinsPerFrame + bonus.value;
        next := next + 2;
        if frame == MaxFrames {
          next := next + 1;
        }
      } else {
        if rollIdx + 1 >= |rolls| {
          return Fail(OpenFrameIndexError);
        }
        points := points + rolls[rollIdx] + rolls[rollIdx + 1];
        next := next + 2;
      }
      return Ok(Tally(points, next));
    }

    /** `calculate_score`: ten passes of the frame loop, then the trailing-data check. */
    method CalculateScore() returns (r: Result<int>)
      requires Valid()
      ensures r == Score(rolls)
      ensures r.Ok? ==> 0 <= r.value <= 300
    {
      var totalScore := 0;
      var rollIdx: nat := 0;
      for frame := 1 to MaxFrames + 1
        invariant Walk(rolls, frame - 1) == Ok(Tally(totalScore, rollIdx))
      {
        var f := ScoreFrame(frame, rollIdx);
        if f.Fail? {
          FrameFails(rolls, frame, totalScore, rollIdx);
          return Fail(f.error);
        }
        WalkExtend(rolls, frame, totalScore, rollIdx, f.value);
        totalScore := totalScore + f.value.points;
        rollIdx := f.value.cursor;
      }
      if rollIdx < |rolls| {
        return Fail(TrailingData(|rolls| - rollIdx));
      }
      ParsedScoreBounds(gameStr);
      return Ok(totalScore);
    }
  }

  /** Module-level `calculate_score`: build the game, then score it. */
  method CalculateScore(input: string) returns (r: Result<int>)
    ensures r == GameScore(input)
  {
    var game := BowlingGame.Create(input);
    match game
    case Fail(e) =>
      return Fail(e);
    case Ok(g) =>
      r := g.CalculateScore();
  }
}
