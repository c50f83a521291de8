/**
  The score calculator's specification: the walk of a cursor over the rolls
  for exactly ten frames (strike first, then spare, then open frame), the
  tenth frame also consuming its bonus rolls, and the final check that no
  roll is left over.

  `FrameScore` is one frame, `Walk(rolls, n)` the first `n` frames, `Score`
  the whole calculation; the loop of `BowlingGame.CalculateScore` is proved
  to compute `Score`.
 */
module Scoring {
  import opened BowlingTypes

  /** Points gathered and the cursor position reached. */
  datatype Tally = Tally(points: int, cursor: nat)

  /** `_get_roll_safe`: the roll at `idx`, or the missing-bonus error. */
  function RollSafe(rolls: seq<int>, idx: nat): (r: Result<int>)
    ensures r.Ok? <==> idx < |rolls|
    ensures r.Ok? ==> r.value == rolls[idx]
    ensures r.Fail? ==> r.error == IncompleteBonus
  {
    if idx >= |rolls| then Fail(IncompleteBonus) else Ok(rolls[idx])
  }

  /** `_is_spare`: two rolls from `idx` on that together make ten pins. */
  predicate IsSpare(rolls: seq<int>, idx: nat) {
    if idx + 1 >= |rolls| then false else rolls[idx] + rolls[idx + 1] == PinsPerFrame
  }

  /** `_get_strike_score`: ten plus the next two rolls, which must both exist. */
  function StrikeScore(rolls: seq<int>, idx: nat): (r: Result<int>)
    ensures r.Ok? <==> idx + 2 < |rolls|
    ensures r.Ok? ==> r.value == PinsPerFrame + rolls[idx + 1] + rolls[idx + 2]
    ensures r.Fail? ==> r.error == IncompleteBonus
  {
    match RollSafe(rolls, idx + 1)
    case Fail(e) => Fail(e)
    case Ok(b1) =>
      match RollSafe(rolls, idx + 2)
      case Fail(e) => Fail(e)
      case Ok(b2) => Ok(PinsPerFrame + b1 + b2)
  }

  /** Frame number `frame` starting at cursor `idx`: its points and where the next frame starts. */
  function FrameScore(rolls: seq<int>, frame: nat, idx: nat): Result<Tally> {
    if idx >= |rolls| then Fail(IncompleteRequired)
    else if rolls[idx] == PinsPerFrame then
      match StrikeScore(rolls, idx)
      case Fail(e) => Fail(e)
      case Ok(p) => Ok(Tally(p, if frame == MaxFrames then idx + 3 else idx + 1))
    else if IsSpare(rolls, idx) then
      match RollSafe(rolls, idx + 2)
      case Fail(e) => Fail(e)
      case Ok(b) => Ok(Tally(PinsPerFrame + b, if frame == MaxFrames then idx + 3 else idx + 2))
    else if idx + 1 >= |rolls| then Fail(OpenFrameIndexError)
    else Ok(Tally(rolls[idx] + rolls[idx + 1], idx + 2))
  }

  /** The first `n` frames: their points and where frame `n + 1` would start. */
  function Walk(rolls: seq<int>, n: nat): Result<Tally>
    decreases n
  {
    if n == 0 then Ok(Tally(0, 0))
    else match Walk(rolls, n - 1)
      case Fail(e) => Fail(e)
      case Ok(t) =>
        match FrameScore(rolls, n, t.cursor)
        case Fail(e) => Fail(e)
        case Ok(f) => Ok(Tally(t.points + f.points, f.cursor))
  }

  /** `calculate_score`: ten frames from the first roll, then no roll may remain. */
  function Score(rolls: seq<int>): Result<int> {
    match Walk(rolls, MaxFrames)
    case Fail(e) => Fail(e)
    case Ok(t) => if t.cursor < |rolls| then Fail(TrailingData(|rolls| - t.cursor)) else Ok(t.points)
  }

  /** The walk over `n` frames extends the walk over `n - 1` by frame `n`. */
  lemma WalkExtend(rolls: seq<int>, n: nat, points: int, idx: nat, f: Tally)
    requires 1 <= n && Walk(rolls, n - 1) == Ok(Tally(points, idx))
    requires FrameScore(rolls, n, idx) == Ok(f)
    ensures Walk(rolls, n) == Ok(Tally(points + f.points, f.cursor))
  {
  }

  /** A walk that fails at frame `n` makes the whole calculation fail the same way. */
  lemma {:induction false} ScoreStopsAtFrame(rolls: seq<int>, n: nat)
    requires 1 <= n <= MaxFrames && Walk(rolls, n).Fail?
    ensures Score(rolls) == Fail(Walk(rolls, n).error)
    decreases MaxFrames - n
  {
    if n < MaxFrames {
      ScoreStopsAtFrame(rolls, n + 1);
    }
  }

  /** A frame that cannot be scored makes the whole calculation fail with its error. */
  lemma FrameFails(rolls: seq<int>, n: nat, points: int, idx: nat)
    requires 1 <= n <= MaxFrames && Walk(rolls, n - 1) == Ok(Tally(points, idx))
    requires FrameScore(rolls, n, idx).Fail?
    ensures Score(rolls) == Fail(FrameScore(rolls, n, idx).error)
  {
    ScoreStopsAtFrame(rolls, n);
  }

  /** Every roll is a pin count of one rack. */
  predicate PinCounts(rolls: seq<int>) {
    forall i :: 0 <= i < |rolls| ==> 0 <= rolls[i] <= PinsPerFrame
  }

  /**
    A roll of ten at the cursor is always a strike, never the first half of
    a spare: the frame is worth ten plus the next two rolls (an error if
    either is missing), and consumes one roll, or three in frame 10.
   */
  lemma StrikeFirst(rolls: seq<int>, frame: nat, idx: nat)
    requires idx < |rolls| && rolls[idx] == PinsPerFrame
    ensures idx + 2 < |rolls| ==>
      FrameScore(rolls, frame, idx)
        == Ok(Tally(10 + rolls[idx + 1] + rolls[idx + 2], if frame == MaxFrames then idx + 3 else idx + 1))
    ensures idx + 2 >= |rolls| ==> FrameScore(rolls, frame, idx) == Fail(IncompleteBonus)
  {
  }

  /**
    Two rolls from the cursor that make ten pins, the first not a strike,
    are a spare: the frame is worth ten plus the roll after them (an error
    if it is missing), and consumes two rolls, or three in frame 10.
   */
  lemma SpareFrame(rolls: seq<int>, frame: nat, idx: nat)
    requires idx + 1 < |rolls| && rolls[idx] != PinsPerFrame && rolls[idx] + rolls[idx + 1] == PinsPerFrame
    ensures idx + 2 < |rolls| ==>
      FrameScore(rolls, frame, idx)
        == Ok(Tally(10 + rolls[idx + 2], if frame == MaxFrames then idx + 3 else idx + 2))
    ensures idx + 2 >= |rolls| ==> FrameScore(rolls, frame, idx) == Fail(IncompleteBonus)
  {
  }

  /**
    A frame that is neither a strike nor a spare scores its two rolls and
    consumes them; a missing second roll is the open-frame index error.
   */
  lemma OpenFrame(rolls: seq<int>, frame: nat, idx: nat)
    requires idx < |rolls| && rolls[idx] != PinsPerFrame && !IsSpare(rolls, idx)
    ensures idx + 1 < |rolls| ==>
      FrameScore(rolls, frame, idx) == Ok(Tally(rolls[idx] + rolls[idx + 1], idx + 2))
    ensures idx + 1 >= |rolls| ==> FrameScore(rolls, frame, idx) == Fail(OpenFrameIndexError)
  {
  }

  /**
    Each frame moves the cursor forward: by one or two rolls in frames 1-9,
    by two or three in frame 10, and never past the end of the rolls.
   */
  lemma FrameAdvance(rolls: seq<int>, frame: nat, idx: nat)
    requires FrameScore(rolls, frame, idx).Ok?
    ensures var c := FrameScore(rolls, frame, idx).value.cursor;
      && c <= |rolls|
      && (frame == MaxFrames ==> idx + 2 <= c <= idx + 3)
      && (frame != MaxFrames ==> idx + 1 <= c <= idx + 2)
  {
  }

  /**
    After `n` successful frames the cursor lies within the rolls, having
    consumed one or two rolls per frame, and one more in frame 10.
   */
  lemma {:induction false} WalkCursor(rolls: seq<int>, n: nat)
    requires n <= MaxFrames && Walk(rolls, n).Ok?
    ensures var c := Walk(rolls, n).value.cursor;
      && c <= |rolls|
      && (n < MaxFrames ==> n <= c <= 2 * n)
      && (n == MaxFrames ==> 11 <= c <= 21)
  {
    if n > 0 {
      WalkCursor(rolls, n - 1);
      FrameAdvance(rolls, n, Walk(rolls, n - 1).value.cursor);
    }
  }

  /** A walk fails only because rolls are missing. */
  lemma {:induction false} WalkErrors(rolls: seq<int>, n: nat)
    requires Walk(rolls, n).Fail?
    ensures var e := Walk(rolls, n).error;
      e == IncompleteRequired || e == IncompleteBonus || e == OpenFrameIndexError
  {
    if Walk(rolls, n - 1).Fail? {
      WalkErrors(rolls, n - 1);
    }
  }

  /**
    Cursor accounting: a score is produced exactly when the ten frames end
    with the cursor on the end of the rolls; "trailing data" reports the
    rolls after the cursor; every other failure is a missing roll.
   */
  lemma ScoreOutcome(rolls: seq<int>)
    ensures Score(rolls).Ok? <==>
      Walk(rolls, MaxFrames).Ok? && Walk(rolls, MaxFrames).value.cursor == |rolls|
    ensures Score(rolls).Ok? ==> Score(rolls).value == Walk(rolls, MaxFrames).value.points
    ensures Score(rolls).Fail? && Score(rolls).error.TrailingData? <==>
      Walk(rolls, MaxFrames).Ok? && Walk(rolls, MaxFrames).value.cursor < |rolls|
    ensures Score(rolls).Fail? && Score(rolls).error.TrailingData? ==>
      Score(rolls).error.extra == |rolls| - Walk(rolls, MaxFrames).value.cursor >= 1
    ensures Score(rolls).Fail? && !Score(rolls).error.TrailingData? ==>
      Score(rolls).error in {IncompleteRequired, IncompleteBonus, OpenFrameIndexError}
  {
    if Walk(rolls, MaxFrames).Ok? {
      WalkCursor(rolls, MaxFrames);
    } else {
      WalkErrors(rolls, MaxFrames);
    }
  }

  /** A complete game has between 11 rolls (nine strikes and an open frame) and 21. */
  lemma GameLength(rolls: seq<int>)
    requires Score(rolls).Ok?
    ensures 11 <= |rolls| <= 21
  {
    WalkCursor(rolls, MaxFrames);
  }

  /** Ten rolls or fewer can never make a game: the failure is a missing roll. */
  lemma ShortGameIncomplete(rolls: seq<int>)
    requires |rolls| <= 10
    ensures Score(rolls).Fail? && IsScoreError(Score(rolls).error) && !Score(rolls).error.TrailingData?
  {
    if Walk(rolls, MaxFrames).Ok? {
      WalkCursor(rolls, MaxFrames);
    }
    ScoreOutcome(rolls);
  }

  /** With pin counts for rolls, a frame is worth at most 30 points. */
  lemma FrameBounds(rolls: seq<int>, frame: nat, idx: nat)
    requires PinCounts(rolls) && FrameScore(rolls, frame, idx).Ok?
    ensures 0 <= FrameScore(rolls, frame, idx).value.points <= 30
  {
  }

  /** With pin counts for rolls, the first `n` frames are worth at most 30 each. */
  lemma {:induction false} WalkBounds(rolls: seq<int>, n: nat)
    requires PinCounts(rolls) && Walk(rolls, n).Ok?
    ensures 0 <= Walk(rolls, n).value.points <= 30 * n
  {
    if n > 0 {
      WalkBounds(rolls, n - 1);
      FrameBounds(rolls, n, Walk(rolls, n - 1).value.cursor);
    }
  }

  /** With pin counts for rolls, every score lies between 0 and 300. */
  lemma ScoreBounds(rolls: seq<int>)
    requires PinCounts(rolls) && Score(rolls).Ok?
    ensures 0 <= Score(rolls).value <= 300
  {
    WalkBounds(rolls, MaxFrames);
  }

  /** Total pins of a sequence of rolls. */
  function Sum(s: seq<int>): int {
    if s == [] then 0 else Sum(s[..|s| - 1]) + s[|s| - 1]
  }

  /** Frame `k + 1` is the pair of rolls at 2k and 2k+1, and it leaves pins standing. */
  predicate OpenPair(rolls: seq<int>, k: nat)
    requires 2 * k + 1 < |rolls|
  {
    0 <= rolls[2 * k] && 0 <= rolls[2 * k + 1] && rolls[2 * k] + rolls[2 * k + 1] < PinsPerFrame
  }

  /** Frames 1..n are pairs of rolls that each leave pins standing. */
  predicate OpenFrames(rolls: seq<int>, n: nat)
    requires 2 * n <= |rolls|
  {
    forall k :: 0 <= k < n ==> OpenPair(rolls, k)
  }

  /** With no strike and no spare, the first `n` frames score the pins of their rolls. */
  lemma {:induction false} OpenWalk(rolls: seq<int>, n: nat)
    requires 2 * n <= |rolls| && OpenFrames(rolls, n)
    ensures Walk(rolls, n) == Ok(Tally(Sum(rolls[..2 * n]), 2 * n))
  {
    if n > 0 {
      OpenWalk(rolls, n - 1);
      var i := 2 * (n - 1);
      assert OpenPair(rolls, n - 1);
      assert FrameScore(rolls, n, i) == Ok(Tally(rolls[i] + rolls[i + 1], i + 2));
      assert rolls[..i + 2][..i + 1] == rolls[..i + 1];
      assert rolls[..i + 1][..i] == rolls[..i];
    }
  }

  /** A game of ten open frames scores the total of its pins. */
  lemma OpenGameScoresPins(rolls: seq<int>)
    requires |rolls| == 2 * MaxFrames && OpenFrames(rolls, MaxFrames)
    ensures Score(rolls) == Ok(Sum(rolls))
  {
    OpenWalk(rolls, MaxFrames);
    assert rolls[..2 * MaxFrames] == rolls;
  }
}
