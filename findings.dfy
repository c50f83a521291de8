/**
  The bonus roll after a tenth-frame spare.

  The parser checks a digit that is the second roll of a frame against the
  roll before it, and exempts only a digit that follows a strike. After a
  spare in frame 10 the parser keeps the frame open for the bonus roll, so
  the bonus digit is checked against the spare's own roll: `5/6` in frame 10
  is refused as "Frame 10 exceeds 10 pins" although the six is thrown at ten
  fresh pins. The corrected reading also exempts a digit that directly
  follows `/`; everything else, including the scoring, is unchanged.
 */
module Findings {
  import opened BowlingTypes
  import opened Notation
  import opened Scoring
  import opened Game
  import opened Examples

  // ---------------------------------------------------------------------
  // As written
  // ---------------------------------------------------------------------

  /**
    As written: once the tenth-frame spare is read, a bonus digit that
    together with the spare's roll exceeds ten pins makes the whole
    notation fail with `FrameOverflow(10)`.
   */
  lemma SpareBonusRefused(s: string, i: nat)
    requires 0 < i < |s| && s[i - 1] == '/' && IsDigit(s[i])
    requires Scan(s, i).Ok? && Scan(s, i).value.frame == MaxFrames && !Scan(s, i).value.first
    requires Last(Scan(s, i).value.rolls) + DigitValue(s[i]) > PinsPerFrame
    ensures Parse(s) == Fail(FrameOverflow(MaxFrames))
  {
    FrameOverflowRule(s, i);
    ScanPrefix(s, i + 1, |s|);
  }

  // ---------------------------------------------------------------------
  // Corrected
  // ---------------------------------------------------------------------

  /** The overflow check as intended: neither a strike nor a spare is followed by a second roll of its frame. */
  predicate OverflowsIntended(s: string, i: nat, st: ParseState, v: int)
    requires i < |s| && |st.rolls| == i && (st.first || i > 0)
  {
    Overflows(s, i, st, v) && s[i - 1] != '/'
  }

  /** One character of the corrected scan: the digit check uses `OverflowsIntended`. */
  function StepIntended(s: string, i: nat, st: ParseState): (r: Result<ParseState>)
    requires i < |s| && |st.rolls| == i && (st.first || i > 0)
    ensures r.Ok? ==> |r.value.rolls| == i + 1
  {
    if IsDigit(s[i]) && DigitValue(s[i]) < PinsPerFrame && Overflows(s, i, st, DigitValue(s[i]))
       && !OverflowsIntended(s, i, st, DigitValue(s[i]))
    then Ok(NextRoll(st, DigitValue(s[i])))
    else Step(s, i, st)
  }

  /** The corrected scan after the first `n` characters. */
  function ScanIntended(s: string, n: nat): (r: Result<ParseState>)
    requires n <= |s|
    ensures r.Ok? ==> |r.value.rolls| == n && (r.value.first || n > 0)
    decreases n
  {
    if n == 0 then Ok(Start)
    else match ScanIntended(s, n - 1)
      case Fail(e) => Fail(e)
      case Ok(st) => StepIntended(s, n - 1, st)
  }

  /** The corrected `_parse_rolls`. */
  function ParseIntended(s: string): Result<seq<int>> {
    match ScanIntended(s, |s|)
    case Fail(e) => Fail(e)
    case Ok(st) => Ok(st.rolls)
  }

  /** The corrected `calculate_score`: the same normalisation and scoring. */
  function GameScoreIntended(input: string): Result<int> {
    if Blank(input) then Fail(EmptyInput)
    else match ParseIntended(Normalize(input))
      case Fail(e) => Fail(e)
      case Ok(rolls) => Score(rolls)
  }

  /**
    Corrected: a digit is refused for overflowing its frame exactly when it
    is a second roll of a frame up to 10, follows neither `X` nor `/`, and
    it and the roll before it exceed ten pins.
   */
  lemma FrameOverflowIntendedRule(s: string, i: nat)
    requires i < |s| && IsDigit(s[i]) && ScanIntended(s, i).Ok?
    ensures var st := ScanIntended(s, i).value;
      && (ScanIntended(s, i + 1).Fail? <==>
            !st.first && st.frame <= MaxFrames && s[i - 1] != 'X' && s[i - 1] != '/'
            && Last(st.rolls) + DigitValue(s[i]) > PinsPerFrame)
      && (ScanIntended(s, i + 1).Fail? ==> ScanIntended(s, i + 1) == Fail(FrameOverflow(st.frame)))
  {
  }

  /** Corrected: a digit right after a spare is always read, as ten fresh pins' worth of bonus. */
  lemma SpareBonusAccepted(s: string, i: nat)
    requires 0 < i < |s| && s[i - 1] == '/' && IsDigit(s[i]) && ScanIntended(s, i).Ok?
    ensures ScanIntended(s, i + 1).Ok?
    ensures ScanIntended(s, i + 1).value.rolls == ScanIntended(s, i).value.rolls + [DigitValue(s[i])]
  {
  }

  /** The correction only accepts more: every scan that succeeds as written succeeds alike. */
  lemma {:induction false} IntendedExtends(s: string, n: nat)
    requires n <= |s| && Scan(s, n).Ok?
    ensures ScanIntended(s, n) == Scan(s, n)
  {
    if n > 0 {
      ScanPrefix(s, n - 1, n);
      IntendedExtends(s, n - 1);
    }
  }

  /** Where no digit directly follows `/`, the corrected scan is the scan as written. */
  lemma {:induction false} IntendedAgrees(s: string, n: nat)
    requires n <= |s|
    requires forall j :: 0 < j < n ==> !(s[j - 1] == '/' && IsDigit(s[j]))
    ensures ScanIntended(s, n) == Scan(s, n)
  {
    if n > 0 {
      IntendedAgrees(s, n - 1);
    }
  }

  /** Every roll of a successful corrected scan is between 0 and 10 pins. */
  lemma {:induction false} IntendedPins(s: string, n: nat)
    requires n <= |s| && ScanIntended(s, n).Ok?
    ensures PinCounts(ScanIntended(s, n).value.rolls)
  {
    if n > 0 {
      IntendedPins(s, n - 1);
      var prev := ScanIntended(s, n - 1).value.rolls;
      var rolls := ScanIntended(s, n).value.rolls;
      assert rolls == prev + [rolls[n - 1]];
    }
  }

  /** Corrected: every successful game still scores between 0 and 300. */
  lemma GameScoreIntendedBounds(input: string)
    requires GameScoreIntended(input).Ok?
    ensures 0 <= GameScoreIntended(input).value <= 300
  {
    IntendedPins(Normalize(input), |Normalize(input)|);
    ScoreBounds(ParseIntended(Normalize(input)).value);
  }

  /** Roll `k` of a successful scan of `n` characters is the roll read at character `k`. */
  lemma ScanKept(s: string, k: nat, n: nat)
    requires k < n <= |s| && Scan(s, n).Ok?
    ensures Scan(s, k + 1).Ok? && Scan(s, n).value.rolls[k] == Last(Scan(s, k + 1).value.rolls)
  {
    ScanPrefix(s, k + 1, n);
  }


  /** As written: every notation that starts with nine open frames of misses and `5/6` is refused. */
  lemma TenthSpareSixRolls(s: string)
    requires |s| >= 21 && s[0] == '-' && s[1] == '-' && s[2] == '-' && s[3] == '-' && s[4] == '-'
    requires s[5] == '-' && s[6] == '-' && s[7] == '-' && s[8] == '-' && s[9] == '-' && s[10] == '-'
    requires s[11] == '-' && s[12] == '-' && s[13] == '-' && s[14] == '-' && s[15] == '-' && s[16] == '-'
    requires s[17] == '-' && s[18] == '5' && s[19] == '/' && s[20] == '6'
    ensures Parse(s) == Fail(FrameOverflow(10))
  {
    ReadMiss(s, 0, 1, true, 0);
    ReadMiss(s, 1, 1, false, 0);
    ReadMiss(s, 2, 2, true, 0);
    ReadMiss(s, 3, 2, false, 0);
    ReadMiss(s, 4, 3, true, 0);
    ReadMiss(s, 5, 3, false, 0);
    ReadMiss(s, 6, 4, true, 0);
    ReadMiss(s, 7, 4, false, 0);
    ReadMiss(s, 8, 5, true, 0);
    ReadMiss(s, 9, 5, false, 0);
    ReadMiss(s, 10, 6, true, 0);
    ReadMiss(s, 11, 6, false, 0);
    ReadMiss(s, 12, 7, true, 0);
    ReadMiss(s, 13, 7, false, 0);
    ReadMiss(s, 14, 8, true, 0);
    ReadMiss(s, 15, 8, false, 0);
    ReadMiss(s, 16, 9, true, 0);
    ReadMiss(s, 17, 9, false, 0);
    ReadDigit(s, 18, 10, true, 0);
    ReadSpare(s, 19, 10, false, 5);
    ParseStops(s, 20, 10, false, 5, FrameOverflow(10));
  }

  /** From character 14 on, the notation is normalised. */
  lemma TenthSpareSixNormalFrom14(s: string)
    requires |s| == 21 && s[14] == '-' && s[15] == '-' && s[16] == '-' && s[17] == '-' && s[18] == '5'
    requires s[19] == '/' && s[20] == '6'
    ensures Normalized(s[14..])
  {
    assert Normalized(s[21..]);
    NormalFrom(s, 20);
    NormalFrom(s, 19);
    NormalFrom(s, 18);
    NormalFrom(s, 17);
    NormalFrom(s, 16);
    NormalFrom(s, 15);
    NormalFrom(s, 14);
  }

  /** From character 7 on, the notation is normalised. */
  lemma TenthSpareSixNormalFrom7(s: string)
    requires |s| == 21 && s[7] == '-' && s[8] == '-' && s[9] == '-' && s[10] == '-' && s[11] == '-'
    requires s[12] == '-' && s[13] == '-' && s[14] == '-' && s[15] == '-' && s[16] == '-' && s[17] == '-'
    requires s[18] == '5' && s[19] == '/' && s[20] == '6'
    ensures Normalized(s[7..])
  {
    TenthSpareSixNormalFrom14(s);
    NormalFrom(s, 13);
    NormalFrom(s, 12);
    NormalFrom(s, 11);
    NormalFrom(s, 10);
    NormalFrom(s, 9);
    NormalFrom(s, 8);
    NormalFrom(s, 7);
  }

  /** The notation is already normalised. */
  lemma TenthSpareSixNormalized(s: string)
    requires |s| == 21 && s[0] == '-' && s[1] == '-' && s[2] == '-' && s[3] == '-' && s[4] == '-'
    requires s[5] == '-' && s[6] == '-' && s[7] == '-' && s[8] == '-' && s[9] == '-' && s[10] == '-'
    requires s[11] == '-' && s[12] == '-' && s[13] == '-' && s[14] == '-' && s[15] == '-' && s[16] == '-'
    requires s[17] == '-' && s[18] == '5' && s[19] == '/' && s[20] == '6'
    ensures Normalized(s) && Normalize(s) == s
  {
    TenthSpareSixNormalFrom7(s);
    NormalFrom(s, 6);
    NormalFrom(s, 5);
    NormalFrom(s, 4);
    NormalFrom(s, 3);
    NormalFrom(s, 2);
    NormalFrom(s, 1);
    NormalFrom(s, 0);
    assert s[0..] == s;
    NormalizeFixed(s);
  }

  /** As written: nine frames of misses and `5/6` fail with `FrameOverflow(10)`. */
  lemma TenthSpareSixGame(s: string)
    requires |s| == 21 && s[0] == '-' && s[1] == '-' && s[2] == '-' && s[3] == '-' && s[4] == '-'
    requires s[5] == '-' && s[6] == '-' && s[7] == '-' && s[8] == '-' && s[9] == '-' && s[10] == '-'
    requires s[11] == '-' && s[12] == '-' && s[13] == '-' && s[14] == '-' && s[15] == '-' && s[16] == '-'
    requires s[17] == '-' && s[18] == '5' && s[19] == '/' && s[20] == '6'
    ensures GameScore(s) == Fail(FrameOverflow(10))
  {
    assert !IsWhitespace(s[0]);
    TenthSpareSixNormalized(s);
    TenthSpareSixRolls(s);
  }

  /** Corrected: nine frames of misses and `5/6` read as 21 rolls, the last one the bonus six. */
  lemma TenthSpareSixIntendedRolls(s: string)
    requires |s| == 21 && s[0] == '-' && s[1] == '-' && s[2] == '-' && s[3] == '-' && s[4] == '-'
    requires s[5] == '-' && s[6] == '-' && s[7] == '-' && s[8] == '-' && s[9] == '-' && s[10] == '-'
    requires s[11] == '-' && s[12] == '-' && s[13] == '-' && s[14] == '-' && s[15] == '-' && s[16] == '-'
    requires s[17] == '-' && s[18] == '5' && s[19] == '/' && s[20] == '6'
    ensures ParseIntended(s).Ok?
    ensures |ParseIntended(s).value| == 21 && ParseIntended(s).value[0] == 0 && ParseIntended(s).value[1] == 0 && ParseIntended(s).value[2] == 0
    ensures ParseIntended(s).value[3] == 0 && ParseIntended(s).value[4] == 0 && ParseIntended(s).value[5] == 0 && ParseIntended(s).value[6] == 0
    ensures ParseIntended(s).value[7] == 0 && ParseIntended(s).value[8] == 0 && ParseIntended(s).value[9] == 0 && ParseIntended(s).value[10] == 0
    ensures ParseIntended(s).value[11] == 0 && ParseIntended(s).value[12] == 0 && ParseIntended(s).value[13] == 0 && ParseIntended(s).value[14] == 0
    ensures ParseIntended(s).value[15] == 0 && ParseIntended(s).value[16] == 0 && ParseIntended(s).value[17] == 0 && ParseIntended(s).value[18] == 5
    ensures ParseIntended(s).value[19] == 5 && ParseIntended(s).value[20] == 6
  {
    ReadMiss(s, 0, 1, true, 0);
    ReadMiss(s, 1, 1, false, 0);
    ReadMiss(s, 2, 2, true, 0);
    ReadMiss(s, 3, 2, false, 0);
    ReadMiss(s, 4, 3, true, 0);
    ReadMiss(s, 5, 3, false, 0);
    ReadMiss(s, 6, 4, true, 0);
    ReadMiss(s, 7, 4, false, 0);
    ReadMiss(s, 8, 5, true, 0);
    ReadMiss(s, 9, 5, false, 0);
    ReadMiss(s, 10, 6, true, 0);
    ReadMiss(s, 11, 6, false, 0);
    ReadMiss(s, 12, 7, true, 0);
    ReadMiss(s, 13, 7, false, 0);
    ReadMiss(s, 14, 8, true, 0);
    ReadMiss(s, 15, 8, false, 0);
    ReadMiss(s, 16, 9, true, 0);
    ReadMiss(s, 17, 9, false, 0);
    ReadDigit(s, 18, 10, true, 0);
    ReadSpare(s, 19, 10, false, 5);
    IntendedExtends(s, 20);
    ScanKept(s, 0, 20);
    ScanKept(s, 1, 20);
    ScanKept(s, 2, 20);
    ScanKept(s, 3, 20);
    ScanKept(s, 4, 20);
    ScanKept(s, 5, 20);
    ScanKept(s, 6, 20);
    ScanKept(s, 7, 20);
    ScanKept(s, 8, 20);
    ScanKept(s, 9, 20);
    ScanKept(s, 10, 20);
    ScanKept(s, 11, 20);
    ScanKept(s, 12, 20);
    ScanKept(s, 13, 20);
    ScanKept(s, 14, 20);
    ScanKept(s, 15, 20);
    ScanKept(s, 16, 20);
    ScanKept(s, 17, 20);
    ScanKept(s, 18, 20);
    ScanKept(s, 19, 20);
  }

  /** Nine frames of misses, then 5, a spare and a bonus six: the rolls score 16. */
  lemma TenthSpareSixScore(rolls: seq<int>)
    requires |rolls| == 21 && rolls[0] == 0 && rolls[1] == 0 && rolls[2] == 0 && rolls[3] == 0 && rolls[4] == 0 && rolls[5] == 0 && rolls[6] == 0
    requires rolls[7] == 0 && rolls[8] == 0 && rolls[9] == 0 && rolls[10] == 0 && rolls[11] == 0 && rolls[12] == 0 && rolls[13] == 0 && rolls[14] == 0
    requires rolls[15] == 0 && rolls[16] == 0 && rolls[17] == 0 && rolls[18] == 5 && rolls[19] == 5 && rolls[20] == 6
    ensures Score(rolls) == Ok(16)
  {
    WalkExtend(rolls, 1, 0, 0, Tally(0, 2));
    WalkExtend(rolls, 2, 0, 2, Tally(0, 4));
    WalkExtend(rolls, 3, 0, 4, Tally(0, 6));
    WalkExtend(rolls, 4, 0, 6, Tally(0, 8));
    WalkExtend(rolls, 5, 0, 8, Tally(0, 10));
    WalkExtend(rolls, 6, 0, 10, Tally(0, 12));
    WalkExtend(rolls, 7, 0, 12, Tally(0, 14));
    WalkExtend(rolls, 8, 0, 14, Tally(0, 16));
    WalkExtend(rolls, 9, 0, 16, Tally(0, 18));
    WalkExtend(rolls, 10, 0, 18, Tally(16, 21));
  }

  /** Corrected: nine frames of misses and `5/6` score 16. */
  lemma TenthSpareSixIntendedGame(s: string)
    requires |s| == 21 && s[0] == '-' && s[1] == '-' && s[2] == '-' && s[3] == '-' && s[4] == '-'
    requires s[5] == '-' && s[6] == '-' && s[7] == '-' && s[8] == '-' && s[9] == '-' && s[10] == '-'
    requires s[11] == '-' && s[12] == '-' && s[13] == '-' && s[14] == '-' && s[15] == '-' && s[16] == '-'
    requires s[17] == '-' && s[18] == '5' && s[19] == '/' && s[20] == '6'
    ensures GameScoreIntended(s) == Ok(16)
  {
    assert !IsWhitespace(s[0]);
    TenthSpareSixNormalized(s);
    TenthSpareSixIntendedRolls(s);
    TenthSpareSixScore(ParseIntended(s).value);
  }

  /** The two outcomes written as the literal notation. */
  lemma TenthSpareSixLiteral()
    ensures GameScore("------------------5/6") == Fail(FrameOverflow(10))
    ensures GameScoreIntended("------------------5/6") == Ok(16)
  {
    TenthSpareSixGame("------------------5/6");
    TenthSpareSixIntendedGame("------------------5/6");
  }

}
