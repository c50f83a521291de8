/**
  The games of the original test suite, and a few more at the edges of the
  parser and the calculator, each worked out on the model.

  A notation `s` is given by its length and its characters, one by one. For
  each game, `...Rolls` reads the notation into rolls one character at a
  time, `...Score` scores those rolls one frame at a time, and `...Game`
  puts the two together for `GameScore`.
 */
module Examples {
  import opened BowlingTypes
  import opened Notation
  import opened Scoring
  import opened Game

  // ---------------------------------------------------------------------
  // One character of the scan
  // ---------------------------------------------------------------------

  /**
    After the first `n` characters the scan is in frame `frame`, waiting for
    the first roll of a frame or not, and the last roll read was `last`.
   */
  predicate At(s: string, n: nat, frame: nat, first: bool, last: int)
    requires n <= |s|
  {
    && Scan(s, n).Ok?
    && Scan(s, n).value.frame == frame
    && Scan(s, n).value.first == first
    && (n > 0 ==> Last(Scan(s, n).value.rolls) == last)
  }

  lemma ReadStrike(s: string, n: nat, frame: nat, first: bool, last: int)
    requires n < |s| && s[n] == 'X' && At(s, n, frame, first, last)
    ensures At(s, n + 1, if frame < MaxFrames then frame + 1 else frame, frame < MaxFrames, 10)
  {
    var st := Scan(s, n).value;
    assert Scan(s, n + 1) == Ok(CloseFrame(st, 10));
  }

  lemma ReadMiss(s: string, n: nat, frame: nat, first: bool, last: int)
    requires n < |s| && s[n] == '-' && At(s, n, frame, first, last)
    ensures At(s, n + 1, if first then frame else frame + 1, !first, 0)
  {
  }

  lemma ReadSpare(s: string, n: nat, frame: nat, first: bool, last: int)
    requires n < |s| && s[n] == '/' && At(s, n, frame, first, last)
    requires n > 0 && s[n - 1] != 'X'
    ensures At(s, n + 1, if frame < MaxFrames then frame + 1 else frame, frame < MaxFrames, 10 - last)
  {
    var st := Scan(s, n).value;
    assert Scan(s, n + 1) == Ok(CloseFrame(st, 10 - last));
  }

  lemma ReadDigit(s: string, n: nat, frame: nat, first: bool, last: int)
    requires n < |s| && IsDigit(s[n]) && At(s, n, frame, first, last)
    requires first || frame > MaxFrames || last + DigitValue(s[n]) <= 10 || s[n - 1] == 'X'
    ensures At(s, n + 1, if first then frame else frame + 1, !first, DigitValue(s[n]))
  {
  }

  /** The character at `n` is refused, and so is the whole notation. */
  lemma ParseStops(s: string, n: nat, frame: nat, first: bool, last: int, e: Err)
    requires n < |s| && At(s, n, frame, first, last) && Step(s, n, Scan(s, n).value) == Fail(e)
    ensures Parse(s) == Fail(e)
  {
    ScanPrefix(s, n + 1, |s|);
  }

  /** Roll `k` of an accepted notation is the roll the scan read at character `k`. */
  lemma RollKept(s: string, k: nat)
    requires k < |s| && Parse(s).Ok?
    ensures Scan(s, k + 1).Ok? && Parse(s).value[k] == Last(Scan(s, k + 1).value.rolls)
  {
    ScanPrefix(s, k + 1, |s|);
  }

  // ---------------------------------------------------------------------
  // Normalisation of the inputs
  // ---------------------------------------------------------------------

  /** The suffix from `k` is normalised when its first character is and the rest is. */
  lemma NormalFrom(s: string, k: nat)
    requires k < |s| && s[k] != ' ' && !('a' <= s[k] <= 'z') && Normalized(s[k + 1..])
    ensures Normalized(s[k..])
  {
    forall i | 0 <= i < |s| - k
      ensures s[k..][i] != ' ' && !('a' <= s[k..][i] <= 'z')
    {
      if i > 0 {
        assert s[k..][i] == s[k + 1..][i - 1];
      }
    }
  }

  /** Nothing but strikes. */
  predicate AllStrikes(t: string) {
    forall i :: 0 <= i < |t| ==> t[i] == 'X'
  }

  /** A lower-case `x` becomes a strike and a space disappears. */
  lemma LowerStrike(s: string, k: nat, count: nat)
    requires k < |s| && (s[k] == 'x' || s[k] == ' ')
    requires |Normalize(s[k + 1..])| == count && AllStrikes(Normalize(s[k + 1..]))
    ensures |Normalize(s[k..])| == count + (if s[k] == 'x' then 1 else 0)
    ensures AllStrikes(Normalize(s[k..]))
  {
    assert s[k..][1..] == s[k + 1..];
  }

  // ---------------------------------------------------------------------
  // Nine pins and a miss in every frame
  // ---------------------------------------------------------------------

  /** Nine pins and a miss in every frame: one roll per character, as listed. */
  lemma NinesRolls(s: string)
    requires |s| == 20 && s[0] == '9' && s[1] == '-' && s[2] == '9' && s[3] == '-' && s[4] == '9'
    requires s[5] == '-' && s[6] == '9' && s[7] == '-' && s[8] == '9' && s[9] == '-' && s[10] == '9'
    requires s[11] == '-' && s[12] == '9' && s[13] == '-' && s[14] == '9' && s[15] == '-' && s[16] == '9'
    requires s[17] == '-' && s[18] == '9' && s[19] == '-'
    ensures Parse(s).Ok?
    ensures |Parse(s).value| == 20 && Parse(s).value[0] == 9 && Parse(s).value[1] == 0 && Parse(s).value[2] == 9
    ensures Parse(s).value[3] == 0 && Parse(s).value[4] == 9 && Parse(s).value[5] == 0 && Parse(s).value[6] == 9
    ensures Parse(s).value[7] == 0 && Parse(s).value[8] == 9 && Parse(s).value[9] == 0 && Parse(s).value[10] == 9
    ensures Parse(s).value[11] == 0 && Parse(s).value[12] == 9 && Parse(s).value[13] == 0 && Parse(s).value[14] == 9
    ensures Parse(s).value[15] == 0 && Parse(s).value[16] == 9 && Parse(s).value[17] == 0 && Parse(s).value[18] == 9
    ensures Parse(s).value[19] == 0
  {
    ReadDigit(s, 0, 1, true, 0);
    ReadMiss(s, 1, 1, false, 9);
    ReadDigit(s, 2, 2, true, 0);
    ReadMiss(s, 3, 2, false, 9);
    ReadDigit(s, 4, 3, true, 0);
    ReadMiss(s, 5, 3, false, 9);
    ReadDigit(s, 6, 4, true, 0);
    ReadMiss(s, 7, 4, false, 9);
    ReadDigit(s, 8, 5, true, 0);
    ReadMiss(s, 9, 5, false, 9);
    ReadDigit(s, 10, 6, true, 0);
    ReadMiss(s, 11, 6, false, 9);
    ReadDigit(s, 12, 7, true, 0);
    ReadMiss(s, 13, 7, false, 9);
    ReadDigit(s, 14, 8, true, 0);
    ReadMiss(s, 15, 8, false, 9);
    ReadDigit(s, 16, 9, true, 0);
    ReadMiss(s, 17, 9, false, 9);
    ReadDigit(s, 18, 10, true, 0);
    ReadMiss(s, 19, 10, false, 9);
    RollKept(s, 0);
    RollKept(s, 1);
    RollKept(s, 2);
    RollKept(s, 3);
    RollKept(s, 4);
    RollKept(s, 5);
    RollKept(s, 6);
    RollKept(s, 7);
    RollKept(s, 8);
    RollKept(s, 9);
    RollKept(s, 10);
    RollKept(s, 11);
    RollKept(s, 12);
    RollKept(s, 13);
    RollKept(s, 14);
    RollKept(s, 15);
    RollKept(s, 16);
    RollKept(s, 17);
    RollKept(s, 18);
    RollKept(s, 19);
  }

  /** Nine pins and a miss in every frame: the rolls score 90. */
  lemma NinesScore(rolls: seq<int>)
    requires |rolls| == 20 && rolls[0] == 9 && rolls[1] == 0 && rolls[2] == 9 && rolls[3] == 0 && rolls[4] == 9 && rolls[5] == 0 && rolls[6] == 9
    requires rolls[7] == 0 && rolls[8] == 9 && rolls[9] == 0 && rolls[10] == 9 && rolls[11] == 0 && rolls[12] == 9 && rolls[13] == 0 && rolls[14] == 9
    requires rolls[15] == 0 && rolls[16] == 9 && rolls[17] == 0 && rolls[18] == 9 && rolls[19] == 0
    ensures Score(rolls) == Ok(90)
  {
    WalkExtend(rolls, 1, 0, 0, Tally(9, 2));
    WalkExtend(rolls, 2, 9, 2, Tally(9, 4));
    WalkExtend(rolls, 3, 18, 4, Tally(9, 6));
    WalkExtend(rolls, 4, 27, 6, Tally(9, 8));
    WalkExtend(rolls, 5, 36, 8, Tally(9, 10));
    WalkExtend(rolls, 6, 45, 10, Tally(9, 12));
    WalkExtend(rolls, 7, 54, 12, Tally(9, 14));
    WalkExtend(rolls, 8, 63, 14, Tally(9, 16));
    WalkExtend(rolls, 9, 72, 16, Tally(9, 18));
    WalkExtend(rolls, 10, 81, 18, Tally(9, 20));
  }

  /** Nine pins and a miss in every frame: the game scores 90. */
  lemma NinesGame(s: string)
    requires |s| == 20 && s[0] == '9' && s[1] == '-' && s[2] == '9' && s[3] == '-' && s[4] == '9'
    requires s[5] == '-' && s[6] == '9' && s[7] == '-' && s[8] == '9' && s[9] == '-' && s[10] == '9'
    requires s[11] == '-' && s[12] == '9' && s[13] == '-' && s[14] == '9' && s[15] == '-' && s[16] == '9'
    requires s[17] == '-' && s[18] == '9' && s[19] == '-'
    ensures GameScore(s) == Ok(90)
  {
    assert !IsWhitespace(s[0]);
    NinesRolls(s);
    AcceptedIsNormalized(s);
    NinesScore(Parse(s).value);
  }

  /** The same game written as the literal notation. */
  lemma NinesLiteral()
    ensures GameScore("9-9-9-9-9-9-9-9-9-9-") == Ok(90)
  {
    NinesGame("9-9-9-9-9-9-9-9-9-9-");
  }

  // ---------------------------------------------------------------------
  // Twelve strikes, the perfect game
  // ---------------------------------------------------------------------

  /** Twelve strikes, the perfect game: one roll per character, as listed. */
  lemma PerfectRolls(s: string)
    requires |s| == 12 && s[0] == 'X' && s[1] == 'X' && s[2] == 'X' && s[3] == 'X' && s[4] == 'X'
    requires s[5] == 'X' && s[6] == 'X' && s[7] == 'X' && s[8] == 'X' && s[9] == 'X' && s[10] == 'X'
    requires s[11] == 'X'
    ensures Parse(s).Ok?
    ensures |Parse(s).value| == 12 && Parse(s).value[0] == 10 && Parse(s).value[1] == 10 && Parse(s).value[2] == 10
    ensures Parse(s).value[3] == 10 && Parse(s).value[4] == 10 && Parse(s).value[5] == 10 && Parse(s).value[6] == 10
    ensures Parse(s).value[7] == 10 && Parse(s).value[8] == 10 && Parse(s).value[9] == 10 && Parse(s).value[10] == 10
    ensures Parse(s).value[11] == 10
  {
    ReadStrike(s, 0, 1, true, 0);
    ReadStrike(s, 1, 2, true, 10);
    ReadStrike(s, 2, 3, true, 10);
    ReadStrike(s, 3, 4, true, 10);
    ReadStrike(s, 4, 5, true, 10);
    ReadStrike(s, 5, 6, true, 10);
    ReadStrike(s, 6, 7, true, 10);
    ReadStrike(s, 7, 8, true, 10);
    ReadStrike(s, 8, 9, true, 10);
    ReadStrike(s, 9, 10, true, 10);
    ReadStrike(s, 10, 10, false, 10);
    ReadStrike(s, 11, 10, false, 10);
    RollKept(s, 0);
    RollKept(s, 1);
    RollKept(s, 2);
    RollKept(s, 3);
    RollKept(s, 4);
    RollKept(s, 5);
    RollKept(s, 6);
    RollKept(s, 7);
    RollKept(s, 8);
    RollKept(s, 9);
    RollKept(s, 10);
    RollKept(s, 11);
  }

  /** Twelve strikes, the perfect game: the rolls score 300. */
  lemma PerfectScore(rolls: seq<int>)
    requires |rolls| == 12 && rolls[0] == 10 && rolls[1] == 10 && rolls[2] == 10 && rolls[3] == 10 && rolls[4] == 10 && rolls[5] == 10 && rolls[6] == 10
    requires rolls[7] == 10 && rolls[8] == 10 && rolls[9] == 10 && rolls[10] == 10 && rolls[11] == 10
    ensures Score(rolls) == Ok(300)
  {
    WalkExtend(rolls, 1, 0, 0, Tally(30, 1));
    WalkExtend(rolls, 2, 30, 1, Tally(30, 2));
    WalkExtend(rolls, 3, 60, 2, Tally(30, 3));
    WalkExtend(rolls, 4, 90, 3, Tally(30, 4));
    WalkExtend(rolls, 5, 120, 4, Tally(30, 5));
    WalkExtend(rolls, 6, 150, 5, Tally(30, 6));
    WalkExtend(rolls, 7, 180, 6, Tally(30, 7));
    WalkExtend(rolls, 8, 210, 7, Tally(30, 8));
    WalkExtend(rolls, 9, 240, 8, Tally(30, 9));
    WalkExtend(rolls, 10, 270, 9, Tally(30, 12));
  }

  /** Twelve strikes, the perfect game: the game scores 300. */
  lemma PerfectGame(s: string)
    requires |s| == 12 && s[0] == 'X' && s[1] == 'X' && s[2] == 'X' && s[3] == 'X' && s[4] == 'X'
    requires s[5] == 'X' && s[6] == 'X' && s[7] == 'X' && s[8] == 'X' && s[9] == 'X' && s[10] == 'X'
    requires s[11] == 'X'
    ensures GameScore(s) == Ok(300)
  {
    assert !IsWhitespace(s[0]);
    PerfectRolls(s);
    AcceptedIsNormalized(s);
    PerfectScore(Parse(s).value);
  }

  /** The same game written as the literal notation. */
  lemma PerfectLiteral()
    ensures GameScore("XXXXXXXXXXXX") == Ok(300)
  {
    PerfectGame("XXXXXXXXXXXX");
  }

  // ---------------------------------------------------------------------
  // A five and a spare in every frame, then a five
  // ---------------------------------------------------------------------

  /** A five and a spare in every frame, then a five: one roll per character, as listed. */
  lemma FiveSparesRolls(s: string)
    requires |s| == 21 && s[0] == '5' && s[1] == '/' && s[2] == '5' && s[3] == '/' && s[4] == '5'
    requires s[5] == '/' && s[6] == '5' && s[7] == '/' && s[8] == '5' && s[9] == '/' && s[10] == '5'
    requires s[11] == '/' && s[12] == '5' && s[13] == '/' && s[14] == '5' && s[15] == '/' && s[16] == '5'
    requires s[17] == '/' && s[18] == '5' && s[19] == '/' && s[20] == '5'
    ensures Parse(s).Ok?
    ensures |Parse(s).value| == 21 && Parse(s).value[0] == 5 && Parse(s).value[1] == 5 && Parse(s).value[2] == 5
    ensures Parse(s).value[3] == 5 && Parse(s).value[4] == 5 && Parse(s).value[5] == 5 && Parse(s).value[6] == 5
    ensures Parse(s).value[7] == 5 && Parse(s).value[8] == 5 && Parse(s).value[9] == 5 && Parse(s).value[10] == 5
    ensures Parse(s).value[11] == 5 && Parse(s).value[12] == 5 && Parse(s).value[13] == 5 && Parse(s).value[14] == 5
    ensures Parse(s).value[15] == 5 && Parse(s).value[16] == 5 && Parse(s).value[17] == 5 && Parse(s).value[18] == 5
    ensures Parse(s).value[19] == 5 && Parse(s).value[20] == 5
  {
    ReadDigit(s, 0, 1, true, 0);
    ReadSpare(s, 1, 1, false, 5);
    ReadDigit(s, 2, 2, true, 5);
    ReadSpare(s, 3, 2, false, 5);
    ReadDigit(s, 4, 3, true, 5);
    ReadSpare(s, 5, 3, false, 5);
    ReadDigit(s, 6, 4, true, 5);
    ReadSpare(s, 7, 4, false, 5);
    ReadDigit(s, 8, 5, true, 5);
    ReadSpare(s, 9, 5, false, 5);
    ReadDigit(s, 10, 6, true, 5);
    ReadSpare(s, 11, 6, false, 5);
    ReadDigit(s, 12, 7, true, 5);
    ReadSpare(s, 13, 7, false, 5);
    ReadDigit(s, 14, 8, true, 5);
    ReadSpare(s, 15, 8, false, 5);
    ReadDigit(s, 16, 9, true, 5);
    ReadSpare(s, 17, 9, false, 5);
    ReadDigit(s, 18, 10, true, 5);
    ReadSpare(s, 19, 10, false, 5);
    ReadDigit(s, 20, 10, false, 5);
    RollKept(s, 0);
    RollKept(s, 1);
    RollKept(s, 2);
    RollKept(s, 3);
    RollKept(s, 4);
    RollKept(s, 5);
    RollKept(s, 6);
    RollKept(s, 7);
    RollKept(s, 8);
    RollKept(s, 9);
    RollKept(s, 10);
    RollKept(s, 11);
    RollKept(s, 12);
    RollKept(s, 13);
    RollKept(s, 14);
    RollKept(s, 15);
    RollKept(s, 16);
    RollKept(s, 17);
    RollKept(s, 18);
    RollKept(s, 19);
    RollKept(s, 20);
  }

  /** A five and a spare in every frame, then a five: the rolls score 150. */
  lemma FiveSparesScore(rolls: seq<int>)
    requires |rolls| == 21 && rolls[0] == 5 && rolls[1] == 5 && rolls[2] == 5 && rolls[3] == 5 && rolls[4] == 5 && rolls[5] == 5 && rolls[6] == 5
    requires rolls[7] == 5 && rolls[8] == 5 && rolls[9] == 5 && rolls[10] == 5 && rolls[11] == 5 && rolls[12] == 5 && rolls[13] == 5 && rolls[14] == 5
    requires rolls[15] == 5 && rolls[16] == 5 && rolls[17] == 5 && rolls[18] == 5 && rolls[19] == 5 && rolls[20] == 5
    ensures Score(rolls) == Ok(150)
  {
    WalkExtend(rolls, 1, 0, 0, Tally(15, 2));
    WalkExtend(rolls, 2, 15, 2, Tally(15, 4));
    WalkExtend(rolls, 3, 30, 4, Tally(15, 6));
    WalkExtend(rolls, 4, 45, 6, Tally(15, 8));
    WalkExtend(rolls, 5, 60, 8, Tally(15, 10));
    WalkExtend(rolls, 6, 75, 10, Tally(15, 12));
    WalkExtend(rolls, 7, 90, 12, Tally(15, 14));
    WalkExtend(rolls, 8, 105, 14, Tally(15, 16));
    WalkExtend(rolls, 9, 120, 16, Tally(15, 18));
    WalkExtend(rolls, 10, 135, 18, Tally(15, 21));
  }

  /** A five and a spare in every frame, then a five: the game scores 150. */
  lemma FiveSparesGame(s: string)
    requires |s| == 21 && s[0] == '5' && s[1] == '/' && s[2] == '5' && s[3] == '/' && s[4] == '5'
    requires s[5] == '/' && s[6] == '5' && s[7] == '/' && s[8] == '5' && s[9] == '/' && s[10] == '5'
    requires s[11] == '/' && s[12] == '5' && s[13] == '/' && s[14] == '5' && s[15] == '/' && s[16] == '5'
    requires s[17] == '/' && s[18] == '5' && s[19] == '/' && s[20] == '5'
    ensures GameScore(s) == Ok(150)
  {
    assert !IsWhitespace(s[0]);
    FiveSparesRolls(s);
    AcceptedIsNormalized(s);
    FiveSparesScore(Parse(s).value);
  }

  /** The same game written as the literal notation. */
  lemma FiveSparesLiteral()
    ensures GameScore("5/5/5/5/5/5/5/5/5/5/5") == Ok(150)
  {
    FiveSparesGame("5/5/5/5/5/5/5/5/5/5/5");
  }

  // ---------------------------------------------------------------------
  // Strikes, spares and open frames mixed
  // ---------------------------------------------------------------------

  /** Strikes, spares and open frames mixed: one roll per character, as listed. */
  lemma MixedRolls(s: string)
    requires |s| == 18 && s[0] == 'X' && s[1] == '7' && s[2] == '/' && s[3] == '9' && s[4] == '-'
    requires s[5] == 'X' && s[6] == '-' && s[7] == '8' && s[8] == '8' && s[9] == '/' && s[10] == '-'
    requires s[11] == '6' && s[12] == 'X' && s[13] == '8' && s[14] == '/' && s[15] == 'X' && s[16] == '1'
    requires s[17] == '1'
    ensures Parse(s).Ok?
    ensures |Parse(s).value| == 18 && Parse(s).value[0] == 10 && Parse(s).value[1] == 7 && Parse(s).value[2] == 3
    ensures Parse(s).value[3] == 9 && Parse(s).value[4] == 0 && Parse(s).value[5] == 10 && Parse(s).value[6] == 0
    ensures Parse(s).value[7] == 8 && Parse(s).value[8] == 8 && Parse(s).value[9] == 2 && Parse(s).value[10] == 0
    ensures Parse(s).value[11] == 6 && Parse(s).value[12] == 10 && Parse(s).value[13] == 8 && Parse(s).value[14] == 2
    ensures Parse(s).value[15] == 10 && Parse(s).value[16] == 1 && Parse(s).value[17] == 1
  {
    ReadStrike(s, 0, 1, true, 0);
    ReadDigit(s, 1, 2, true, 10);
    ReadSpare(s, 2, 2, false, 7);
    ReadDigit(s, 3, 3, true, 3);
    ReadMiss(s, 4, 3, false, 9);
    ReadStrike(s, 5, 4, true, 0);
    ReadMiss(s, 6, 5, true, 10);
    ReadDigit(s, 7, 5, false, 0);
    ReadDigit(s, 8, 6, true, 8);
    ReadSpare(s, 9, 6, false, 8);
    ReadMiss(s, 10, 7, true, 2);
    ReadDigit(s, 11, 7, false, 0);
    ReadStrike(s, 12, 8, true, 6);
    ReadDigit(s, 13, 9, true, 10);
    ReadSpare(s, 14, 9, false, 8);
    ReadStrike(s, 15, 10, true, 2);
    ReadDigit(s, 16, 10, false, 10);
    ReadDigit(s, 17, 11, true, 1);
    RollKept(s, 0);
    RollKept(s, 1);
    RollKept(s, 2);
    RollKept(s, 3);
    RollKept(s, 4);
    RollKept(s, 5);
    RollKept(s, 6);
    RollKept(s, 7);
    RollKept(s, 8);
    RollKept(s, 9);
    RollKept(s, 10);
    RollKept(s, 11);
    RollKept(s, 12);
    RollKept(s, 13);
    RollKept(s, 14);
    RollKept(s, 15);
    RollKept(s, 16);
    RollKept(s, 17);
  }

  /** Strikes, spares and open frames mixed: the rolls score 142. */
  lemma MixedScore(rolls: seq<int>)
    requires |rolls| == 18 && rolls[0] == 10 && rolls[1] == 7 && rolls[2] == 3 && rolls[3] == 9 && rolls[4] == 0 && rolls[5] == 10 && rolls[6] == 0
    requires rolls[7] == 8 && rolls[8] == 8 && rolls[9] == 2 && rolls[10] == 0 && rolls[11] == 6 && rolls[12] == 10 && rolls[13] == 8 && rolls[14] == 2
    requires rolls[15] == 10 && rolls[16] == 1 && rolls[17] == 1
    ensures Score(rolls) == Ok(142)
  {
    WalkExtend(rolls, 1, 0, 0, Tally(20, 1));
    WalkExtend(rolls, 2, 20, 1, Tally(19, 3));
    WalkExtend(rolls, 3, 39, 3, Tally(9, 5));
    WalkExtend(rolls, 4, 48, 5, Tally(18, 6));
    WalkExtend(rolls, 5, 66, 6, Tally(8, 8));
    WalkExtend(rolls, 6, 74, 8, Tally(10, 10));
    WalkExtend(rolls, 7, 84, 10, Tally(6, 12));
    WalkExtend(rolls, 8, 90, 12, Tally(20, 13));
    WalkExtend(rolls, 9, 110, 13, Tally(20, 15));
    WalkExtend(rolls, 10, 130, 15, Tally(12, 18));
  }

  /** Strikes, spares and open frames mixed: the game scores 142. */
  lemma MixedGame(s: string)
    requires |s| == 18 && s[0] == 'X' && s[1] == '7' && s[2] == '/' && s[3] == '9' && s[4] == '-'
    requires s[5] == 'X' && s[6] == '-' && s[7] == '8' && s[8] == '8' && s[9] == '/' && s[10] == '-'
    requires s[11] == '6' && s[12] == 'X' && s[13] == '8' && s[14] == '/' && s[15] == 'X' && s[16] == '1'
    requires s[17] == '1'
    ensures GameScore(s) == Ok(142)
  {
    assert !IsWhitespace(s[0]);
    MixedRolls(s);
    AcceptedIsNormalized(s);
    MixedScore(Parse(s).value);
  }

  /** The same game written as the literal notation. */
  lemma MixedLiteral()
    ensures GameScore("X7/9-X-88/-6X8/X11") == Ok(142)
  {
    MixedGame("X7/9-X-88/-6X8/X11");
  }

  // ---------------------------------------------------------------------
  // A tenth-frame strike with bonus rolls 5 and 2
  // ---------------------------------------------------------------------

  /** A tenth-frame strike with bonus rolls 5 and 2: one roll per character, as listed. */
  lemma TenthStrikeDigitsRolls(s: string)
    requires |s| == 21 && s[0] == '-' && s[1] == '-' && s[2] == '-' && s[3] == '-' && s[4] == '-'
    requires s[5] == '-' && s[6] == '-' && s[7] == '-' && s[8] == '-' && s[9] == '-' && s[10] == '-'
    requires s[11] == '-' && s[12] == '-' && s[13] == '-' && s[14] == '-' && s[15] == '-' && s[16] == '-'
    requires s[17] == '-' && s[18] == 'X' && s[19] == '5' && s[20] == '2'
    ensures Parse(s).Ok?
    ensures |Parse(s).value| == 21 && Parse(s).value[0] == 0 && Parse(s).value[1] == 0 && Parse(s).value[2] == 0
    ensures Parse(s).value[3] == 0 && Parse(s).value[4] == 0 && Parse(s).value[5] == 0 && Parse(s).value[6] == 0
    ensures Parse(s).value[7] == 0 && Parse(s).value[8] == 0 && Parse(s).value[9] == 0 && Parse(s).value[10] == 0
    ensures Parse(s).value[11] == 0 && Parse(s).value[12] == 0 && Parse(s).value[13] == 0 && Parse(s).value[14] == 0
    ensures Parse(s).value[15] == 0 && Parse(s).value[16] == 0 && Parse(s).value[17] == 0 && Parse(s).value[18] == 10
    ensures Parse(s).value[19] == 5 && Parse(s).value[20] == 2
  {
    ReadMiss(s, 0, 1, true, 0);
    ReadMiss(s, 1, 1, false, 0);
    ReadMiss(s, 2, 2, true, 0);
    ReadMiss(s, 3, 2, false, 0);
    ReadMiss(s, 4, 3, true, 0);
    ReadMiss(s, 5, 3, false, 0);
    ReadMiss(s, 6, 4, true, 0);
    ReadMiss(s, 7, 4, false, 0);
    ReadMiss(s, 8, 5, true, 0);
    ReadMiss(s, 9, 5, false, 0);
    ReadMiss(s, 10, 6, true, 0);
    ReadMiss(s, 11, 6, false, 0);
    ReadMiss(s, 12, 7, true, 0);
    ReadMiss(s, 13, 7, false, 0);
    ReadMiss(s, 14, 8, true, 0);
    ReadMiss(s, 15, 8, false, 0);
    ReadMiss(s, 16, 9, true, 0);
    ReadMiss(s, 17, 9, false, 0);
    ReadStrike(s, 18, 10, true, 0);
    ReadDigit(s, 19, 10, false, 10);
    ReadDigit(s, 20, 11, true, 5);
    RollKept(s, 0);
    RollKept(s, 1);
    RollKept(s, 2);
    RollKept(s, 3);
    RollKept(s, 4);
    RollKept(s, 5);
    RollKept(s, 6);
    RollKept(s, 7);
    RollKept(s, 8);
    RollKept(s, 9);
    RollKept(s, 10);
    RollKept(s, 11);
    RollKept(s, 12);
    RollKept(s, 13);
    RollKept(s, 14);
    RollKept(s, 15);
    RollKept(s, 16);
    RollKept(s, 17);
    RollKept(s, 18);
    RollKept(s, 19);
    RollKept(s, 20);
  }

  /** A tenth-frame strike with bonus rolls 5 and 2: the rolls score 17. */
  lemma TenthStrikeDigitsScore(rolls: seq<int>)
    requires |rolls| == 21 && rolls[0] == 0 && rolls[1] == 0 && rolls[2] == 0 && rolls[3] == 0 && rolls[4] == 0 && rolls[5] == 0 && rolls[6] == 0
    requires rolls[7] == 0 && rolls[8] == 0 && rolls[9] == 0 && rolls[10] == 0 && rolls[11] == 0 && rolls[12] == 0 && rolls[13] == 0 && rolls[14] == 0
    requires rolls[15] == 0 && rolls[16] == 0 && rolls[17] == 0 && rolls[18] == 10 && rolls[19] == 5 && rolls[20] == 2
    ensures Score(rolls) == Ok(17)
  {
    WalkExtend(rolls, 1, 0, 0, Tally(0, 2));
    WalkExtend(rolls, 2, 0, 2, Tally(0, 4));
    WalkExtend(rolls, 3, 0, 4, Tally(0, 6));
    WalkExtend(rolls, 4, 0, 6, Tally(0, 8));
    WalkExtend(rolls, 5, 0, 8, Tally(0, 10));
    WalkExtend(rolls, 6, 0, 10, Tally(0, 12));
    WalkExtend(rolls, 7, 0, 12, Tally(0, 14));
    WalkExtend(rolls, 8, 0, 14, Tally(0, 16));
    WalkExtend(rolls, 9, 0, 16, Tally(0, 18));
    WalkExtend(rolls, 10, 0, 18, Tally(17, 21));
  }

  /** A tenth-frame strike with bonus rolls 5 and 2: the game scores 17. */
  lemma TenthStrikeDigitsGame(s: string)
    requires |s| == 21 && s[0] == '-' && s[1] == '-' && s[2] == '-' && s[3] == '-' && s[4] == '-'
    requires s[5] == '-' && s[6] == '-' && s[7] == '-' && s[8] == '-' && s[9] == '-' && s[10] == '-'
    requires s[11] == '-' && s[12] == '-' && s[13] == '-' && s[14] == '-' && s[15] == '-' && s[16] == '-'
    requires s[17] == '-' && s[18] == 'X' && s[19] == '5' && s[20] == '2'
    ensures GameScore(s) == Ok(17)
  {
    assert !IsWhitespace(s[0]);
    TenthStrikeDigitsRolls(s);
    AcceptedIsNormalized(s);
    TenthStrikeDigitsScore(Parse(s).value);
  }

  /** The same game written as the literal notation. */
  lemma TenthStrikeDigitsLiteral()
    ensures GameScore("------------------X52") == Ok(17)
  {
    TenthStrikeDigitsGame("------------------X52");
  }

  // ---------------------------------------------------------------------
  // A tenth-frame spare with a strike as its bonus
  // ---------------------------------------------------------------------

  /** A tenth-frame spare with a strike as its bonus: one roll per character, as listed. */
  lemma TenthSpareStrikeRolls(s: string)
    requires |s| == 21 && s[0] == '-' && s[1] == '-' && s[2] == '-' && s[3] == '-' && s[4] == '-'
    requires s[5] == '-' && s[6] == '-' && s[7] == '-' && s[8] == '-' && s[9] == '-' && s[10] == '-'
    requires s[11] == '-' && s[12] == '-' && s[13] == '-' && s[14] == '-' && s[15] == '-' && s[16] == '-'
    requires s[17] == '-' && s[18] == '5' && s[19] == '/' && s[20] == 'X'
    ensures Parse(s).Ok?
    ensures |Parse(s).value| == 21 && Parse(s).value[0] == 0 && Parse(s).value[1] == 0 && Parse(s).value[2] == 0
    ensures Parse(s).value[3] == 0 && Parse(s).value[4] == 0 && Parse(s).value[5] == 0 && Parse(s).value[6] == 0
    ensures Parse(s).value[7] == 0 && Parse(s).value[8] == 0 && Parse(s).value[9] == 0 && Parse(s).value[10] == 0
    ensures Parse(s).value[11] == 0 && Parse(s).value[12] == 0 && Parse(s).value[13] == 0 && Parse(s).value[14] == 0
    ensures Parse(s).value[15] == 0 && Parse(s).value[16] == 0 && Parse(s).value[17] == 0 && Parse(s).value[18] == 5
    ensures Parse(s).value[19] == 5 && Parse(s).value[20] == 10
  {
    ReadMiss(s, 0, 1, true, 0);
    ReadMiss(s, 1, 1, false, 0);
    ReadMiss(s, 2, 2, true, 0);
    ReadMiss(s, 3, 2, false, 0);
    ReadMiss(s, 4, 3, true, 0);
    ReadMiss(s, 5, 3, false, 0);
    ReadMiss(s, 6, 4, true, 0);
    ReadMiss(s, 7, 4, false, 0);
    ReadMiss(s, 8, 5, true, 0);
    ReadMiss(s, 9, 5, false, 0);
    ReadMiss(s, 10, 6, true, 0);
    ReadMiss(s, 11, 6, false, 0);
    ReadMiss(s, 12, 7, true, 0);
    ReadMiss(s, 13, 7, false, 0);
    ReadMiss(s, 14, 8, true, 0);
    ReadMiss(s, 15, 8, false, 0);
    ReadMiss(s, 16, 9, true, 0);
    ReadMiss(s, 17, 9, false, 0);
    ReadDigit(s, 18, 10, true, 0);
    ReadSpare(s, 19, 10, false, 5);
    ReadStrike(s, 20, 10, false, 5);
    RollKept(s, 0);
    RollKept(s, 1);
    RollKept(s, 2);
    RollKept(s, 3);
    RollKept(s, 4);
    RollKept(s, 5);
    RollKept(s, 6);
    RollKept(s, 7);
    RollKept(s, 8);
    RollKept(s, 9);
    RollKept(s, 10);
    RollKept(s, 11);
    RollKept(s, 12);
    RollKept(s, 13);
    RollKept(s, 14);
    RollKept(s, 15);
    RollKept(s, 16);
    RollKept(s, 17);
    RollKept(s, 18);
    RollKept(s, 19);
    RollKept(s, 20);
  }

  /** A tenth-frame spare with a strike as its bonus: the rolls score 20. */
  lemma TenthSpareStrikeScore(rolls: seq<int>)
    requires |rolls| == 21 && rolls[0] == 0 && rolls[1] == 0 && rolls[2] == 0 && rolls[3] == 0 && rolls[4] == 0 && rolls[5] == 0 && rolls[6] == 0
    requires rolls[7] == 0 && rolls[8] == 0 && rolls[9] == 0 && rolls[10] == 0 && rolls[11] == 0 && rolls[12] == 0 && rolls[13] == 0 && rolls[14] == 0
    requires rolls[15] == 0 && rolls[16] == 0 && rolls[17] == 0 && rolls[18] == 5 && rolls[19] == 5 && rolls[20] == 10
    ensures Score(rolls) == Ok(20)
  {
    WalkExtend(rolls, 1, 0, 0, Tally(0, 2));
    WalkExtend(rolls, 2, 0, 2, Tally(0, 4));
    WalkExtend(rolls, 3, 0, 4, Tally(0, 6));
    WalkExtend(rolls, 4, 0, 6, Tally(0, 8));
    WalkExtend(rolls, 5, 0, 8, Tally(0, 10));
    WalkExtend(rolls, 6, 0, 10, Tally(0, 12));
    WalkExtend(rolls, 7, 0, 12, Tally(0, 14));
    WalkExtend(rolls, 8, 0, 14, Tally(0, 16));
    WalkExtend(rolls, 9, 0, 16, Tally(0, 18));
    WalkExtend(rolls, 10, 0, 18, Tally(20, 21));
  }

  /** A tenth-frame spare with a strike as its bonus: the game scores 20. */
  lemma TenthSpareStrikeGame(s: string)
    requires |s| == 21 && s[0] == '-' && s[1] == '-' && s[2] == '-' && s[3] == '-' && s[4] == '-'
    requires s[5] == '-' && s[6] == '-' && s[7] == '-' && s[8] == '-' && s[9] == '-' && s[10] == '-'
    requires s[11] == '-' && s[12] == '-' && s[13] == '-' && s[14] == '-' && s[15] == '-' && s[16] == '-'
    requires s[17] == '-' && s[18] == '5' && s[19] == '/' && s[20] == 'X'
    ensures GameScore(s) == Ok(20)
  {
    assert !IsWhitespace(s[0]);
    TenthSpareStrikeRolls(s);
    AcceptedIsNormalized(s);
    TenthSpareStrikeScore(Parse(s).value);
  }

  /** The same game written as the literal notation. */
  lemma TenthSpareStrikeLiteral()
    ensures GameScore("------------------5/X") == Ok(20)
  {
    TenthSpareStrikeGame("------------------5/X");
  }

  // ---------------------------------------------------------------------
  // Three strikes in the tenth frame
  // ---------------------------------------------------------------------

  /** Three strikes in the tenth frame: one roll per character, as listed. */
  lemma TenthThreeStrikesRolls(s: string)
    requires |s| == 21 && s[0] == '-' && s[1] == '-' && s[2] == '-' && s[3] == '-' && s[4] == '-'
    requires s[5] == '-' && s[6] == '-' && s[7] == '-' && s[8] == '-' && s[9] == '-' && s[10] == '-'
    requires s[11] == '-' && s[12] == '-' && s[13] == '-' && s[14] == '-' && s[15] == '-' && s[16] == '-'
    requires s[17] == '-' && s[18] == 'X' && s[19] == 'X' && s[20] == 'X'
    ensures Parse(s).Ok?
    ensures |Parse(s).value| == 21 && Parse(s).value[0] == 0 && Parse(s).value[1] == 0 && Parse(s).value[2] == 0
    ensures Parse(s).value[3] == 0 && Parse(s).value[4] == 0 && Parse(s).value[5] == 0 && Parse(s).value[6] == 0
    ensures Parse(s).value[7] == 0 && Parse(s).value[8] == 0 && Parse(s).value[9] == 0 && Parse(s).value[10] == 0
    ensures Parse(s).value[11] == 0 && Parse(s).value[12] == 0 && Parse(s).value[13] == 0 && Parse(s).value[14] == 0
    ensures Parse(s).value[15] == 0 && Parse(s).value[16] == 0 && Parse(s).value[17] == 0 && Parse(s).value[18] == 10
    ensures Parse(s).value[19] == 10 && Parse(s).value[20] == 10
  {
    ReadMiss(s, 0, 1, true, 0);
    ReadMiss(s, 1, 1, false, 0);
    ReadMiss(s, 2, 2, true, 0);
    ReadMiss(s, 3, 2, false, 0);
    ReadMiss(s, 4, 3, true, 0);
    ReadMiss(s, 5, 3, false, 0);
    ReadMiss(s, 6, 4, true, 0);
    ReadMiss(s, 7, 4, false, 0);
    ReadMiss(s, 8, 5, true, 0);
    ReadMiss(s, 9, 5, false, 0);
    ReadMiss(s, 10, 6, true, 0);
    ReadMiss(s, 11, 6, false, 0);
    ReadMiss(s, 12, 7, true, 0);
    ReadMiss(s, 13, 7, false, 0);
    ReadMiss(s, 14, 8, true, 0);
    ReadMiss(s, 15, 8, false, 0);
    ReadMiss(s, 16, 9, true, 0);
    ReadMiss(s, 17, 9, false, 0);
    ReadStrike(s, 18, 10, true, 0);
    ReadStrike(s, 19, 10, false, 10);
    ReadStrike(s, 20, 10, false, 10);
    RollKept(s, 0);
    RollKept(s, 1);
    RollKept(s, 2);
    RollKept(s, 3);
    RollKept(s, 4);
    RollKept(s, 5);
    RollKept(s, 6);
    RollKept(s, 7);
    RollKept(s, 8);
    RollKept(s, 9);
    RollKept(s, 10);
    RollKept(s, 11);
    RollKept(s, 12);
    RollKept(s, 13);
    RollKept(s, 14);
    RollKept(s, 15);
    RollKept(s, 16);
    RollKept(s, 17);
    RollKept(s, 18);
    RollKept(s, 19);
    RollKept(s, 20);
  }

  /** Three strikes in the tenth frame: the rolls score 30. */
  lemma TenthThreeStrikesScore(rolls: seq<int>)
    requires |rolls| == 21 && rolls[0] == 0 && rolls[1] == 0 && rolls[2] == 0 && rolls[3] == 0 && rolls[4] == 0 && rolls[5] == 0 && rolls[6] == 0
    requires rolls[7] == 0 && rolls[8] == 0 && rolls[9] == 0 && rolls[10] == 0 && rolls[11] == 0 && rolls[12] == 0 && rolls[13] == 0 && rolls[14] == 0
    requires rolls[15] == 0 && rolls[16] == 0 && rolls[17] == 0 && rolls[18] == 10 && rolls[19] == 10 && rolls[20] == 10
    ensures Score(rolls) == Ok(30)
  {
    WalkExtend(rolls, 1, 0, 0, Tally(0, 2));
    WalkExtend(rolls, 2, 0, 2, Tally(0, 4));
    WalkExtend(rolls, 3, 0, 4, Tally(0, 6));
    WalkExtend(rolls, 4, 0, 6, Tally(0, 8));
    WalkExtend(rolls, 5, 0, 8, Tally(0, 10));
    WalkExtend(rolls, 6, 0, 10, Tally(0, 12));
    WalkExtend(rolls, 7, 0, 12, Tally(0, 14));
    WalkExtend(rolls, 8, 0, 14, Tally(0, 16));
    WalkExtend(rolls, 9, 0, 16, Tally(0, 18));
    WalkExtend(rolls, 10, 0, 18, Tally(30, 21));
  }

  /** Three strikes in the tenth frame: the game scores 30. */
  lemma TenthThreeStrikesGame(s: string)
    requires |s| == 21 && s[0] == '-' && s[1] == '-' && s[2] == '-' && s[3] == '-' && s[4] == '-'
    requires s[5] == '-' && s[6] == '-' && s[7] == '-' && s[8] == '-' && s[9] == '-' && s[10] == '-'
    requires s[11] == '-' && s[12] == '-' && s[13] == '-' && s[14] == '-' && s[15] == '-' && s[16] == '-'
    requires s[17] == '-' && s[18] == 'X' && s[19] == 'X' && s[20] == 'X'
    ensures GameScore(s) == Ok(30)
  {
    assert !IsWhitespace(s[0]);
    TenthThreeStrikesRolls(s);
    AcceptedIsNormalized(s);
    TenthThreeStrikesScore(Parse(s).value);
  }

  /** The same game written as the literal notation. */
  lemma TenthThreeStrikesLiteral()
    ensures GameScore("------------------XXX") == Ok(30)
  {
    TenthThreeStrikesGame("------------------XXX");
  }

  // ---------------------------------------------------------------------
  // A spare right after a strike
  // ---------------------------------------------------------------------

  /** A spare right after a strike: every notation that starts this way is refused by the parser. */
  lemma SpareAfterStrikeRolls(s: string)
    requires |s| >= 2 && s[0] == 'X' && s[1] == '/'
    ensures Parse(s) == Fail(IllegalSpare)
  {
    ReadStrike(s, 0, 1, true, 0);
    ParseStops(s, 1, 2, true, 10, IllegalSpare);
  }

  /** A spare right after a strike: the game fails with `IllegalSpare`. */
  lemma SpareAfterStrikeGame(s: string)
    requires |s| == 20 && s[0] == 'X' && s[1] == '/' && s[2] == '-' && s[3] == '-' && s[4] == '-'
    requires s[5] == '-' && s[6] == '-' && s[7] == '-' && s[8] == '-' && s[9] == '-' && s[10] == '-'
    requires s[11] == '-' && s[12] == '-' && s[13] == '-' && s[14] == '-' && s[15] == '-' && s[16] == '-'
    requires s[17] == '-' && s[18] == '-' && s[19] == '-'
    ensures GameScore(s) == Fail(IllegalSpare)
  {
    assert !IsWhitespace(s[0]);
    var head := s[..2];
    assert Normalized(head[2..]);
    NormalFrom(head, 1);
    NormalFrom(head, 0);
    assert head[0..] == head;
    NormalizeFixed(head);
    NormalizeAppend(head, s[2..]);
    assert head + s[2..] == s;
    SpareAfterStrikeRolls(Normalize(s));
  }

  /** The same game written as the literal notation. */
  lemma SpareAfterStrikeLiteral()
    ensures GameScore("X/------------------") == Fail(IllegalSpare)
  {
    SpareAfterStrikeGame("X/------------------");
  }

  // ---------------------------------------------------------------------
  // Eight and three pins in frame 1
  // ---------------------------------------------------------------------

  /** Eight and three pins in frame 1: every notation that starts this way is refused by the parser. */
  lemma EightAndThreeRolls(s: string)
    requires |s| >= 2 && s[0] == '8' && s[1] == '3'
    ensures Parse(s) == Fail(FrameOverflow(1))
  {
    ReadDigit(s, 0, 1, true, 0);
    ParseStops(s, 1, 1, false, 8, FrameOverflow(1));
  }

  /** Eight and three pins in frame 1: the game fails with `FrameOverflow(1)`. */
  lemma EightAndThreeGame(s: string)
    requires |s| == 20 && s[0] == '8' && s[1] == '3' && s[2] == '-' && s[3] == '-' && s[4] == '-'
    requires s[5] == '-' && s[6] == '-' && s[7] == '-' && s[8] == '-' && s[9] == '-' && s[10] == '-'
    requires s[11] == '-' && s[12] == '-' && s[13] == '-' && s[14] == '-' && s[15] == '-' && s[16] == '-'
    requires s[17] == '-' && s[18] == '-' && s[19] == '-'
    ensures GameScore(s) == Fail(FrameOverflow(1))
  {
    assert !IsWhitespace(s[0]);
    var head := s[..2];
    assert Normalized(head[2..]);
    NormalFrom(head, 1);
    NormalFrom(head, 0);
    assert head[0..] == head;
    NormalizeFixed(head);
    NormalizeAppend(head, s[2..]);
    assert head + s[2..] == s;
    EightAndThreeRolls(Normalize(s));
  }

  /** The same game written as the literal notation. */
  lemma EightAndThreeLiteral()
    ensures GameScore("83------------------") == Fail(FrameOverflow(1))
  {
    EightAndThreeGame("83------------------");
  }

  // ---------------------------------------------------------------------
  // A tenth-frame strike with a single bonus roll
  // ---------------------------------------------------------------------

  /** A tenth-frame strike with a single bonus roll: one roll per character, as listed. */
  lemma TenthStrikeOneBonusRolls(s: string)
    requires |s| == 20 && s[0] == '-' && s[1] == '-' && s[2] == '-' && s[3] == '-' && s[4] == '-'
    requires s[5] == '-' && s[6] == '-' && s[7] == '-' && s[8] == '-' && s[9] == '-' && s[10] == '-'
    requires s[11] == '-' && s[12] == '-' && s[13] == '-' && s[14] == '-' && s[15] == '-' && s[16] == '-'
    requires s[17] == '-' && s[18] == 'X' && s[19] == '5'
    ensures Parse(s).Ok?
    ensures |Parse(s).value| == 20 && Parse(s).value[0] == 0 && Parse(s).value[1] == 0 && Parse(s).value[2] == 0
    ensures Parse(s).value[3] == 0 && Parse(s).value[4] == 0 && Parse(s).value[5] == 0 && Parse(s).value[6] == 0
    ensures Parse(s).value[7] == 0 && Parse(s).value[8] == 0 && Parse(s).value[9] == 0 && Parse(s).value[10] == 0
    ensures Parse(s).value[11] == 0 && Parse(s).value[12] == 0 && Parse(s).value[13] == 0 && Parse(s).value[14] == 0
    ensures Parse(s).value[15] == 0 && Parse(s).value[16] == 0 && Parse(s).value[17] == 0 && Parse(s).value[18] == 10
    ensures Parse(s).value[19] == 5
  {
    ReadMiss(s, 0, 1, true, 0);
    ReadMiss(s, 1, 1, false, 0);
    ReadMiss(s, 2, 2, true, 0);
    ReadMiss(s, 3, 2, false, 0);
    ReadMiss(s, 4, 3, true, 0);
    ReadMiss(s, 5, 3, false, 0);
    ReadMiss(s, 6, 4, true, 0);
    ReadMiss(s, 7, 4, false, 0);
    ReadMiss(s, 8, 5, true, 0);
    ReadMiss(s, 9, 5, false, 0);
    ReadMiss(s, 10, 6, true, 0);
    ReadMiss(s, 11, 6, false, 0);
    ReadMiss(s, 12, 7, true, 0);
    ReadMiss(s, 13, 7, false, 0);
    ReadMiss(s, 14, 8, true, 0);
    ReadMiss(s, 15, 8, false, 0);
    ReadMiss(s, 16, 9, true, 0);
    ReadMiss(s, 17, 9, false, 0);
    ReadStrike(s, 18, 10, true, 0);
    ReadDigit(s, 19, 10, false, 10);
    RollKept(s, 0);
    RollKept(s, 1);
    RollKept(s, 2);
    RollKept(s, 3);
    RollKept(s, 4);
    RollKept(s, 5);
    RollKept(s, 6);
    RollKept(s, 7);
    RollKept(s, 8);
    RollKept(s, 9);
    RollKept(s, 10);
    RollKept(s, 11);
    RollKept(s, 12);
    RollKept(s, 13);
    RollKept(s, 14);
    RollKept(s, 15);
    RollKept(s, 16);
    RollKept(s, 17);
    RollKept(s, 18);
    RollKept(s, 19);
  }

  /** A tenth-frame strike with a single bonus roll: the rolls fail with `IncompleteBonus`. */
  lemma TenthStrikeOneBonusScore(rolls: seq<int>)
    requires |rolls| == 20 && rolls[0] == 0 && rolls[1] == 0 && rolls[2] == 0 && rolls[3] == 0 && rolls[4] == 0 && rolls[5] == 0 && rolls[6] == 0
    requires rolls[7] == 0 && rolls[8] == 0 && rolls[9] == 0 && rolls[10] == 0 && rolls[11] == 0 && rolls[12] == 0 && rolls[13] == 0 && rolls[14] == 0
    requires rolls[15] == 0 && rolls[16] == 0 && rolls[17] == 0 && rolls[18] == 10 && rolls[19] == 5
    ensures Score(rolls) == Fail(IncompleteBonus)
  {
    WalkExtend(rolls, 1, 0, 0, Tally(0, 2));
    WalkExtend(rolls, 2, 0, 2, Tally(0, 4));
    WalkExtend(rolls, 3, 0, 4, Tally(0, 6));
    WalkExtend(rolls, 4, 0, 6, Tally(0, 8));
    WalkExtend(rolls, 5, 0, 8, Tally(0, 10));
    WalkExtend(rolls, 6, 0, 10, Tally(0, 12));
    WalkExtend(rolls, 7, 0, 12, Tally(0, 14));
    WalkExtend(rolls, 8, 0, 14, Tally(0, 16));
    WalkExtend(rolls, 9, 0, 16, Tally(0, 18));
    ScoreStopsAtFrame(rolls, 10);
  }

  /** A tenth-frame strike with a single bonus roll: the game fails with `IncompleteBonus`. */
  lemma TenthStrikeOneBonusGame(s: string)
    requires |s| == 20 && s[0] == '-' && s[1] == '-' && s[2] == '-' && s[3] == '-' && s[4] == '-'
    requires s[5] == '-' && s[6] == '-' && s[7] == '-' && s[8] == '-' && s[9] == '-' && s[10] == '-'
    requires s[11] == '-' && s[12] == '-' && s[13] == '-' && s[14] == '-' && s[15] == '-' && s[16] == '-'
    requires s[17] == '-' && s[18] == 'X' && s[19] == '5'
    ensures GameScore(s) == Fail(IncompleteBonus)
  {
    assert !IsWhitespace(s[0]);
    TenthStrikeOneBonusRolls(s);
    AcceptedIsNormalized(s);
    TenthStrikeOneBonusScore(Parse(s).value);
  }

  /** The same game written as the literal notation. */
  lemma TenthStrikeOneBonusLiteral()
    ensures GameScore("------------------X5") == Fail(IncompleteBonus)
  {
    TenthStrikeOneBonusGame("------------------X5");
  }

  // ---------------------------------------------------------------------
  // Eight strikes (the bonus rolls run out in frame 7)
  // ---------------------------------------------------------------------

  /** Eight strikes (the bonus rolls run out in frame 7): one roll per character, as listed. */
  lemma EightStrikesRolls(s: string)
    requires |s| == 8 && s[0] == 'X' && s[1] == 'X' && s[2] == 'X' && s[3] == 'X' && s[4] == 'X'
    requires s[5] == 'X' && s[6] == 'X' && s[7] == 'X'
    ensures Parse(s).Ok?
    ensures |Parse(s).value| == 8 && Parse(s).value[0] == 10 && Parse(s).value[1] == 10 && Parse(s).value[2] == 10
    ensures Parse(s).value[3] == 10 && Parse(s).value[4] == 10 && Parse(s).value[5] == 10 && Parse(s).value[6] == 10
    ensures Parse(s).value[7] == 10
  {
    ReadStrike(s, 0, 1, true, 0);
    ReadStrike(s, 1, 2, true, 10);
    ReadStrike(s, 2, 3, true, 10);
    ReadStrike(s, 3, 4, true, 10);
    ReadStrike(s, 4, 5, true, 10);
    ReadStrike(s, 5, 6, true, 10);
    ReadStrike(s, 6, 7, true, 10);
    ReadStrike(s, 7, 8, true, 10);
    RollKept(s, 0);
    RollKept(s, 1);
    RollKept(s, 2);
    RollKept(s, 3);
    RollKept(s, 4);
    RollKept(s, 5);
    RollKept(s, 6);
    RollKept(s, 7);
  }

  /** Eight strikes (the bonus rolls run out in frame 7): the rolls fail with `IncompleteBonus`. */
  lemma EightStrikesScore(rolls: seq<int>)
    requires |rolls| == 8 && rolls[0] == 10 && rolls[1] == 10 && rolls[2] == 10 && rolls[3] == 10 && rolls[4] == 10 && rolls[5] == 10 && rolls[6] == 10
    requires rolls[7] == 10
    ensures Score(rolls) == Fail(IncompleteBonus)
  {
    WalkExtend(rolls, 1, 0, 0, Tally(30, 1));
    WalkExtend(rolls, 2, 30, 1, Tally(30, 2));
    WalkExtend(rolls, 3, 60, 2, Tally(30, 3));
    WalkExtend(rolls, 4, 90, 3, Tally(30, 4));
    WalkExtend(rolls, 5, 120, 4, Tally(30, 5));
    WalkExtend(rolls, 6, 150, 5, Tally(30, 6));
    ScoreStopsAtFrame(rolls, 7);
  }

  /** Eight strikes (the bonus rolls run out in frame 7): the game fails with `IncompleteBonus`. */
  lemma EightStrikesGame(s: string)
    requires |s| == 8 && s[0] == 'X' && s[1] == 'X' && s[2] == 'X' && s[3] == 'X' && s[4] == 'X'
    requires s[5] == 'X' && s[6] == 'X' && s[7] == 'X'
    ensures GameScore(s) == Fail(IncompleteBonus)
  {
    assert !IsWhitespace(s[0]);
    EightStrikesRolls(s);
    AcceptedIsNormalized(s);
    EightStrikesScore(Parse(s).value);
  }

  /** The same game written as the literal notation. */
  lemma EightStrikesLiteral()
    ensures GameScore("XXXXXXXX") == Fail(IncompleteBonus)
  {
    EightStrikesGame("XXXXXXXX");
  }

  // ---------------------------------------------------------------------
  // A complete open game followed by one more roll
  // ---------------------------------------------------------------------

  /** A complete open game followed by one more roll: one roll per character, as listed. */
  lemma NinesExtraRollRolls(s: string)
    requires |s| == 21 && s[0] == '9' && s[1] == '-' && s[2] == '9' && s[3] == '-' && s[4] == '9'
    requires s[5] == '-' && s[6] == '9' && s[7] == '-' && s[8] == '9' && s[9] == '-' && s[10] == '9'
    requires s[11] == '-' && s[12] == '9' && s[13] == '-' && s[14] == '9' && s[15] == '-' && s[16] == '9'
    requires s[17] == '-' && s[18] == '9' && s[19] == '-' && s[20] == '1'
    ensures Parse(s).Ok?
    ensures |Parse(s).value| == 21 && Parse(s).value[0] == 9 && Parse(s).value[1] == 0 && Parse(s).value[2] == 9
    ensures Parse(s).value[3] == 0 && Parse(s).value[4] == 9 && Parse(s).value[5] == 0 && Parse(s).value[6] == 9
    ensures Parse(s).value[7] == 0 && Parse(s).value[8] == 9 && Parse(s).value[9] == 0 && Parse(s).value[10] == 9
    ensures Parse(s).value[11] == 0 && Parse(s).value[12] == 9 && Parse(s).value[13] == 0 && Parse(s).value[14] == 9
    ensures Parse(s).value[15] == 0 && Parse(s).value[16] == 9 && Parse(s).value[17] == 0 && Parse(s).value[18] == 9
    ensures Parse(s).value[19] == 0 && Parse(s).value[20] == 1
  {
    ReadDigit(s, 0, 1, true, 0);
    ReadMiss(s, 1, 1, false, 9);
    ReadDigit(s, 2, 2, true, 0);
    ReadMiss(s, 3, 2, false, 9);
    ReadDigit(s, 4, 3, true, 0);
    ReadMiss(s, 5, 3, false, 9);
    ReadDigit(s, 6, 4, true, 0);
    ReadMiss(s, 7, 4, false, 9);
    ReadDigit(s, 8, 5, true, 0);
    ReadMiss(s, 9, 5, false, 9);
    ReadDigit(s, 10, 6, true, 0);
    ReadMiss(s, 11, 6, false, 9);
    ReadDigit(s, 12, 7, true, 0);
    ReadMiss(s, 13, 7, false, 9);
    ReadDigit(s, 14, 8, true, 0);
    ReadMiss(s, 15, 8, false, 9);
    ReadDigit(s, 16, 9, true, 0);
    ReadMiss(s, 17, 9, false, 9);
    ReadDigit(s, 18, 10, true, 0);
    ReadMiss(s, 19, 10, false, 9);
    ReadDigit(s, 20, 11, true, 0);
    RollKept(s, 0);
    RollKept(s, 1);
    RollKept(s, 2);
    RollKept(s, 3);
    RollKept(s, 4);
    RollKept(s, 5);
    RollKept(s, 6);
    RollKept(s, 7);
    RollKept(s, 8);
    RollKept(s, 9);
    RollKept(s, 10);
    RollKept(s, 11);
    RollKept(s, 12);
    RollKept(s, 13);
    RollKept(s, 14);
    RollKept(s, 15);
    RollKept(s, 16);
    RollKept(s, 17);
    RollKept(s, 18);
    RollKept(s, 19);
    RollKept(s, 20);
  }

  /** A complete open game followed by one more roll: the rolls fail with `TrailingData(1)`. */
  lemma NinesExtraRollScore(rolls: seq<int>)
    requires |rolls| == 21 && rolls[0] == 9 && rolls[1] == 0 && rolls[2] == 9 && rolls[3] == 0 && rolls[4] == 9 && rolls[5] == 0 && rolls[6] == 9
    requires rolls[7] == 0 && rolls[8] == 9 && rolls[9] == 0 && rolls[10] == 9 && rolls[11] == 0 && rolls[12] == 9 && rolls[13] == 0 && rolls[14] == 9
    requires rolls[15] == 0 && rolls[16] == 9 && rolls[17] == 0 && rolls[18] == 9 && rolls[19] == 0 && rolls[20] == 1
    ensures Score(rolls) == Fail(TrailingData(1))
  {
    WalkExtend(rolls, 1, 0, 0, Tally(9, 2));
    WalkExtend(rolls, 2, 9, 2, Tally(9, 4));
    WalkExtend(rolls, 3, 18, 4, Tally(9, 6));
    WalkExtend(rolls, 4, 27, 6, Tally(9, 8));
    WalkExtend(rolls, 5, 36, 8, Tally(9, 10));
    WalkExtend(rolls, 6, 45, 10, Tally(9, 12));
    WalkExtend(rolls, 7, 54, 12, Tally(9, 14));
    WalkExtend(rolls, 8, 63, 14, Tally(9, 16));
    WalkExtend(rolls, 9, 72, 16, Tally(9, 18));
    WalkExtend(rolls, 10, 81, 18, Tally(9, 20));
  }

  /** A complete open game followed by one more roll: the game fails with `TrailingData(1)`. */
  lemma NinesExtraRollGame(s: string)
    requires |s| == 21 && s[0] == '9' && s[1] == '-' && s[2] == '9' && s[3] == '-' && s[4] == '9'
    requires s[5] == '-' && s[6] == '9' && s[7] == '-' && s[8] == '9' && s[9] == '-' && s[10] == '9'
    requires s[11] == '-' && s[12] == '9' && s[13] == '-' && s[14] == '9' && s[15] == '-' && s[16] == '9'
    requires s[17] == '-' && s[18] == '9' && s[19] == '-' && s[20] == '1'
    ensures GameScore(s) == Fail(TrailingData(1))
  {
    assert !IsWhitespace(s[0]);
    NinesExtraRollRolls(s);
    AcceptedIsNormalized(s);
    NinesExtraRollScore(Parse(s).value);
  }

  /** The same game written as the literal notation. */
  lemma NinesExtraRollLiteral()
    ensures GameScore("9-9-9-9-9-9-9-9-9-9-1") == Fail(TrailingData(1))
  {
    NinesExtraRollGame("9-9-9-9-9-9-9-9-9-9-1");
  }

  // ---------------------------------------------------------------------
  // Thirteen strikes
  // ---------------------------------------------------------------------

  /** Thirteen strikes: one roll per character, as listed. */
  lemma ThirteenStrikesRolls(s: string)
    requires |s| == 13 && s[0] == 'X' && s[1] == 'X' && s[2] == 'X' && s[3] == 'X' && s[4] == 'X'
    requires s[5] == 'X' && s[6] == 'X' && s[7] == 'X' && s[8] == 'X' && s[9] == 'X' && s[10] == 'X'
    requires s[11] == 'X' && s[12] == 'X'
    ensures Parse(s).Ok?
    ensures |Parse(s).value| == 13 && Parse(s).value[0] == 10 && Parse(s).value[1] == 10 && Parse(s).value[2] == 10
    ensures Parse(s).value[3] == 10 && Parse(s).value[4] == 10 && Parse(s).value[5] == 10 && Parse(s).value[6] == 10
    ensures Parse(s).value[7] == 10 && Parse(s).value[8] == 10 && Parse(s).value[9] == 10 && Parse(s).value[10] == 10
    ensures Parse(s).value[11] == 10 && Parse(s).value[12] == 10
  {
    ReadStrike(s, 0, 1, true, 0);
    ReadStrike(s, 1, 2, true, 10);
    ReadStrike(s, 2, 3, true, 10);
    ReadStrike(s, 3, 4, true, 10);
    ReadStrike(s, 4, 5, true, 10);
    ReadStrike(s, 5, 6, true, 10);
    ReadStrike(s, 6, 7, true, 10);
    ReadStrike(s, 7, 8, true, 10);
    ReadStrike(s, 8, 9, true, 10);
    ReadStrike(s, 9, 10, true, 10);
    ReadStrike(s, 10, 10, false, 10);
    ReadStrike(s, 11, 10, false, 10);
    ReadStrike(s, 12, 10, false, 10);
    RollKept(s, 0);
    RollKept(s, 1);
    RollKept(s, 2);
    RollKept(s, 3);
    RollKept(s, 4);
    RollKept(s, 5);
    RollKept(s, 6);
    RollKept(s, 7);
    RollKept(s, 8);
    RollKept(s, 9);
    RollKept(s, 10);
    RollKept(s, 11);
    RollKept(s, 12);
  }

  /** Thirteen strikes: the rolls fail with `TrailingData(1)`. */
  lemma ThirteenStrikesScore(rolls: seq<int>)
    requires |rolls| == 13 && rolls[0] == 10 && rolls[1] == 10 && rolls[2] == 10 && rolls[3] == 10 && rolls[4] == 10 && rolls[5] == 10 && rolls[6] == 10
    requires rolls[7] == 10 && rolls[8] == 10 && rolls[9] == 10 && rolls[10] == 10 && rolls[11] == 10 && rolls[12] == 10
    ensures Score(rolls) == Fail(TrailingData(1))
  {
    WalkExtend(rolls, 1, 0, 0, Tally(30, 1));
    WalkExtend(rolls, 2, 30, 1, Tally(30, 2));
    WalkExtend(rolls, 3, 60, 2, Tally(30, 3));
    WalkExtend(rolls, 4, 90, 3, Tally(30, 4));
    WalkExtend(rolls, 5, 120, 4, Tally(30, 5));
    WalkExtend(rolls, 6, 150, 5, Tally(30, 6));
    WalkExtend(rolls, 7, 180, 6, Tally(30, 7));
    WalkExtend(rolls, 8, 210, 7, Tally(30, 8));
    WalkExtend(rolls, 9, 240, 8, Tally(30, 9));
    WalkExtend(rolls, 10, 270, 9, Tally(30, 12));
  }

  /** Thirteen strikes: the game fails with `TrailingData(1)`. */
  lemma ThirteenStrikesGame(s: string)
    requires |s| == 13 && s[0] == 'X' && s[1] == 'X' && s[2] == 'X' && s[3] == 'X' && s[4] == 'X'
    requires s[5] == 'X' && s[6] == 'X' && s[7] == 'X' && s[8] == 'X' && s[9] == 'X' && s[10] == 'X'
    requires s[11] == 'X' && s[12] == 'X'
    ensures GameScore(s) == Fail(TrailingData(1))
  {
    assert !IsWhitespace(s[0]);
    ThirteenStrikesRolls(s);
    AcceptedIsNormalized(s);
    ThirteenStrikesScore(Parse(s).value);
  }

  /** The same game written as the literal notation. */
  lemma ThirteenStrikesLiteral()
    ensures GameScore("XXXXXXXXXXXXX") == Fail(TrailingData(1))
  {
    ThirteenStrikesGame("XXXXXXXXXXXXX");
  }

  // ---------------------------------------------------------------------
  // A miss then a spare (worth ten pins), then misses
  // ---------------------------------------------------------------------

  /** A miss then a spare (worth ten pins), then misses: one roll per character, as listed. */
  lemma MissSpareRolls(s: string)
    requires |s| == 20 && s[0] == '-' && s[1] == '/' && s[2] == '-' && s[3] == '-' && s[4] == '-'
    requires s[5] == '-' && s[6] == '-' && s[7] == '-' && s[8] == '-' && s[9] == '-' && s[10] == '-'
    requires s[11] == '-' && s[12] == '-' && s[13] == '-' && s[14] == '-' && s[15] == '-' && s[16] == '-'
    requires s[17] == '-' && s[18] == '-' && s[19] == '-'
    ensures Parse(s).Ok?
    ensures |Parse(s).value| == 20 && Parse(s).value[0] == 0 && Parse(s).value[1] == 10 && Parse(s).value[2] == 0
    ensures Parse(s).value[3] == 0 && Parse(s).value[4] == 0 && Parse(s).value[5] == 0 && Parse(s).value[6] == 0
    ensures Parse(s).value[7] == 0 && Parse(s).value[8] == 0 && Parse(s).value[9] == 0 && Parse(s).value[10] == 0
    ensures Parse(s).value[11] == 0 && Parse(s).value[12] == 0 && Parse(s).value[13] == 0 && Parse(s).value[14] == 0
    ensures Parse(s).value[15] == 0 && Parse(s).value[16] == 0 && Parse(s).value[17] == 0 && Parse(s).value[18] == 0
    ensures Parse(s).value[19] == 0
  {
    ReadMiss(s, 0, 1, true, 0);
    ReadSpare(s, 1, 1, false, 0);
    ReadMiss(s, 2, 2, true, 10);
    ReadMiss(s, 3, 2, false, 0);
    ReadMiss(s, 4, 3, true, 0);
    ReadMiss(s, 5, 3, false, 0);
    ReadMiss(s, 6, 4, true, 0);
    ReadMiss(s, 7, 4, false, 0);
    ReadMiss(s, 8, 5, true, 0);
    ReadMiss(s, 9, 5, false, 0);
    ReadMiss(s, 10, 6, true, 0);
    ReadMiss(s, 11, 6, false, 0);
    ReadMiss(s, 12, 7, true, 0);
    ReadMiss(s, 13, 7, false, 0);
    ReadMiss(s, 14, 8, true, 0);
    ReadMiss(s, 15, 8, false, 0);
    ReadMiss(s, 16, 9, true, 0);
    ReadMiss(s, 17, 9, false, 0);
    ReadMiss(s, 18, 10, true, 0);
    ReadMiss(s, 19, 10, false, 0);
    RollKept(s, 0);
    RollKept(s, 1);
    RollKept(s, 2);
    RollKept(s, 3);
    RollKept(s, 4);
    RollKept(s, 5);
    RollKept(s, 6);
    RollKept(s, 7);
    RollKept(s, 8);
    RollKept(s, 9);
    RollKept(s, 10);
    RollKept(s, 11);
    RollKept(s, 12);
    RollKept(s, 13);
    RollKept(s, 14);
    RollKept(s, 15);
    RollKept(s, 16);
    RollKept(s, 17);
    RollKept(s, 18);
    RollKept(s, 19);
  }

  /** A miss then a spare (worth ten pins), then misses: the rolls score 10. */
  lemma MissSpareScore(rolls: seq<int>)
    requires |rolls| == 20 && rolls[0] == 0 && rolls[1] == 10 && rolls[2] == 0 && rolls[3] == 0 && rolls[4] == 0 && rolls[5] == 0 && rolls[6] == 0
    requires rolls[7] == 0 && rolls[8] == 0 && rolls[9] == 0 && rolls[10] == 0 && rolls[11] == 0 && rolls[12] == 0 && rolls[13] == 0 && rolls[14] == 0
    requires rolls[15] == 0 && rolls[16] == 0 && rolls[17] == 0 && rolls[18] == 0 && rolls[19] == 0
    ensures Score(rolls) == Ok(10)
  {
    WalkExtend(rolls, 1, 0, 0, Tally(10, 2));
    WalkExtend(rolls, 2, 10, 2, Tally(0, 4));
    WalkExtend(rolls, 3, 10, 4, Tally(0, 6));
    WalkExtend(rolls, 4, 10, 6, Tally(0, 8));
    WalkExtend(rolls, 5, 10, 8, Tally(0, 10));
    WalkExtend(rolls, 6, 10, 10, Tally(0, 12));
    WalkExtend(rolls, 7, 10, 12, Tally(0, 14));
    WalkExtend(rolls, 8, 10, 14, Tally(0, 16));
    WalkExtend(rolls, 9, 10, 16, Tally(0, 18));
    WalkExtend(rolls, 10, 10, 18, Tally(0, 20));
  }

  /** A miss then a spare (worth ten pins), then misses: the game scores 10. */
  lemma MissSpareGame(s: string)
    requires |s| == 20 && s[0] == '-' && s[1] == '/' && s[2] == '-' && s[3] == '-' && s[4] == '-'
    requires s[5] == '-' && s[6] == '-' && s[7] == '-' && s[8] == '-' && s[9] == '-' && s[10] == '-'
    requires s[11] == '-' && s[12] == '-' && s[13] == '-' && s[14] == '-' && s[15] == '-' && s[16] == '-'
    requires s[17] == '-' && s[18] == '-' && s[19] == '-'
    ensures GameScore(s) == Ok(10)
  {
    assert !IsWhitespace(s[0]);
    MissSpareRolls(s);
    AcceptedIsNormalized(s);
    MissSpareScore(Parse(s).value);
  }

  /** The same game written as the literal notation. */
  lemma MissSpareLiteral()
    ensures GameScore("-/------------------") == Ok(10)
  {
    MissSpareGame("-/------------------");
  }

  // ---------------------------------------------------------------------
  // A tenth-frame strike with 8 and a spare as its bonus
  // ---------------------------------------------------------------------

  /** A tenth-frame strike with 8 and a spare as its bonus: one roll per character, as listed. */
  lemma TenthStrikeSpareRolls(s: string)
    requires |s| == 21 && s[0] == '-' && s[1] == '-' && s[2] == '-' && s[3] == '-' && s[4] == '-'
    requires s[5] == '-' && s[6] == '-' && s[7] == '-' && s[8] == '-' && s[9] == '-' && s[10] == '-'
    requires s[11] == '-' && s[12] == '-' && s[13] == '-' && s[14] == '-' && s[15] == '-' && s[16] == '-'
    requires s[17] == '-' && s[18] == 'X' && s[19] == '8' && s[20] == '/'
    ensures Parse(s).Ok?
    ensures |Parse(s).value| == 21 && Parse(s).value[0] == 0 && Parse(s).value[1] == 0 && Parse(s).value[2] == 0
    ensures Parse(s).value[3] == 0 && Parse(s).value[4] == 0 && Parse(s).value[5] == 0 && Parse(s).value[6] == 0
    ensures Parse(s).value[7] == 0 && Parse(s).value[8] == 0 && Parse(s).value[9] == 0 && Parse(s).value[10] == 0
    ensures Parse(s).value[11] == 0 && Parse(s).value[12] == 0 && Parse(s).value[13] == 0 && Parse(s).value[14] == 0
    ensures Parse(s).value[15] == 0 && Parse(s).value[16] == 0 && Parse(s).value[17] == 0 && Parse(s).value[18] == 10
    ensures Parse(s).value[19] == 8 && Parse(s).value[20] == 2
  {
    ReadMiss(s, 0, 1, true, 0);
    ReadMiss(s, 1, 1, false, 0);
    ReadMiss(s, 2, 2, true, 0);
    ReadMiss(s, 3, 2, false, 0);
    ReadMiss(s, 4, 3, true, 0);
    ReadMiss(s, 5, 3, false, 0);
    ReadMiss(s, 6, 4, true, 0);
    ReadMiss(s, 7, 4, false, 0);
    ReadMiss(s, 8, 5, true, 0);
    ReadMiss(s, 9, 5, false, 0);
    ReadMiss(s, 10, 6, true, 0);
    ReadMiss(s, 11, 6, false, 0);
    ReadMiss(s, 12, 7, true, 0);
    ReadMiss(s, 13, 7, false, 0);
    ReadMiss(s, 14, 8, true, 0);
    ReadMiss(s, 15, 8, false, 0);
    ReadMiss(s, 16, 9, true, 0);
    ReadMiss(s, 17, 9, false, 0);
    ReadStrike(s, 18, 10, true, 0);
    ReadDigit(s, 19, 10, false, 10);
    ReadSpare(s, 20, 11, true, 8);
    RollKept(s, 0);
    RollKept(s, 1);
    RollKept(s, 2);
    RollKept(s, 3);
    RollKept(s, 4);
    RollKept(s, 5);
    RollKept(s, 6);
    RollKept(s, 7);
    RollKept(s, 8);
    RollKept(s, 9);
    RollKept(s, 10);
    RollKept(s, 11);
    RollKept(s, 12);
    RollKept(s, 13);
    RollKept(s, 14);
    RollKept(s, 15);
    RollKept(s, 16);
    RollKept(s, 17);
    RollKept(s, 18);
    RollKept(s, 19);
    RollKept(s, 20);
  }

  /** A tenth-frame strike with 8 and a spare as its bonus: the rolls score 20. */
  lemma TenthStrikeSpareScore(rolls: seq<int>)
    requires |rolls| == 21 && rolls[0] == 0 && rolls[1] == 0 && rolls[2] == 0 && rolls[3] == 0 && rolls[4] == 0 && rolls[5] == 0 && rolls[6] == 0
    requires rolls[7] == 0 && rolls[8] == 0 && rolls[9] == 0 && rolls[10] == 0 && rolls[11] == 0 && rolls[12] == 0 && rolls[13] == 0 && rolls[14] == 0
    requires rolls[15] == 0 && rolls[16] == 0 && rolls[17] == 0 && rolls[18] == 10 && rolls[19] == 8 && rolls[20] == 2
    ensures Score(rolls) == Ok(20)
  {
    WalkExtend(rolls, 1, 0, 0, Tally(0, 2));
    WalkExtend(rolls, 2, 0, 2, Tally(0, 4));
    WalkExtend(rolls, 3, 0, 4, Tally(0, 6));
    WalkExtend(rolls, 4, 0, 6, Tally(0, 8));
    WalkExtend(rolls, 5, 0, 8, Tally(0, 10));
    WalkExtend(rolls, 6, 0, 10, Tally(0, 12));
    WalkExtend(rolls, 7, 0, 12, Tally(0, 14));
    WalkExtend(rolls, 8, 0, 14, Tally(0, 16));
    WalkExtend(rolls, 9, 0, 16, Tally(0, 18));
    WalkExtend(rolls, 10, 0, 18, Tally(20, 21));
  }

  /** A tenth-frame strike with 8 and a spare as its bonus: the game scores 20. */
  lemma TenthStrikeSpareGame(s: string)
    requires |s| == 21 && s[0] == '-' && s[1] == '-' && s[2] == '-' && s[3] == '-' && s[4] == '-'
    requires s[5] == '-' && s[6] == '-' && s[7] == '-' && s[8] == '-' && s[9] == '-' && s[10] == '-'
    requires s[11] == '-' && s[12] == '-' && s[13] == '-' && s[14] == '-' && s[15] == '-' && s[16] == '-'
    requires s[17] == '-' && s[18] == 'X' && s[19] == '8' && s[20] == '/'
    ensures GameScore(s) == Ok(20)
  {
    assert !IsWhitespace(s[0]);
    TenthStrikeSpareRolls(s);
    AcceptedIsNormalized(s);
    TenthStrikeSpareScore(Parse(s).value);
  }

  /** The same game written as the literal notation. */
  lemma TenthStrikeSpareLiteral()
    ensures GameScore("------------------X8/") == Ok(20)
  {
    TenthStrikeSpareGame("------------------X8/");
  }

  // ---------------------------------------------------------------------
  // Twenty misses
  // ---------------------------------------------------------------------

  /** Twenty misses: one roll per character, as listed. */
  lemma GutterRolls(s: string)
    requires |s| == 20 && s[0] == '-' && s[1] == '-' && s[2] == '-' && s[3] == '-' && s[4] == '-'
    requires s[5] == '-' && s[6] == '-' && s[7] == '-' && s[8] == '-' && s[9] == '-' && s[10] == '-'
    requires s[11] == '-' && s[12] == '-' && s[13] == '-' && s[14] == '-' && s[15] == '-' && s[16] == '-'
    requires s[17] == '-' && s[18] == '-' && s[19] == '-'
    ensures Parse(s).Ok?
    ensures |Parse(s).value| == 20 && Parse(s).value[0] == 0 && Parse(s).value[1] == 0 && Parse(s).value[2] == 0
    ensures Parse(s).value[3] == 0 && Parse(s).value[4] == 0 && Parse(s).value[5] == 0 && Parse(s).value[6] == 0
    ensures Parse(s).value[7] == 0 && Parse(s).value[8] == 0 && Parse(s).value[9] == 0 && Parse(s).value[10] == 0
    ensures Parse(s).value[11] == 0 && Parse(s).value[12] == 0 && Parse(s).value[13] == 0 && Parse(s).value[14] == 0
    ensures Parse(s).value[15] == 0 && Parse(s).value[16] == 0 && Parse(s).value[17] == 0 && Parse(s).value[18] == 0
    ensures Parse(s).value[19] == 0
  {
    ReadMiss(s, 0, 1, true, 0);
    ReadMiss(s, 1, 1, false, 0);
    ReadMiss(s, 2, 2, true, 0);
    ReadMiss(s, 3, 2, false, 0);
    ReadMiss(s, 4, 3, true, 0);
    ReadMiss(s, 5, 3, false, 0);
    ReadMiss(s, 6, 4, true, 0);
    ReadMiss(s, 7, 4, false, 0);
    ReadMiss(s, 8, 5, true, 0);
    ReadMiss(s, 9, 5, false, 0);
    ReadMiss(s, 10, 6, true, 0);
    ReadMiss(s, 11, 6, false, 0);
    ReadMiss(s, 12, 7, true, 0);
    ReadMiss(s, 13, 7, false, 0);
    ReadMiss(s, 14, 8, true, 0);
    ReadMiss(s, 15, 8, false, 0);
    ReadMiss(s, 16, 9, true, 0);
    ReadMiss(s, 17, 9, false, 0);
    ReadMiss(s, 18, 10, true, 0);
    ReadMiss(s, 19, 10, false, 0);
    RollKept(s, 0);
    RollKept(s, 1);
    RollKept(s, 2);
    RollKept(s, 3);
    RollKept(s, 4);
    RollKept(s, 5);
    RollKept(s, 6);
    RollKept(s, 7);
    RollKept(s, 8);
    RollKept(s, 9);
    RollKept(s, 10);
    RollKept(s, 11);
    RollKept(s, 12);
    RollKept(s, 13);
    RollKept(s, 14);
    RollKept(s, 15);
    RollKept(s, 16);
    RollKept(s, 17);
    RollKept(s, 18);
    RollKept(s, 19);
  }

  /** Twenty misses: the rolls score 0. */
  lemma GutterScore(rolls: seq<int>)
    requires |rolls| == 20 && rolls[0] == 0 && rolls[1] == 0 && rolls[2] == 0 && rolls[3] == 0 && rolls[4] == 0 && rolls[5] == 0 && rolls[6] == 0
    requires rolls[7] == 0 && rolls[8] == 0 && rolls[9] == 0 && rolls[10] == 0 && rolls[11] == 0 && rolls[12] == 0 && rolls[13] == 0 && rolls[14] == 0
    requires rolls[15] == 0 && rolls[16] == 0 && rolls[17] == 0 && rolls[18] == 0 && rolls[19] == 0
    ensures Score(rolls) == Ok(0)
  {
    WalkExtend(rolls, 1, 0, 0, Tally(0, 2));
    WalkExtend(rolls, 2, 0, 2, Tally(0, 4));
    WalkExtend(rolls, 3, 0, 4, Tally(0, 6));
    WalkExtend(rolls, 4, 0, 6, Tally(0, 8));
    WalkExtend(rolls, 5, 0, 8, Tally(0, 10));
    WalkExtend(rolls, 6, 0, 10, Tally(0, 12));
    WalkExtend(rolls, 7, 0, 12, Tally(0, 14));
    WalkExtend(rolls, 8, 0, 14, Tally(0, 16));
    WalkExtend(rolls, 9, 0, 16, Tally(0, 18));
    WalkExtend(rolls, 10, 0, 18, Tally(0, 20));
  }

  /** Twenty misses: the game scores 0. */
  lemma GutterGame(s: string)
    requires |s| == 20 && s[0] == '-' && s[1] == '-' && s[2] == '-' && s[3] == '-' && s[4] == '-'
    requires s[5] == '-' && s[6] == '-' && s[7] == '-' && s[8] == '-' && s[9] == '-' && s[10] == '-'
    requires s[11] == '-' && s[12] == '-' && s[13] == '-' && s[14] == '-' && s[15] == '-' && s[16] == '-'
    requires s[17] == '-' && s[18] == '-' && s[19] == '-'
    ensures GameScore(s) == Ok(0)
  {
    assert !IsWhitespace(s[0]);
    GutterRolls(s);
    AcceptedIsNormalized(s);
    GutterScore(Parse(s).value);
  }

  /** The same game written as the literal notation. */
  lemma GutterLiteral()
    ensures GameScore("--------------------") == Ok(0)
  {
    GutterGame("--------------------");
  }

  // ---------------------------------------------------------------------
  // A nine and a spare in every frame, then a nine
  // ---------------------------------------------------------------------

  /** A nine and a spare in every frame, then a nine: one roll per character, as listed. */
  lemma NineSparesRolls(s: string)
    requires |s| == 21 && s[0] == '9' && s[1] == '/' && s[2] == '9' && s[3] == '/' && s[4] == '9'
    requires s[5] == '/' && s[6] == '9' && s[7] == '/' && s[8] == '9' && s[9] == '/' && s[10] == '9'
    requires s[11] == '/' && s[12] == '9' && s[13] == '/' && s[14] == '9' && s[15] == '/' && s[16] == '9'
    requires s[17] == '/' && s[18] == '9' && s[19] == '/' && s[20] == '9'
    ensures Parse(s).Ok?
    ensures |Parse(s).value| == 21 && Parse(s).value[0] == 9 && Parse(s).value[1] == 1 && Parse(s).value[2] == 9
    ensures Parse(s).value[3] == 1 && Parse(s).value[4] == 9 && Parse(s).value[5] == 1 && Parse(s).value[6] == 9
    ensures Parse(s).value[7] == 1 && Parse(s).value[8] == 9 && Parse(s).value[9] == 1 && Parse(s).value[10] == 9
    ensures Parse(s).value[11] == 1 && Parse(s).value[12] == 9 && Parse(s).value[13] == 1 && Parse(s).value[14] == 9
    ensures Parse(s).value[15] == 1 && Parse(s).value[16] == 9 && Parse(s).value[17] == 1 && Parse(s).value[18] == 9
    ensures Parse(s).value[19] == 1 && Parse(s).value[20] == 9
  {
    ReadDigit(s, 0, 1, true, 0);
    ReadSpare(s, 1, 1, false, 9);
    ReadDigit(s, 2, 2, true, 1);
    ReadSpare(s, 3, 2, false, 9);
    ReadDigit(s, 4, 3, true, 1);
    ReadSpare(s, 5, 3, false, 9);
    ReadDigit(s, 6, 4, true, 1);
    ReadSpare(s, 7, 4, false, 9);
    ReadDigit(s, 8, 5, true, 1);
    ReadSpare(s, 9, 5, false, 9);
    ReadDigit(s, 10, 6, true, 1);
    ReadSpare(s, 11, 6, false, 9);
    ReadDigit(s, 12, 7, true, 1);
    ReadSpare(s, 13, 7, false, 9);
    ReadDigit(s, 14, 8, true, 1);
    ReadSpare(s, 15, 8, false, 9);
    ReadDigit(s, 16, 9, true, 1);
    ReadSpare(s, 17, 9, false, 9);
    ReadDigit(s, 18, 10, true, 1);
    ReadSpare(s, 19, 10, false, 9);
    ReadDigit(s, 20, 10, false, 1);
    RollKept(s, 0);
    RollKept(s, 1);
    RollKept(s, 2);
    RollKept(s, 3);
    RollKept(s, 4);
    RollKept(s, 5);
    RollKept(s, 6);
    RollKept(s, 7);
    RollKept(s, 8);
    RollKept(s, 9);
    RollKept(s, 10);
    RollKept(s, 11);
    RollKept(s, 12);
    RollKept(s, 13);
    RollKept(s, 14);
    RollKept(s, 15);
    RollKept(s, 16);
    RollKept(s, 17);
    RollKept(s, 18);
    RollKept(s, 19);
    RollKept(s, 20);
  }

  /** A nine and a spare in every frame, then a nine: the rolls score 190. */
  lemma NineSparesScore(rolls: seq<int>)
    requires |rolls| == 21 && rolls[0] == 9 && rolls[1] == 1 && rolls[2] == 9 && rolls[3] == 1 && rolls[4] == 9 && rolls[5] == 1 && rolls[6] == 9
    requires rolls[7] == 1 && rolls[8] == 9 && rolls[9] == 1 && rolls[10] == 9 && rolls[11] == 1 && rolls[12] == 9 && rolls[13] == 1 && rolls[14] == 9
    requires rolls[15] == 1 && rolls[16] == 9 && rolls[17] == 1 && rolls[18] == 9 && rolls[19] == 1 && rolls[20] == 9
    ensures Score(rolls) == Ok(190)
  {
    WalkExtend(rolls, 1, 0, 0, Tally(19, 2));
    WalkExtend(rolls, 2, 19, 2, Tally(19, 4));
    WalkExtend(rolls, 3, 38, 4, Tally(19, 6));
    WalkExtend(rolls, 4, 57, 6, Tally(19, 8));
    WalkExtend(rolls, 5, 76, 8, Tally(19, 10));
    WalkExtend(rolls, 6, 95, 10, Tally(19, 12));
    WalkExtend(rolls, 7, 114, 12, Tally(19, 14));
    WalkExtend(rolls, 8, 133, 14, Tally(19, 16));
    WalkExtend(rolls, 9, 152, 16, Tally(19, 18));
    WalkExtend(rolls, 10, 171, 18, Tally(19, 21));
  }

  /** A nine and a spare in every frame, then a nine: the game scores 190. */
  lemma NineSparesGame(s: string)
    requires |s| == 21 && s[0] == '9' && s[1] == '/' && s[2] == '9' && s[3] == '/' && s[4] == '9'
    requires s[5] == '/' && s[6] == '9' && s[7] == '/' && s[8] == '9' && s[9] == '/' && s[10] == '9'
    requires s[11] == '/' && s[12] == '9' && s[13] == '/' && s[14] == '9' && s[15] == '/' && s[16] == '9'
    requires s[17] == '/' && s[18] == '9' && s[19] == '/' && s[20] == '9'
    ensures GameScore(s) == Ok(190)
  {
    assert !IsWhitespace(s[0]);
    NineSparesRolls(s);
    AcceptedIsNormalized(s);
    NineSparesScore(Parse(s).value);
  }

  /** The same game written as the literal notation. */
  lemma NineSparesLiteral()
    ensures GameScore("9/9/9/9/9/9/9/9/9/9/9") == Ok(190)
  {
    NineSparesGame("9/9/9/9/9/9/9/9/9/9/9");
  }

  // ---------------------------------------------------------------------
  // An open tenth frame whose second roll is missing
  // ---------------------------------------------------------------------

  /** An open tenth frame whose second roll is missing: one roll per character, as listed. */
  lemma NinesShortRolls(s: string)
    requires |s| == 19 && s[0] == '9' && s[1] == '-' && s[2] == '9' && s[3] == '-' && s[4] == '9'
    requires s[5] == '-' && s[6] == '9' && s[7] == '-' && s[8] == '9' && s[9] == '-' && s[10] == '9'
    requires s[11] == '-' && s[12] == '9' && s[13] == '-' && s[14] == '9' && s[15] == '-' && s[16] == '9'
    requires s[17] == '-' && s[18] == '9'
    ensures Parse(s).Ok?
    ensures |Parse(s).value| == 19 && Parse(s).value[0] == 9 && Parse(s).value[1] == 0 && Parse(s).value[2] == 9
    ensures Parse(s).value[3] == 0 && Parse(s).value[4] == 9 && Parse(s).value[5] == 0 && Parse(s).value[6] == 9
    ensures Parse(s).value[7] == 0 && Parse(s).value[8] == 9 && Parse(s).value[9] == 0 && Parse(s).value[10] == 9
    ensures Parse(s).value[11] == 0 && Parse(s).value[12] == 9 && Parse(s).value[13] == 0 && Parse(s).value[14] == 9
    ensures Parse(s).value[15] == 0 && Parse(s).value[16] == 9 && Parse(s).value[17] == 0 && Parse(s).value[18] == 9
  {
    ReadDigit(s, 0, 1, true, 0);
    ReadMiss(s, 1, 1, false, 9);
    ReadDigit(s, 2, 2, true, 0);
    ReadMiss(s, 3, 2, false, 9);
    ReadDigit(s, 4, 3, true, 0);
    ReadMiss(s, 5, 3, false, 9);
    ReadDigit(s, 6, 4, true, 0);
    ReadMiss(s, 7, 4, false, 9);
    ReadDigit(s, 8, 5, true, 0);
    ReadMiss(s, 9, 5, false, 9);
    ReadDigit(s, 10, 6, true, 0);
    ReadMiss(s, 11, 6, false, 9);
    ReadDigit(s, 12, 7, true, 0);
    ReadMiss(s, 13, 7, false, 9);
    ReadDigit(s, 14, 8, true, 0);
    ReadMiss(s, 15, 8, false, 9);
    ReadDigit(s, 16, 9, true, 0);
    ReadMiss(s, 17, 9, false, 9);
    ReadDigit(s, 18, 10, true, 0);
    RollKept(s, 0);
    RollKept(s, 1);
    RollKept(s, 2);
    RollKept(s, 3);
    RollKept(s, 4);
    RollKept(s, 5);
    RollKept(s, 6);
    RollKept(s, 7);
    RollKept(s, 8);
    RollKept(s, 9);
    RollKept(s, 10);
    RollKept(s, 11);
    RollKept(s, 12);
    RollKept(s, 13);
    RollKept(s, 14);
    RollKept(s, 15);
    RollKept(s, 16);
    RollKept(s, 17);
    RollKept(s, 18);
  }

  /** An open tenth frame whose second roll is missing: the rolls fail with `OpenFrameIndexError`. */
  lemma NinesShortScore(rolls: seq<int>)
    requires |rolls| == 19 && rolls[0] == 9 && rolls[1] == 0 && rolls[2] == 9 && rolls[3] == 0 && rolls[4] == 9 && rolls[5] == 0 && rolls[6] == 9
    requires rolls[7] == 0 && rolls[8] == 9 && rolls[9] == 0 && rolls[10] == 9 && rolls[11] == 0 && rolls[12] == 9 && rolls[13] == 0 && rolls[14] == 9
    requires rolls[15] == 0 && rolls[16] == 9 && rolls[17] == 0 && rolls[18] == 9
    ensures Score(rolls) == Fail(OpenFrameIndexError)
  {
    WalkExtend(rolls, 1, 0, 0, Tally(9, 2));
    WalkExtend(rolls, 2, 9, 2, Tally(9, 4));
    WalkExtend(rolls, 3, 18, 4, Tally(9, 6));
    WalkExtend(rolls, 4, 27, 6, Tally(9, 8));
    WalkExtend(rolls, 5, 36, 8, Tally(9, 10));
    WalkExtend(rolls, 6, 45, 10, Tally(9, 12));
    WalkExtend(rolls, 7, 54, 12, Tally(9, 14));
    WalkExtend(rolls, 8, 63, 14, Tally(9, 16));
    WalkExtend(rolls, 9, 72, 16, Tally(9, 18));
    ScoreStopsAtFrame(rolls, 10);
  }

  /** An open tenth frame whose second roll is missing: the game fails with `OpenFrameIndexError`. */
  lemma NinesShortGame(s: string)
    requires |s| == 19 && s[0] == '9' && s[1] == '-' && s[2] == '9' && s[3] == '-' && s[4] == '9'
    requires s[5] == '-' && s[6] == '9' && s[7] == '-' && s[8] == '9' && s[9] == '-' && s[10] == '9'
    requires s[11] == '-' && s[12] == '9' && s[13] == '-' && s[14] == '9' && s[15] == '-' && s[16] == '9'
    requires s[17] == '-' && s[18] == '9'
    ensures GameScore(s) == Fail(OpenFrameIndexError)
  {
    assert !IsWhitespace(s[0]);
    NinesShortRolls(s);
    AcceptedIsNormalized(s);
    NinesShortScore(Parse(s).value);
  }

  /** The same game written as the literal notation. */
  lemma NinesShortLiteral()
    ensures GameScore("9-9-9-9-9-9-9-9-9-9") == Fail(OpenFrameIndexError)
  {
    NinesShortGame("9-9-9-9-9-9-9-9-9-9");
  }

  // ---------------------------------------------------------------------
  // Two digits after the tenth frame: 9 and 6 are not checked against each other and are two trailing rolls
  // ---------------------------------------------------------------------

  /** Two digits after the tenth frame: 9 and 6 are not checked against each other and are two trailing rolls: one roll per character, as listed. */
  lemma PastTenthDigitsRolls(s: string)
    requires |s| == 22 && s[0] == '-' && s[1] == '-' && s[2] == '-' && s[3] == '-' && s[4] == '-'
    requires s[5] == '-' && s[6] == '-' && s[7] == '-' && s[8] == '-' && s[9] == '-' && s[10] == '-'
    requires s[11] == '-' && s[12] == '-' && s[13] == '-' && s[14] == '-' && s[15] == '-' && s[16] == '-'
    requires s[17] == '-' && s[18] == '-' && s[19] == '-' && s[20] == '9' && s[21] == '6'
    ensures Parse(s).Ok?
    ensures |Parse(s).value| == 22 && Parse(s).value[0] == 0 && Parse(s).value[1] == 0 && Parse(s).value[2] == 0
    ensures Parse(s).value[3] == 0 && Parse(s).value[4] == 0 && Parse(s).value[5] == 0 && Parse(s).value[6] == 0
    ensures Parse(s).value[7] == 0 && Parse(s).value[8] == 0 && Parse(s).value[9] == 0 && Parse(s).value[10] == 0
    ensures Parse(s).value[11] == 0 && Parse(s).value[12] == 0 && Parse(s).value[13] == 0 && Parse(s).value[14] == 0
    ensures Parse(s).value[15] == 0 && Parse(s).value[16] == 0 && Parse(s).value[17] == 0 && Parse(s).value[18] == 0
    ensures Parse(s).value[19] == 0 && Parse(s).value[20] == 9 && Parse(s).value[21] == 6
  {
    ReadMiss(s, 0, 1, true, 0);
    ReadMiss(s, 1, 1, false, 0);
    ReadMiss(s, 2, 2, true, 0);
    ReadMiss(s, 3, 2, false, 0);
    ReadMiss(s, 4, 3, true, 0);
    ReadMiss(s, 5, 3, false, 0);
    ReadMiss(s, 6, 4, true, 0);
    ReadMiss(s, 7, 4, false, 0);
    ReadMiss(s, 8, 5, true, 0);
    ReadMiss(s, 9, 5, false, 0);
    ReadMiss(s, 10, 6, true, 0);
    ReadMiss(s, 11, 6, false, 0);
    ReadMiss(s, 12, 7, true, 0);
    ReadMiss(s, 13, 7, false, 0);
    ReadMiss(s, 14, 8, true, 0);
    ReadMiss(s, 15, 8, false, 0);
    ReadMiss(s, 16, 9, true, 0);
    ReadMiss(s, 17, 9, false, 0);
    ReadMiss(s, 18, 10, true, 0);
    ReadMiss(s, 19, 10, false, 0);
    ReadDigit(s, 20, 11, true, 0);
    ReadDigit(s, 21, 11, false, 9);
    RollKept(s, 0);
    RollKept(s, 1);
    RollKept(s, 2);
    RollKept(s, 3);
    RollKept(s, 4);
    RollKept(s, 5);
    RollKept(s, 6);
    RollKept(s, 7);
    RollKept(s, 8);
    RollKept(s, 9);
    RollKept(s, 10);
    RollKept(s, 11);
    RollKept(s, 12);
    RollKept(s, 13);
    RollKept(s, 14);
    RollKept(s, 15);
    RollKept(s, 16);
    RollKept(s, 17);
    RollKept(s, 18);
    RollKept(s, 19);
    RollKept(s, 20);
    RollKept(s, 21);
  }

  /** Two digits after the tenth frame: 9 and 6 are not checked against each other and are two trailing rolls: the rolls fail with `TrailingData(2)`. */
  lemma PastTenthDigitsScore(rolls: seq<int>)
    requires |rolls| == 22 && rolls[0] == 0 && rolls[1] == 0 && rolls[2] == 0 && rolls[3] == 0 && rolls[4] == 0 && rolls[5] == 0 && rolls[6] == 0
    requires rolls[7] == 0 && rolls[8] == 0 && rolls[9] == 0 && rolls[10] == 0 && rolls[11] == 0 && rolls[12] == 0 && rolls[13] == 0 && rolls[14] == 0
    requires rolls[15] == 0 && rolls[16] == 0 && rolls[17] == 0 && rolls[18] == 0 && rolls[19] == 0 && rolls[20] == 9 && rolls[21] == 6
    ensures Score(rolls) == Fail(TrailingData(2))
  {
    WalkExtend(rolls, 1, 0, 0, Tally(0, 2));
    WalkExtend(rolls, 2, 0, 2, Tally(0, 4));
    WalkExtend(rolls, 3, 0, 4, Tally(0, 6));
    WalkExtend(rolls, 4, 0, 6, Tally(0, 8));
    WalkExtend(rolls, 5, 0, 8, Tally(0, 10));
    WalkExtend(rolls, 6, 0, 10, Tally(0, 12));
    WalkExtend(rolls, 7, 0, 12, Tally(0, 14));
    WalkExtend(rolls, 8, 0, 14, Tally(0, 16));
    WalkExtend(rolls, 9, 0, 16, Tally(0, 18));
    WalkExtend(rolls, 10, 0, 18, Tally(0, 20));
  }

  /** Two digits after the tenth frame: 9 and 6 are not checked against each other and are two trailing rolls: the game fails with `TrailingData(2)`. */
  lemma PastTenthDigitsGame(s: string)
    requires |s| == 22 && s[0] == '-' && s[1] == '-' && s[2] == '-' && s[3] == '-' && s[4] == '-'
    requires s[5] == '-' && s[6] == '-' && s[7] == '-' && s[8] == '-' && s[9] == '-' && s[10] == '-'
    requires s[11] == '-' && s[12] == '-' && s[13] == '-' && s[14] == '-' && s[15] == '-' && s[16] == '-'
    requires s[17] == '-' && s[18] == '-' && s[19] == '-' && s[20] == '9' && s[21] == '6'
    ensures GameScore(s) == Fail(TrailingData(2))
  {
    assert !IsWhitespace(s[0]);
    PastTenthDigitsRolls(s);
    AcceptedIsNormalized(s);
    PastTenthDigitsScore(Parse(s).value);
  }

  /** The same game written as the literal notation. */
  lemma PastTenthDigitsLiteral()
    ensures GameScore("--------------------96") == Fail(TrailingData(2))
  {
    PastTenthDigitsGame("--------------------96");
  }

  // ---------------------------------------------------------------------
  // A tab survives normalisation and is refused
  // ---------------------------------------------------------------------

  /** A tab survives normalisation and is refused: every notation that starts this way is refused by the parser. */
  lemma TabRefusedRolls(s: string)
    requires |s| >= 1 && s[0] == '\t'
    ensures Parse(s) == Fail(InvalidChar('\t'))
  {
    ParseStops(s, 0, 1, true, 0, InvalidChar('\t'));
  }

  /** A tab survives normalisation and is refused: the game fails with `InvalidChar('\t')`. */
  lemma TabRefusedGame(s: string)
    requires |s| == 2 && s[0] == '\t' && s[1] == 'X'
    ensures GameScore(s) == Fail(InvalidChar('\t'))
  {
    assert !IsWhitespace(s[1]);
    var head := s[..1];
    assert Normalized(head[1..]);
    NormalFrom(head, 0);
    assert head[0..] == head;
    NormalizeFixed(head);
    NormalizeAppend(head, s[1..]);
    assert head + s[1..] == s;
    TabRefusedRolls(Normalize(s));
  }

  /** The same game written as the literal notation. */
  lemma TabRefusedLiteral()
    ensures GameScore("\tX") == Fail(InvalidChar('\t'))
  {
    TabRefusedGame("\tX");
  }

  // ---------------------------------------------------------------------
  // Lower-case strikes separated by spaces
  // ---------------------------------------------------------------------

  /** Lower-case strikes separated by spaces: from character 17 on, normalised, they are 3 strikes. */
  lemma LowerSpacedFrom17(s: string)
    requires |s| == 23 && s[17] == ' ' && s[18] == 'x' && s[19] == ' ' && s[20] == 'x' && s[21] == ' '
    requires s[22] == 'x'
    ensures |Normalize(s[17..])| == 3 && AllStrikes(Normalize(s[17..]))
  {
    assert s[23..] == [];
    LowerStrike(s, 22, 0);
    LowerStrike(s, 21, 1);
    LowerStrike(s, 20, 1);
    LowerStrike(s, 19, 2);
    LowerStrike(s, 18, 2);
    LowerStrike(s, 17, 3);
  }

  /** Lower-case strikes separated by spaces: from character 11 on, normalised, they are 6 strikes. */
  lemma LowerSpacedFrom11(s: string)
    requires |s| == 23 && s[11] == ' ' && s[12] == 'x' && s[13] == ' ' && s[14] == 'x' && s[15] == ' '
    requires s[16] == 'x' && s[17] == ' ' && s[18] == 'x' && s[19] == ' ' && s[20] == 'x' && s[21] == ' '
    requires s[22] == 'x'
    ensures |Normalize(s[11..])| == 6 && AllStrikes(Normalize(s[11..]))
  {
    LowerSpacedFrom17(s);
    LowerStrike(s, 16, 3);
    LowerStrike(s, 15, 4);
    LowerStrike(s, 14, 4);
    LowerStrike(s, 13, 5);
    LowerStrike(s, 12, 5);
    LowerStrike(s, 11, 6);
  }

  /** Lower-case strikes separated by spaces: from character 5 on, normalised, they are 9 strikes. */
  lemma LowerSpacedFrom5(s: string)
    requires |s| == 23 && s[5] == ' ' && s[6] == 'x' && s[7] == ' ' && s[8] == 'x' && s[9] == ' '
    requires s[10] == 'x' && s[11] == ' ' && s[12] == 'x' && s[13] == ' ' && s[14] == 'x' && s[15] == ' '
    requires s[16] == 'x' && s[17] == ' ' && s[18] == 'x' && s[19] == ' ' && s[20] == 'x' && s[21] == ' '
    requires s[22] == 'x'
    ensures |Normalize(s[5..])| == 9 && AllStrikes(Normalize(s[5..]))
  {
    LowerSpacedFrom11(s);
    LowerStrike(s, 10, 6);
    LowerStrike(s, 9, 7);
    LowerStrike(s, 8, 7);
    LowerStrike(s, 7, 8);
    LowerStrike(s, 6, 8);
    LowerStrike(s, 5, 9);
  }

  /** Lower-case strikes separated by spaces: normalised, they are 12 strikes. */
  lemma LowerSpacedNormalizes(s: string)
    requires |s| == 23 && s[0] == 'x' && s[1] == ' ' && s[2] == 'x' && s[3] == ' ' && s[4] == 'x'
    requires s[5] == ' ' && s[6] == 'x' && s[7] == ' ' && s[8] == 'x' && s[9] == ' ' && s[10] == 'x'
    requires s[11] == ' ' && s[12] == 'x' && s[13] == ' ' && s[14] == 'x' && s[15] == ' ' && s[16] == 'x'
    requires s[17] == ' ' && s[18] == 'x' && s[19] == ' ' && s[20] == 'x' && s[21] == ' ' && s[22] == 'x'
    ensures |Normalize(s)| == 12 && AllStrikes(Normalize(s))
  {
    LowerSpacedFrom5(s);
    LowerStrike(s, 4, 9);
    LowerStrike(s, 3, 10);
    LowerStrike(s, 2, 10);
    LowerStrike(s, 1, 11);
    LowerStrike(s, 0, 11);
    assert s[0..] == s;
  }

  /** Lower-case strikes separated by spaces: the game scores 300. */
  lemma LowerSpacedGame(s: string)
    requires |s| == 23 && s[0] == 'x' && s[1] == ' ' && s[2] == 'x' && s[3] == ' ' && s[4] == 'x'
    requires s[5] == ' ' && s[6] == 'x' && s[7] == ' ' && s[8] == 'x' && s[9] == ' ' && s[10] == 'x'
    requires s[11] == ' ' && s[12] == 'x' && s[13] == ' ' && s[14] == 'x' && s[15] == ' ' && s[16] == 'x'
    requires s[17] == ' ' && s[18] == 'x' && s[19] == ' ' && s[20] == 'x' && s[21] == ' ' && s[22] == 'x'
    ensures GameScore(s) == Ok(300)
  {
    assert !IsWhitespace(s[0]);
    LowerSpacedNormalizes(s);
    PerfectRolls(Normalize(s));
    PerfectScore(Parse(Normalize(s)).value);
  }

}
