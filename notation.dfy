/**
  The notation parser: normalisation of the raw game string and the single
  left-to-right scan (`_parse_rolls`) that turns each character into one
  roll while tracking the current frame and whether the next roll opens it.

  `Scan(s, n)` is the state after the first `n` characters; `ParseRolls` is
  the loop of the source, proved to compute `Parse(s)`.
 */
module Notation {
  import opened BowlingTypes

  // ---------------------------------------------------------------------
  // Normalisation (BowlingGame.__init__)
  // ---------------------------------------------------------------------

  /** Python's `str.isspace`, by code point. */
  predicate IsWhitespace(c: char) {
    var k := c as int;
    (9 <= k <= 13) || (28 <= k <= 32) || k == 0x85 || k == 0xA0 || k == 0x1680
    || (0x2000 <= k <= 0x200A) || k == 0x2028 || k == 0x2029 || k == 0x202F
    || k == 0x205F || k == 0x3000
  }

  /** `not game_str or not game_str.strip()`: nothing but whitespace. */
  predicate Blank(s: string) {
    forall i :: 0 <= i < |s| ==> IsWhitespace(s[i])
  }

  /** ASCII upper-casing of one character. */
  function Upper(c: char): char {
    if 'a' <= c <= 'z' then (c as int - 32) as char else c
  }

  /** No space and no lower-case ASCII letter. */
  predicate Normalized(s: string) {
    forall i :: 0 <= i < |s| ==> s[i] != ' ' && !('a' <= s[i] <= 'z')
  }

  /** `game_str.upper().replace(" ", "")`. */
  function Normalize(s: string): (r: string)
    ensures |r| <= |s|
    ensures Normalized(r)
  {
    if s == [] then []
    else (if s[0] == ' ' then [] else [Upper(s[0])]) + Normalize(s[1..])
  }

  /** Normalising twice is normalising once. */
  lemma {:induction false} NormalizeIdempotent(s: string)
    ensures Normalize(Normalize(s)) == Normalize(s)
  {
    if s != [] {
      NormalizeIdempotent(s[1..]);
      var head := if s[0] == ' ' then [] else [Upper(s[0])];
      NormalizeAppend(head, Normalize(s[1..]));
      assert Normalize(head) == head;
    }
  }

  /** Normalisation leaves a string unchanged exactly when it is already normalised. */
  lemma {:induction false} NormalizeFixed(s: string)
    ensures Normalize(s) == s <==> Normalized(s)
  {
    if s != [] && Normalized(s) {
      assert Normalized(s[1..]) by {
        forall i | 0 <= i < |s| - 1
          ensures s[1..][i] != ' ' && !('a' <= s[1..][i] <= 'z')
        {
          assert s[1..][i] == s[i + 1];
        }
      }
      NormalizeFixed(s[1..]);
      assert Upper(s[0]) == s[0];
      assert Normalize(s) == [s[0]] + s[1..];
    }
  }

  /** Normalisation distributes over concatenation. */
  lemma {:induction false} NormalizeAppend(a: string, b: string)
    ensures Normalize(a + b) == Normalize(a) + Normalize(b)
  {
    if a != [] {
      assert (a + b)[1..] == a[1..] + b;
      NormalizeAppend(a[1..], b);
    } else {
      assert a + b == b;
    }
  }

  /** Blank input stays blank after normalisation: a whitespace character is never upper-cased into anything else. */
  lemma {:induction false} BlankNormalizesBlank(s: string)
    requires Blank(s)
    ensures Blank(Normalize(s))
  {
    if s != [] {
      assert Blank(s[1..]) by {
        forall i | 0 <= i < |s| - 1
          ensures IsWhitespace(s[1..][i])
        {
          assert s[1..][i] == s[i + 1];
        }
      }
      BlankNormalizesBlank(s[1..]);
      assert IsWhitespace(s[0]);
      var head := if s[0] == ' ' then [] else [Upper(s[0])];
      assert Normalize(s) == head + Normalize(s[1..]);
      forall i | 0 <= i < |Normalize(s)|
        ensures IsWhitespace(Normalize(s)[i])
      {
        if i >= |head| {
          assert Normalize(s)[i] == Normalize(s[1..])[i - |head|];
        }
      }
    }
  }

  /** Input that is not blank is still not blank (so not empty) after normalisation. */
  lemma {:induction false} NonBlankNormalizesNonBlank(s: string)
    requires !Blank(s)
    ensures !Blank(Normalize(s)) && Normalize(s) != []
  {
    var head := if s[0] == ' ' then [] else [Upper(s[0])];
    assert Normalize(s) == head + Normalize(s[1..]);
    if IsWhitespace(s[0]) {
      assert !Blank(s[1..]) by {
        var i :| 0 <= i < |s| && !IsWhitespace(s[i]);
        assert s[1..][i - 1] == s[i];
      }
      NonBlankNormalizesNonBlank(s[1..]);
      var j :| 0 <= j < |Normalize(s[1..])| && !IsWhitespace(Normalize(s[1..])[j]);
      assert Normalize(s)[|head| + j] == Normalize(s[1..])[j];
    } else {
      assert Normalize(s)[0] == Upper(s[0]);
    }
  }

  // ---------------------------------------------------------------------
  // Parser specification (_parse_rolls)
  // ---------------------------------------------------------------------

  /** Parse state: rolls so far, `current_frame`, `first_roll_in_frame`. */
  datatype ParseState = ParseState(rolls: seq<int>, frame: nat, first: bool)

  const Start := ParseState([], 1, true)

  predicate IsDigit(c: char) { '0' <= c <= '9' }

  function DigitValue(c: char): int requires IsDigit(c) { c as int - '0' as int }

  predicate InAlphabet(c: char) { c == 'X' || c == '-' || c == '/' || IsDigit(c) }

  function Last(rolls: seq<int>): int requires rolls != [] { rolls[|rolls| - 1] }

  /**
    Reference reading of one notation character: the pins it stands for,
    given the pins of the roll before it.
   */
  function CharRoll(c: char, prev: int): int
    requires InAlphabet(c)
  {
    if c == 'X' then 10 else if c == '-' then 0 else if c == '/' then 10 - prev
    else DigitValue(c)
  }

  /** A strike or a spare: it closes frames 1-9; in frame 10 it leaves the frame open. */
  function CloseFrame(st: ParseState, roll: int): ParseState {
    if st.frame < MaxFrames then ParseState(st.rolls + [roll], st.frame + 1, true)
    else ParseState(st.rolls + [roll], st.frame, false)
  }

  /** A miss or a digit: flip the first-roll flag; a completed pair advances the frame. */
  function NextRoll(st: ParseState, roll: int): ParseState {
    var first := !st.first;
    ParseState(st.rolls + [roll], if first then st.frame + 1 else st.frame, first)
  }

  /** The overflow check of a digit roll, exactly as the source writes it. */
  predicate Overflows(s: string, i: nat, st: ParseState, v: int)
    requires i < |s| && |st.rolls| == i && (st.first || i > 0)
  {
    !st.first && st.frame <= MaxFrames && Last(st.rolls) + v > PinsPerFrame && s[i - 1] != 'X'
  }

  /** One iteration of the scan: the character at position `i`. */
  function Step(s: string, i: nat, st: ParseState): (r: Result<ParseState>)
    requires i < |s| && |st.rolls| == i && (st.first || i > 0)
    ensures r.Ok? ==> |r.value.rolls| == i + 1
    ensures r.Fail? ==> IsParseError(r.error)
  {
    var c := s[i];
    if c == 'X' then
      Ok(CloseFrame(st, PinsPerFrame))
    else if c == '-' then
      Ok(NextRoll(st, 0))
    else if c == '/' then
      if st.rolls == [] || s[i - 1] == 'X' then Fail(IllegalSpare)
      else Ok(CloseFrame(st, PinsPerFrame - Last(st.rolls)))
    else if IsDigit(c) then
      var v := DigitValue(c);
      if v >= PinsPerFrame then Fail(DigitTooLarge(v))
      else if Overflows(s, i, st, v) then Fail(FrameOverflow(st.frame))
      else Ok(NextRoll(st, v))
    else
      Fail(InvalidChar(c))
  }

  /** A successful step keeps the rolls read so far and appends one. */
  lemma StepExtends(s: string, i: nat, st: ParseState)
    requires i < |s| && |st.rolls| == i && (st.first || i > 0)
    requires Step(s, i, st).Ok?
    ensures Step(s, i, st).value.rolls[..i] == st.rolls
  {
    var r := Step(s, i, st).value.rolls;
    assert r == st.rolls + [r[i]];
  }

  /** The scan after the first `n` characters of `s`; stops at the first error. */
  function Scan(s: string, n: nat): (r: Result<ParseState>)
    requires n <= |s|
    ensures r.Ok? ==> |r.value.rolls| == n && (r.value.first || n > 0)
    ensures r.Fail? ==> IsParseError(r.error)
    decreases n
  {
    if n == 0 then Ok(Start)
    else match Scan(s, n - 1)
      case Fail(e) => Fail(e)
      case Ok(st) => Step(s, n - 1, st)
  }

  /** The rolls of the whole normalised string, or the first error. */
  function Parse(s: string): Result<seq<int>> {
    match Scan(s, |s|)
    case Fail(e) => Fail(e)
    case Ok(st) => Ok(st.rolls)
  }

  /** An error stops the scan for good, and a successful scan extends every shorter one. */
  lemma {:induction false} ScanPrefix(s: string, i: nat, n: nat)
    requires i <= n <= |s|
    ensures Scan(s, i).Fail? ==> Scan(s, n) == Scan(s, i)
    ensures Scan(s, n).Ok? ==> Scan(s, i).Ok? && Scan(s, i).value.rolls == Scan(s, n).value.rolls[..i]
  {
    if i < n {
      ScanPrefix(s, i, n - 1);
      if Scan(s, n).Ok? {
        var prev := Scan(s, n - 1).value.rolls;
        var rolls := Scan(s, n).value.rolls;
        StepExtends(s, n - 1, Scan(s, n - 1).value);
        assert prev == rolls[..n - 1];
        assert rolls[..n - 1][..i] == rolls[..i];
      }
    }
  }

  /**
    Roll `i` is the reading of character `i` given the roll before it, and
    lies within 0..10 pins.
   */
  predicate ReadsAs(s: string, rolls: seq<int>, i: nat)
    requires i < |s| && i < |rolls|
  {
    && InAlphabet(s[i])
    && rolls[i] == CharRoll(s[i], if i == 0 then 0 else rolls[i - 1])
    && 0 <= rolls[i] <= PinsPerFrame
  }

  /** After a successful scan every roll so far is the reading of its character. */
  lemma {:induction false} ScannedRolls(s: string, n: nat)
    requires n <= |s| && Scan(s, n).Ok?
    ensures forall i :: 0 <= i < n ==> ReadsAs(s, Scan(s, n).value.rolls, i)
  {
    if n > 0 {
      ScannedRolls(s, n - 1);
      var prev := Scan(s, n - 1).value.rolls;
      var rolls := Scan(s, n).value.rolls;
      StepExtends(s, n - 1, Scan(s, n - 1).value);
      assert rolls[..n - 1] == prev;
      forall i | 0 <= i < n
        ensures ReadsAs(s, rolls, i)
      {
        if i < n - 1 {
          assert rolls[i] == prev[i];
          assert i > 0 ==> rolls[i - 1] == prev[i - 1];
          assert ReadsAs(s, prev, i);
        } else if i > 0 {
          assert rolls[i - 1] == prev[i - 1];
          assert ReadsAs(s, prev, i - 1);
        }
      }
    }
  }

  /**
    The parsed rolls: one per normalised character, each the reading of
    that character (`X` 10, `-` 0, digit its value, `/` ten minus the roll
    before), all within 0..10.
   */
  lemma ParsedRolls(s: string)
    requires Parse(s).Ok?
    ensures |Parse(s).value| == |s|
    ensures forall i :: 0 <= i < |s| ==> ReadsAs(s, Parse(s).value, i)
  {
    ScannedRolls(s, |s|);
  }

  /** A notation the parser accepts is already normalised. */
  lemma AcceptedIsNormalized(s: string)
    requires Parse(s).Ok?
    ensures Normalized(s) && Normalize(s) == s
  {
    ParsedRolls(s);
    forall i | 0 <= i < |s|
      ensures s[i] != ' ' && !('a' <= s[i] <= 'z')
    {
      assert ReadsAs(s, Parse(s).value, i);
    }
    NormalizeFixed(s);
  }

  /**
    A `/` is refused exactly when it is the first character or follows an
    `X`; after a `-` it is accepted and counts ten pins.
   */
  lemma SpareRule(s: string, i: nat)
    requires i < |s| && s[i] == '/' && Scan(s, i).Ok?
    ensures Scan(s, i + 1) == Fail(IllegalSpare) <==> (i == 0 || s[i - 1] == 'X')
    ensures Scan(s, i + 1).Ok? <==> !(i == 0 || s[i - 1] == 'X')
    ensures i > 0 && s[i - 1] == '-' ==>
      Scan(s, i + 1).Ok? && Last(Scan(s, i + 1).value.rolls) == PinsPerFrame
  {
    if i > 0 && s[i - 1] == '-' {
      ScannedRolls(s, i);
    }
  }

  /**
    A digit is refused with the current frame number exactly when it is a
    second roll, the frame is at most 10, the character before it is not
    `X`, and it and the roll before it exceed ten pins.
   */
  lemma FrameOverflowRule(s: string, i: nat)
    requires i < |s| && IsDigit(s[i]) && Scan(s, i).Ok?
    ensures var st := Scan(s, i).value;
      && (Scan(s, i + 1).Fail? <==>
            !st.first && st.frame <= MaxFrames && s[i - 1] != 'X'
            && Last(st.rolls) + DigitValue(s[i]) > PinsPerFrame)
      && (Scan(s, i + 1).Fail? ==> Scan(s, i + 1) == Fail(FrameOverflow(st.frame)))
  {
  }

  /**
    A failed parse reports the error of the first character that could not
    be read, and every character before it was read successfully.
   */
  lemma {:induction false} ParseFailsAtFirstError(s: string)
    requires Parse(s).Fail?
    ensures exists i :: 0 <= i < |s| && Scan(s, i).Ok? && Scan(s, i + 1) == Fail(Parse(s).error)
  {
    var n := |s|;
    while Scan(s, n - 1).Fail?
      invariant 0 < n <= |s|
      invariant Scan(s, n).Fail? && Scan(s, n) == Scan(s, |s|)
      decreases n
    {
      n := n - 1;
    }
    assert Scan(s, n - 1).Ok? && Scan(s, n) == Fail(Parse(s).error);
  }

  /** The "digit must be less than 10" error is never raised: a digit character is at most 9. */
  lemma DigitTooLargeDead(s: string)
    ensures Parse(s).Fail? ==> !Parse(s).error.DigitTooLarge?
  {
    if Parse(s).Fail? {
      ParseFailsAtFirstError(s);
      var i :| 0 <= i < |s| && Scan(s, i).Ok? && Scan(s, i + 1) == Fail(Parse(s).error);
      assert Scan(s, i + 1) == Step(s, i, Scan(s, i).value);
    }
  }

  /** `_parse_rolls`: the loop of the source, tracking frame and first-roll flag. */
  method ParseRolls(s: string) returns (r: Result<seq<int>>)
    ensures r == Parse(s)
  {
    var rolls: seq<int> := [];
    var currentFrame: nat := 1;
    var firstRollInFrame := true;
    for i := 0 to |s|
      invariant Scan(s, i) == Ok(ParseState(rolls, currentFrame, firstRollInFrame))
    {
      var c := s[i];
      if c == 'X' {
        rolls := rolls + [PinsPerFrame];
        if currentFrame < MaxFrames {
          firstRollInFrame := true;
          currentFrame := currentFrame + 1;
        } else {
          firstRollInFrame := false;
        }
      } else if c == '-' {
        rolls := rolls + [0];
        firstRollInFrame := !firstRollInFrame;
        if firstRollInFrame { currentFrame := currentFrame + 1; }
      } else if c == '/' {
        if rolls == [] || s[i - 1] == 'X' {
          ScanPrefix(s, i + 1, |s|);
          return Fail(IllegalSpare);
        }
        rolls := rolls + [PinsPerFrame - rolls[|rolls| - 1]];
        if currentFrame < MaxFrames {
          firstRollInFrame := true;
          currentFrame := currentFrame + 1;
        } else {
          firstRollInFrame := false;
        }
      } else if IsDigit(c) {
        var v := c as int - '0' as int;
        if v >= PinsPerFrame {
          return Fail(DigitTooLarge(v));
        }
        if !firstRollInFrame && currentFrame <= MaxFrames {
          if rolls[|rolls| - 1] + v > PinsPerFrame && s[i - 1] != 'X' {
            ScanPrefix(s, i + 1, |s|);
            return Fail(FrameOverflow(currentFrame));
          }
        }
        rolls := rolls + [v];
        firstRollInFrame := !firstRollInFrame;
        if firstRollInFrame { currentFrame := currentFrame + 1; }
      } else {
        ScanPrefix(s, i + 1, |s|);
        return Fail(InvalidChar(c));
      }
    }
    return Ok(rolls);
  }
}
