/**
  The elapsed-time display shown while recording (`updateRecordingTime`).
  Timestamps are integer milliseconds, as `Date.now()` returns them.

  `updateRecordingTime` computes `Math.floor((now - start) / 1000)` and
  `Math.floor(elapsed / 60)`, which for integers are floor divisions, and
  `elapsed % 60`, which in JavaScript truncates toward zero. Dafny's `/`
  with a positive divisor is already floor division; the truncating
  remainder is written out.
 */
module RecordingTime {
  import opened Wrappers
  import opened JsText

  /** The quotient of `a` by a positive `b`, truncated toward zero: the sign of `a` times the floor of `|a| / b`. */
  function TruncQuot(a: int, b: int): int
    requires b > 0
  {
    if a >= 0 then a / b else -((-a) / b)
  }

  /**
    JavaScript's `a % b` for a positive divisor: what is left of `a` after
    taking away `b` times the truncated quotient, so that it lies strictly
    between `-b` and `b` and takes the sign of `a`.
   */
  function TruncRem(a: int, b: int): (r: int)
    requires b > 0
    ensures a == b * TruncQuot(a, b) + r
    ensures -b < r < b
    ensures a >= 0 ==> 0 <= r
    ensures a < 0 ==> r <= 0
  {
    if a >= 0 then a % b else -((-a) % b)
  }

  /** Whole seconds since `start`, rounded down. */
  function ElapsedSeconds(now: int, start: int): int {
    (now - start) / 1000
  }

  /** The `M:SS` text of `recordingTime` at time `now` for a recording started at `start`. */
  function Display(now: int, start: int): string {
    var elapsed := ElapsedSeconds(now, start);
    var minutes := elapsed / 60;
    var seconds := TruncRem(elapsed, 60);
    IntToString(minutes) + ":" + PadStart(IntToString(seconds), 2, '0')
  }

  /**
    Reads an `M:SS` display back into a number of seconds: a digit string,
    a colon and exactly two more digits. Anything else gives None.
   */
  function ParseDisplay(s: string): (r: Option<nat>)
    ensures r.Some? ==> |s| >= 4 && s[|s| - 3] == ':'
  {
    if |s| >= 4 && s[|s| - 3] == ':' && IsDigits(s[..|s| - 3]) && IsDigits(s[|s| - 2..]) then
      Some(DecimalValue(s[..|s| - 3]) * 60 + DecimalValue(s[|s| - 2..]))
    else
      None
  }

  /** Two-digit spelling of a value below 100, as `padStart(2, '0')` leaves it. */
  lemma {:induction false} PadTwo(v: nat)
    requires v < 100
    ensures var p := PadStart(IntToString(v), 2, '0');
            |p| == 2 && IsDigits(p) && DecimalValue(p) == v
  {
    var d := IntToString(v);
    var p := PadStart(d, 2, '0');
    NatToDecimalCanonical(v);
    DecimalOfNatToDecimal(v);
    PadStartShape(d, 2, '0');
    if v < 10 {
      assert d == [DigitChar(v)];
      assert p == ['0', DigitChar(v)];
      assert p[..1] == ['0'] && p[..1][..0] == [];
    } else {
      assert |d| == 2 && p == d;
    }
  }

  /**
    For a recording that started no later than `now`, the display is a
    canonical minute count, a colon and two digits; the two digits spell a
    value below 60, and minutes * 60 + seconds is the elapsed whole seconds.
   */
  lemma {:induction false} DisplayFields(now: int, start: int)
    requires start <= now
    ensures var r := Display(now, start);
            var k := |r| - 3;
            |r| >= 4 && r[k] == ':'
            && IsCanonical(r[..k]) && IsDigits(r[k + 1..])
            && DecimalValue(r[k + 1..]) < 60
            && DecimalValue(r[..k]) * 60 + DecimalValue(r[k + 1..]) == ElapsedSeconds(now, start)
  {
    var elapsed := ElapsedSeconds(now, start);
    IntToStringShape(elapsed / 60);
    var m := IntToString(elapsed / 60);
    var sec := elapsed % 60;
    PadTwo(sec);
    var p := PadStart(IntToString(sec), 2, '0');
    var r := Display(now, start);
    assert r == m + ":" + p;
    assert r[..|r| - 3] == m;
    assert r[|r| - 2..] == p;
  }

  /** Reading the display back gives the elapsed whole seconds. */
  lemma DisplayRoundTrip(now: int, start: int)
    requires start <= now
    ensures ParseDisplay(Display(now, start)) == Some(ElapsedSeconds(now, start))
  {
    DisplayFields(now, start);
  }

  /** Two displays of recordings in progress agree exactly when their elapsed seconds agree. */
  lemma DisplayInjective(now: int, start: int, now': int, start': int)
    requires start <= now && start' <= now'
    ensures Display(now, start) == Display(now', start')
            <==> ElapsedSeconds(now, start) == ElapsedSeconds(now', start')
  {
    DisplayRoundTrip(now, start);
    DisplayRoundTrip(now', start');
  }

  /**
    The display within the first second of a recording is "0:00": this is
    what `startRecording` shows at once, when its second clock reading is
    less than a second after the first.
   */
  lemma DisplayAtStart(start: int, now: int)
    requires start <= now < start + 1000
    ensures Display(now, start) == "0:00"
  {
    assert ElapsedSeconds(now, start) == 0;
    PadTwo(0);
    assert IntToString(0) == "0";
  }

  /**
    A start time later than the clock reading (a wall clock that stepped
    backwards) gives a display that does not read back: its minute field is
    negative, so the text starts with '-'.
   */
  lemma NegativeIntervalNoParse(now: int, start: int)
    requires now < start
    ensures Display(now, start)[0] == '-'
    ensures ParseDisplay(Display(now, start)) == None
  {
    var elapsed := ElapsedSeconds(now, start);
    assert elapsed < 0;
    assert elapsed / 60 < 0;
    var m := IntToString(elapsed / 60);
    assert m[0] == '-';
    var r := Display(now, start);
    assert r[0] == '-';
    if |r| >= 4 {
      assert r[..|r| - 3][0] == '-';
    }
  }

  /** The display reads back as a number of seconds exactly when the recording started no later than `now`. */
  lemma DisplayParsesIff(now: int, start: int)
    ensures ParseDisplay(Display(now, start)).Some? <==> start <= now
  {
    if start <= now {
      DisplayRoundTrip(now, start);
    } else {
      NegativeIntervalNoParse(now, start);
    }
  }

  /**
    An instance of the case above: 5 s before the start the display is
    "-1:-5", whose seconds field is not two digits.
   */
  lemma NegativeIntervalDisplay()
    ensures Display(0, 5000) == "-1:-5"
    ensures ParseDisplay(Display(0, 5000)) == None
  {
    assert ElapsedSeconds(0, 5000) == -5;
    assert TruncRem(-5, 60) == -5;
    assert NatToDecimal(1) == "1" && NatToDecimal(5) == "5";
    assert IntToString(-1) == "-1" && IntToString(-5) == "-5";
    assert PadStart("-5", 2, '0') == "-5";
    var r := Display(0, 5000);
    assert r == "-1:-5";
    assert !IsDigit(r[..|r| - 3][0]);
  }
}
