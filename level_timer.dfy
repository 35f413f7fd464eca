/**
 * The level timer of Assets/Scripts/Level/LevelTimer.cs: a counter, kept here
 * in whole milliseconds, that grows by Time.fixedDeltaTime (the physics step)
 * once per rendered frame, so it tracks real time only at 1/fixedDeltaTime
 * frames per second. It runs while the timer is active
 * and not locked in, is clamped as written at 9599999 seconds, and is shown as
 * its milliseconds zero-padded to seven digits with two colons inserted. The
 * clamp the "DD:DD:DDD" display needs, at 9599999 milliseconds, is Clamp.
 */
module LevelTiming {

  import opened Options

  /** The character of a decimal digit. */
  function DigitChar(d: nat): char
    requires d < 10
  {
    "0123456789"[d]
  }

  predicate IsDigit(c: char) {
    '0' <= c <= '9'
  }

  predicate AllDigits(s: string) {
    forall i :: 0 <= i < |s| ==> IsDigit(s[i])
  }

  /** z zero characters. */
  function Zeros(z: nat): (r: string)
    ensures |r| == z && AllDigits(r)
  {
    seq(z, _ => '0')
  }

  function DigitValue(c: char): nat
    requires IsDigit(c)
  {
    (c - '0') as nat
  }

  /** int.ToString for a non-negative value: no leading zeros, "0" for zero. */
  function Decimal(n: nat): (s: string)
    ensures |s| >= 1
    decreases n
  {
    if n < 10 then [DigitChar(n)] else Decimal(n / 10) + [DigitChar(n % 10)]
  }

  /** The value of a string of digits, most significant first. */
  function ValueOf(s: string): nat
    requires AllDigits(s)
    decreases |s|
  {
    if |s| == 0 then 0 else ValueOf(s[..|s| - 1]) * 10 + DigitValue(s[|s| - 1])
  }

  function Pow10(k: nat): nat
    decreases k
  {
    if k == 0 then 1 else 10 * Pow10(k - 1)
  }

  /** string.PadLeft(width, c): c in front until the string is width long. */
  function PadLeft(s: string, width: nat, c: char): (r: string)
    ensures |r| == if |s| >= width then |s| else width
    ensures r[|r| - |s|..] == s
    ensures forall i :: 0 <= i < |r| - |s| ==> r[i] == c
  {
    if |s| >= width then s else seq(width - |s|, _ => c) + s
  }

  /** string.Insert(i, t). */
  function Insert(s: string, i: nat, t: string): (r: string)
    requires i <= |s|
    ensures |r| == |s| + |t|
    ensures r[..i] == s[..i] && r[i..i + |t|] == t && r[i + |t|..] == s[i..]
  {
    s[..i] + t + s[i..]
  }

  /** convertToTimerFormat for a number of milliseconds. */
  function FormatTimer(millis: nat): string {
    var padded := PadLeft(Decimal(millis), 7, '0');
    Insert(Insert(padded, 2, ":"), 5, ":")
  }

  /** The formatted string with the characters at 2 and 5 taken out. */
  function WithoutColons(s: string): string
    requires |s| >= 6
  {
    s[..2] + s[3..5] + s[6..]
  }

  /** The decimal form has only digits and gives back its value. */
  lemma {:induction false} DecimalDigits(n: nat)
    ensures AllDigits(Decimal(n))
    ensures ValueOf(Decimal(n)) == n
    decreases n
  {
    if n < 10 {
      assert Decimal(n)[..0] == [];
    } else {
      DecimalDigits(n / 10);
      var s := Decimal(n);
      assert s[..|s| - 1] == Decimal(n / 10);
    }
  }

  /** A number below 10^k has at most k decimal digits. */
  lemma {:induction false} DecimalLength(n: nat, k: nat)
    requires 1 <= k && n < Pow10(k)
    ensures |Decimal(n)| <= k
    decreases n
  {
    if n >= 10 {
      DecimalLength(n / 10, k - 1);
    }
  }

  /** Leading zeros do not change the value of a digit string. */
  lemma {:induction false} LeadingZeros(z: nat, s: string)
    requires AllDigits(s)
    ensures AllDigits(Zeros(z) + s)
    ensures ValueOf(Zeros(z) + s) == ValueOf(s)
    decreases |s|
  {
    var t := Zeros(z) + s;
    if |s| == 0 {
      assert t == Zeros(z);
      ZerosValue(z);
    } else {
      assert t[..|t| - 1] == Zeros(z) + s[..|s| - 1];
      LeadingZeros(z, s[..|s| - 1]);
    }
  }

  lemma {:induction false} ZerosValue(z: nat)
    ensures ValueOf(Zeros(z)) == 0
    decreases z
  {
    if z > 0 {
      assert Zeros(z)[..z - 1] == Zeros(z - 1);
      ZerosValue(z - 1);
    }
  }

  /** The two inserted colons are exactly the characters WithoutColons drops. */
  lemma ColonsRemoved(p: string)
    requires |p| == 7
    ensures var s := Insert(Insert(p, 2, ":"), 5, ":");
            s[2] == ':' && s[5] == ':' && WithoutColons(s) == p &&
            s == p[..2] + ":" + p[2..4] + ":" + p[4..]
  {
    var s1 := Insert(p, 2, ":");
    assert s1 == p[..2] + ":" + p[2..];
    var s := Insert(s1, 5, ":");
    assert s1[..5] == p[..2] + ":" + p[2..4];
    assert s1[5..] == p[4..];
    assert s == p[..2] + ":" + p[2..4] + ":" + p[4..];
    assert WithoutColons(s) == p[..2] + p[2..4] + p[4..];
    assert p[..2] + p[2..4] + p[4..] == p;
  }

  /**
   * Below 10^7 milliseconds the display is nine characters long, with colons at
   * 2 and 5 and digits everywhere else.
   */
  lemma TimerShape(millis: nat)
    requires millis < 10000000
    ensures var s := FormatTimer(millis);
            |s| == 9 && s[2] == ':' && s[5] == ':' &&
            forall i :: 0 <= i < 9 && i != 2 && i != 5 ==> IsDigit(s[i])
  {
    assert Pow10(7) == 10000000 by {
      assert Pow10(3) == 1000;
    }
    DecimalLength(millis, 7);
    DecimalDigits(millis);
    var d := Decimal(millis);
    var p := PadLeft(d, 7, '0');
    assert p == Zeros(7 - |d|) + d;
    LeadingZeros(7 - |d|, d);
    ColonsRemoved(p);
    var s := FormatTimer(millis);
    forall i | 0 <= i < 9 && i != 2 && i != 5
      ensures IsDigit(s[i])
    {
      if i < 2 { assert s[i] == p[i]; }
      else if i < 5 { assert s[i] == p[i - 1]; }
      else { assert s[i] == p[i - 2]; }
    }
  }

  /**
   * The display can be read back: taking the colons out leaves seven digits
   * whose value is the number of milliseconds.
   */
  lemma TimerRoundTrip(millis: nat)
    requires millis < 10000000
    ensures var digits := WithoutColons(FormatTimer(millis));
            |digits| == 7 &&
            (forall i :: 0 <= i < 7 ==> IsDigit(digits[i])) &&
            ValueOf(digits) == millis
  {
    assert Pow10(7) == 10000000 by {
      assert Pow10(3) == 1000;
    }
    DecimalLength(millis, 7);
    DecimalDigits(millis);
    var d := Decimal(millis);
    var padded := PadLeft(d, 7, '0');
    assert padded == Zeros(7 - |d|) + d;
    LeadingZeros(7 - |d|, d);
    ColonsRemoved(padded);
  }

  /** Zero milliseconds show as the initial display string. */
  lemma TimerStartsAtZero()
    ensures FormatTimer(0) == "00:00:000"
  {
    assert Decimal(0) == "0";
    assert PadLeft("0", 7, '0') == "0000000";
  }

  /**
   * The clamp as written: 9599999 seconds, here in milliseconds. The comment
   * beside it and the display format mean 95:99:999, that is 9599999 milliseconds.
   */
  const MaxTimerAsWritten: nat := 9599999000

  /** The clamp as intended: 9599999 milliseconds. */
  const MaxTimer: nat := 9599999

  /** The clamp of Update as written. */
  function ClampAsWritten(millis: nat): (r: nat)
    ensures r <= millis && r <= MaxTimerAsWritten
    ensures millis <= MaxTimerAsWritten ==> r == millis
  {
    if millis > MaxTimerAsWritten then MaxTimerAsWritten else millis
  }

  /** The clamp of Update as intended. */
  function Clamp(millis: nat): (r: nat)
    ensures r <= millis && r <= MaxTimer
    ensures millis <= MaxTimer ==> r == millis
  {
    if millis > MaxTimer then MaxTimer else millis
  }

  lemma DecimalTenMillion()
    ensures Decimal(10000000) == "10000000"
  {
    assert Decimal(1) == "1";
    assert Decimal(10) == "10";
    assert Decimal(100) == "100";
    assert Decimal(1000) == "1000";
    assert Decimal(10000) == "10000";
    assert Decimal(100000) == "100000";
    assert Decimal(1000000) == "1000000";
  }

  /**
   * Under the written clamp a timer of 10000 seconds is kept as it is, and its
   * display has ten characters with the second colon in the wrong place.
   */
  lemma WrittenClampOverflowsDisplay()
    ensures ClampAsWritten(10000000) == 10000000
    ensures FormatTimer(ClampAsWritten(10000000)) == "10:00:0000"
  {
    DecimalTenMillion();
    var s1 := Insert("10000000", 2, ":");
    assert s1 == "10:000000";
    assert Insert(s1, 5, ":") == "10:00:0000";
  }

  /** Under the intended clamp every timer value fits the nine-character display. */
  lemma ClampFitsDisplay(millis: nat)
    ensures |FormatTimer(Clamp(millis))| == 9
  {
    TimerShape(Clamp(millis));
  }

  class LevelTimer {
    var timerIsActive: bool
    var timerLockedIn: bool
    /** The sum of one physics step per rendered frame, in milliseconds. */
    var currentTimer: nat
    var currentTimerString: string

    predicate Valid()
      reads this
    {
      currentTimer <= MaxTimerAsWritten
    }

    /**
     * The field initialisers and Awake: the timer runs only in a level whose
     * successor is already unlocked. `lvlsUnlocked` is the stored number of
     * unlocked levels, None when none is stored.
     */
    constructor (lvlsUnlocked: Option<int>, levelID: int)
      ensures Valid()
      ensures timerIsActive == (lvlsUnlocked.Some? && lvlsUnlocked.value > levelID)
      ensures !timerLockedIn && currentTimer == 0 && currentTimerString == "00:00:000"
    {
      timerIsActive := false;
      timerLockedIn := false;
      currentTimer := 0;
      currentTimerString := "00:00:000";
      new;
      if lvlsUnlocked.Some? && lvlsUnlocked.value > levelID {
        timerIsActive := true;
      }
    }

    /** convertToTimerFormat: the display string, also kept in currentTimerString. */
    method ConvertToTimerFormat() returns (r: string)
      modifies this`currentTimerString
      ensures r == FormatTimer(currentTimer) && currentTimerString == r
    {
      var temp := currentTimer;
      var newTimerValue := Decimal(temp);
      newTimerValue := PadLeft(newTimerValue, 7, '0');
      newTimerValue := Insert(newTimerValue, 2, ":");
      newTimerValue := Insert(newTimerValue, 5, ":");
      currentTimerString := newTimerValue;
      r := newTimerValue;
    }

    /**
     * Update for one rendered frame, which adds one physics step of
     * `fixedDeltaTime` milliseconds whatever the frame took: nothing happens when
     * the timer is inactive or locked in; otherwise the timer grows, is clamped
     * at 9599999 seconds as written, and the display is recomputed.
     */
    method Update(fixedDeltaTime: nat) returns (display: Option<string>)
      requires Valid()
      modifies this`currentTimer, this`currentTimerString
      ensures Valid()
      ensures !timerIsActive || timerLockedIn ==>
                currentTimer == old(currentTimer) && currentTimerString == old(currentTimerString) && display == None
      ensures timerIsActive && !timerLockedIn ==>
                currentTimer == ClampAsWritten(old(currentTimer) + fixedDeltaTime) &&
                display == Some(currentTimerString) && currentTimerString == FormatTimer(currentTimer)
      ensures old(currentTimer) <= currentTimer
    {
      if !timerIsActive || timerLockedIn {
        return None;
      }
      currentTimer := currentTimer + fixedDeltaTime;
      if currentTimer > MaxTimerAsWritten {
        currentTimer := MaxTimerAsWritten;
      }
      var s := ConvertToTimerFormat();
      display := Some(s);
    }

    /**
     * saveTimer: when active the timer is locked in and the display string is
     * stored for the level (returned as the key's level and the value).
     */
    method SaveTimer(levelID: int) returns (saved: Option<(int, string)>)
      modifies this`timerLockedIn
      ensures !timerIsActive ==> timerLockedIn == old(timerLockedIn) && saved == None
      ensures timerIsActive ==> timerLockedIn && saved == Some((levelID, currentTimerString))
    {
      if !timerIsActive {
        return None;
      }
      timerLockedIn := true;
      saved := Some((levelID, currentTimerString));
    }

    /** Once saved, later updates leave the timer where it was. */
    method SaveThenUpdate(levelID: int, fixedDeltaTime: nat)
      requires Valid() && timerIsActive
      modifies this`timerLockedIn, this`currentTimer, this`currentTimerString
      ensures timerLockedIn && currentTimer == old(currentTimer)
    {
      var _ := SaveTimer(levelID);
      var _ := Update(fixedDeltaTime);
    }
  }

}
