/** One alarm card of the web app (frontend/src/components/Alarm.jsx): its
    on/off toggle and time field, and the once-a-second check that compares
    the wall clock, printed as zero-padded `HH:MM`, with the alarm time. */
module AlarmClock {
  import opened Text

  datatype AlarmState = AlarmState(isAlarmOn: bool, alarmTime: string)

  /** The card starts off, set to the text the clock shows at midnight. */
  function Initial(): (s: AlarmState)
    ensures !s.isAlarmOn && s.alarmTime == FormatClock(0, 0)
  {
    AlarmState(false, "00:00")
  }

  /** `handleToggle`: flips the switch and keeps the time. */
  function HandleToggle(s: AlarmState): (r: AlarmState)
    ensures r.isAlarmOn != s.isAlarmOn && r.alarmTime == s.alarmTime
  {
    s.(isAlarmOn := !s.isAlarmOn)
  }

  /** `handleTimeChange`: takes the input's value as the new time and keeps
      the switch. */
  function HandleTimeChange(s: AlarmState, value: string): (r: AlarmState)
    ensures r.alarmTime == value && r.isAlarmOn == s.isAlarmOn
  {
    s.(alarmTime := value)
  }

  /** `padStart(2, '0')`. */
  function PadStart2(t: string): (r: string)
    ensures |t| >= 2 ==> r == t
    ensures |t| < 2 ==> |r| == 2 && r[2 - |t|..] == t
    ensures forall k :: 0 <= k < 2 - |t| ==> r[k] == '0'
    decreases 2 - |t|
  {
    if |t| >= 2 then t else PadStart2(['0'] + t)
  }

  /** The text the interval callback builds from the hours and minutes of
      the current time. */
  /** Single digits get a leading zero on either side of the colon. */
  function FormatClock(hours: nat, minutes: nat): (r: string)
    ensures |r| >= 5
    ensures hours < 10 ==> r[0] == '0'
    ensures minutes < 10 ==> r[|r| - 2] == '0'
  {
    PadStart2(NatToString(hours)) + ":" + PadStart2(NatToString(minutes))
  }

  /** Whether one tick of the interval raises the alert: only a card that
      is on, and holds a time at least as long as `HH:MM`, ever rings. */
  function Rings(s: AlarmState, hours: nat, minutes: nat): (b: bool)
    ensures b ==> s.isAlarmOn && |s.alarmTime| >= 5
  {
    s.isAlarmOn && FormatClock(hours, minutes) == s.alarmTime
  }

  /** A number below 100, printed and padded, is two digits that read back
      as the number. */
  lemma TwoDigits(n: nat)
    requires n < 100
    ensures |PadStart2(NatToString(n))| == 2
    ensures AllDigits(PadStart2(NatToString(n)))
    ensures DigitsValue(PadStart2(NatToString(n))) == n
  {
    var p := PadStart2(NatToString(n));
    DigitsValueOfNatToString(n);
    if n < 10 {
      assert p == ['0'] + NatToString(n);
      assert p[..1] == "0";
      assert DigitsValue(p[..1]) == 0 by {
        assert p[..1][..0] == [];
      }
    } else {
      assert NatToString(n) == NatToString(n / 10) + [DigitChar(n % 10)];
      assert |NatToString(n)| == 2;
    }
  }

  /** The hours and minutes a zero-padded `HH:MM` text stands for. */
  function ClockValue(t: string): (hm: (nat, nat))
    requires |t| == 5 && AllDigits(t[..2]) && AllDigits(t[3..])
  {
    (DigitsValue(t[..2]), DigitsValue(t[3..]))
  }

  /** For a wall-clock time the text is five characters, `HH:MM`, with the
      colon in the middle, and it reads back as the same time. */
  lemma FormatClockShape(hours: nat, minutes: nat)
    requires hours < 24 && minutes < 60
    ensures |FormatClock(hours, minutes)| == 5 && FormatClock(hours, minutes)[2] == ':'
    ensures AllDigits(FormatClock(hours, minutes)[..2]) && AllDigits(FormatClock(hours, minutes)[3..])
    ensures ClockValue(FormatClock(hours, minutes)) == (hours, minutes)
  {
    var t := FormatClock(hours, minutes);
    TwoDigits(hours);
    TwoDigits(minutes);
    assert t[..2] == PadStart2(NatToString(hours));
    assert t[3..] == PadStart2(NatToString(minutes));
  }

  /** So two different clock times never print alike, and an alarm set to
      a printed time rings at that minute and at no other. */
  lemma RingsOnlyAtItsMinute(s: AlarmState, hours: nat, minutes: nat, h: nat, m: nat)
    requires s.alarmTime == FormatClock(hours, minutes)
    requires hours < 24 && minutes < 60 && h < 24 && m < 60
    ensures Rings(s, h, m) <==> s.isAlarmOn && h == hours && m == minutes
  {
    FormatClockShape(hours, minutes);
    FormatClockShape(h, m);
  }

  datatype Clock = Clock(hours: nat, minutes: nat)

  /** How many alerts a sequence of interval ticks raises. */
  function Alerts(s: AlarmState, ticks: seq<Clock>): (n: nat)
    ensures n <= |ticks|
  {
    if ticks == [] then 0
    else (if Rings(s, ticks[0].hours, ticks[0].minutes) then 1 else 0) + Alerts(s, ticks[1..])
  }

  /** A switched-off alarm raises no alert, whatever the clock says. */
  lemma {:induction false} OffNeverRings(s: AlarmState, ticks: seq<Clock>)
    requires !s.isAlarmOn
    ensures Alerts(s, ticks) == 0
  {
    if ticks != [] {
      OffNeverRings(s, ticks[1..]);
    }
  }

  /** Nothing remembers an alert already raised: every tick that falls in
      the alarm's minute raises it again. */
  lemma {:induction false} EveryMatchingTickRings(s: AlarmState, ticks: seq<Clock>)
    requires forall k :: 0 <= k < |ticks| ==> Rings(s, ticks[k].hours, ticks[k].minutes)
    ensures Alerts(s, ticks) == |ticks|
  {
    if ticks != [] {
      EveryMatchingTickRings(s, ticks[1..]);
    }
  }
}
