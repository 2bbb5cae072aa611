/**
 * The countdown shown while a protocol runs: seconds left, a tick per second while the
 * parent marks it active, reset, the completion callback, mm:ss display and progress.
 */
module ProtocolTimer {
  import opened Text

  /** JavaScript's `%`: the remainder takes the sign of the dividend. */
  function JsRem(a: int, b: int): (r: int)
    requires b > 0
    ensures a >= 0 ==> 0 <= r < b && r == a % b
    ensures a < 0 ==> -b < r <= 0
  {
    if a >= 0 then a % b else -((-a) % b)
  }

  /** The display: whole minutes and the remainder seconds, each padded to two digits, joined by ':'. */
  function Display(timeLeft: int): string {
    PadStart2(IntToString(timeLeft / 60)) + ":" + PadStart2(IntToString(JsRem(timeLeft, 60)))
  }

  /** For a non-negative time, minutes and seconds are plain decimal renderings. */
  lemma DisplayOfNat(timeLeft: nat)
    ensures Display(timeLeft) == PadStart2(NatToString(timeLeft / 60)) + ":" + PadStart2(NatToString(timeLeft % 60))
  {
    assert JsRem(timeLeft, 60) == timeLeft % 60;
    assert IntToString(timeLeft / 60) == NatToString(timeLeft / 60);
    assert IntToString(timeLeft % 60) == NatToString(timeLeft % 60);
  }

  /** Below 100 minutes the display is two digits, ':', two digits, and reads back as the time left. */
  lemma DisplayReadsBack(timeLeft: nat)
    requires timeLeft < 6000
    ensures var d := Display(timeLeft);
      && |d| == 5 && d[2] == ':' && IsDigits(d[..2]) && IsDigits(d[3..])
      && DigitsValue(d[..2]) * 60 + DigitsValue(d[3..]) == timeLeft
  {
    var m, s := timeLeft / 60, timeLeft % 60;
    PadStart2Parses(m);
    PadStart2Parses(s);
    DisplayOfNat(timeLeft);
    var mm, ss := PadStart2(NatToString(m)), PadStart2(NatToString(s));
    var d := mm + ":" + ss;
    assert d[..2] == mm;
    assert d[3..] == ss;
  }

  /** Ten minutes display as "10:00". */
  lemma DisplayTenMinutes()
    ensures Display(600) == "10:00"
  {
    DisplayOfNat(600);
    assert 600 / 60 == 10 && 600 % 60 == 0;
    assert NatToString(1) == "1" && DigitChar(0) == '0';
    assert NatToString(10) == NatToString(1) + [DigitChar(0)] == "10";
    assert PadStart2("10") == "10";
    assert NatToString(0) == "0";
    assert PadStart2("0") == "00";
  }

  /** 125 seconds display as "02:05". */
  lemma DisplayPadsBoth()
    ensures Display(125) == "02:05"
  {
    DisplayOfNat(125);
    assert 125 / 60 == 2 && 125 % 60 == 5;
    assert NatToString(2) == "2" && NatToString(5) == "5";
    assert PadStart2("2") == "02" && PadStart2("5") == "05";
  }

  /** Percentage of the duration already elapsed. */
  function Progress(duration: int, timeLeft: int): (p: real)
    requires duration != 0
    ensures 0 <= timeLeft <= duration ==> 0.0 <= p <= 100.0
    ensures timeLeft == duration ==> p == 0.0
    ensures timeLeft == 0 ==> p == 100.0
  {
    ((duration - timeLeft) as real / duration as real) * 100.0
  }

  /** What the effect does after a render: run the one-second interval, call onToggle, or nothing. */
  datatype EffectAction = StartInterval | CallToggle | Idle

  class Timer {
    /** The duration prop, in seconds. */
    const duration: int
    /** The isActive prop, owned by the parent. */
    var isActive: bool
    var timeLeft: int

    /** The countdown stays between 0 and the duration (a negative duration is never counted down). */
    ghost predicate Valid()
      reads this
    {
      if duration >= 0 then 0 <= timeLeft <= duration else timeLeft == duration
    }

    constructor(duration: int, isActive: bool)
      ensures Valid()
      ensures this.duration == duration && this.isActive == isActive && timeLeft == duration
    {
      this.duration := duration;
      this.isActive := isActive;
      timeLeft := duration;
    }

    /** The effect's decision: count down while active with time left, call onToggle at zero. */
    function Effect(): (action: EffectAction)
      reads this
      ensures action == StartInterval <==> isActive && timeLeft > 0
      ensures action == CallToggle <==> timeLeft == 0
    {
      if isActive && timeLeft > 0 then StartInterval
      else if timeLeft == 0 then CallToggle
      else Idle
    }

    /** One interval tick: a second less, only while the interval runs. */
    method Tick()
      requires Valid()
      modifies this
      ensures Valid() && isActive == old(isActive)
      ensures timeLeft == if old(isActive) && old(timeLeft) > 0 then old(timeLeft) - 1 else old(timeLeft)
    {
      if isActive && timeLeft > 0 {
        timeLeft := timeLeft - 1;
      }
    }

    /** handleReset: back to the full duration, active or not. */
    method Reset()
      requires Valid()
      modifies this
      ensures Valid() && timeLeft == duration && isActive == old(isActive)
    {
      timeLeft := duration;
    }

    /** The parent changes the isActive prop (typically from onToggle). */
    method SetActive(active: bool)
      requires Valid()
      modifies this
      ensures Valid() && isActive == active && timeLeft == old(timeLeft)
    {
      isActive := active;
    }
  }
}
