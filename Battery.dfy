/** The battery card of the Hardware panel: how `getBatteryInfo` turns the
    Battery Status API's level, charging flag and remaining times into the
    card's wording, its status class and the colour of the level bar. */
module Battery {
  import opened JsText

  /** A duration as the Battery Status API reports it: a number, or Infinity. */
  datatype Time = Finite(value: real) | Infinity

  /** What `msToMinSec` shows: "?" or whole minutes and seconds. */
  datatype Countdown = Unknown | MinSec(minutes: int, seconds: int)

  /** `Math.trunc`. */
  function Trunc(x: real): int
  {
    if x >= 0.0 then x.Floor else -((-x).Floor)
  }

  /** JavaScript's `%` on numbers: the remainder keeps the sign of the dividend. */
  function JsRem(a: real, b: real): real
    requires b != 0.0
  {
    a - (Trunc(a / b) as real) * b
  }

  /** `msToMinSec(ms)`: "?" for Infinity or 0, otherwise the whole minutes
      (`Math.floor(ms / 60000)`) and the whole seconds left over
      (`Math.floor((ms % 60000) / 1000)`). For a positive duration the seconds
      lie in 0..59 and the pair brackets `ms` to within one second. */
  function MsToMinSec(t: Time): (c: Countdown)
    ensures c.Unknown? <==> t == Infinity || t == Finite(0.0)
    ensures t.Finite? && t.value > 0.0 ==>
      c.MinSec? && 0 <= c.minutes && 0 <= c.seconds <= 59 &&
      ((c.minutes * 60000 + c.seconds * 1000) as real) <= t.value <
      ((c.minutes * 60000 + c.seconds * 1000 + 1000) as real)
  {
    match t
    case Infinity => Unknown
    case Finite(ms) =>
      if ms == 0.0 then Unknown
      else
        var minutes := (ms / 60000.0).Floor;
        var seconds := (JsRem(ms, 60000.0) / 1000.0).Floor;
        if ms > 0.0 then
          MinSecBounds(ms);
          MinSec(minutes, seconds)
        else MinSec(minutes, seconds)
  }

  lemma MinSecBounds(ms: real)
    requires ms > 0.0
    ensures var m := (ms / 60000.0).Floor;
      var s := (JsRem(ms, 60000.0) / 1000.0).Floor;
      0 <= m && 0 <= s <= 59 &&
      ((m * 60000 + s * 1000) as real) <= ms < ((m * 60000 + s * 1000 + 1000) as real)
  {
    var q := ms / 60000.0;
    var m := q.Floor;
    assert Trunc(q) == m;
    assert (m as real) <= q < (m as real) + 1.0;
    var rem := ms - (m as real) * 60000.0;
    assert JsRem(ms, 60000.0) == rem;
    assert ms == q * 60000.0;
    assert 0.0 <= rem < 60000.0;
    var s := (rem / 1000.0).Floor;
    assert (s as real) <= rem / 1000.0 < (s as real) + 1.0;
    assert (s as real) * 1000.0 <= rem < (s as real) * 1000.0 + 1000.0;
  }

  /** The text `msToMinSec` returns. */
  function CountdownText(c: Countdown): string
  {
    match c
    case Unknown => "?"
    case MinSec(m, s) => IntText(m) + "m " + IntText(s) + "s"
  }

  /** A countdown of whole minutes and seconds is written as the minutes'
      digits, "m ", then the seconds' digits and "s"; `parseInt` reads the
      minutes back from the start of the text and the seconds from the part
      after "m ". */
  lemma CountdownTextReadsBack(m: nat, s: nat)
    ensures var secs := NatText(s) + "s";
      CountdownText(MinSec(m, s)) == NatText(m) + ("m " + secs) &&
      ParseInt(NatText(m) + ("m " + secs)) == Num(m) && ParseInt(secs) == Num(s)
  {
    CountdownTextShape(m, s);
    MinutesReadBack(m, NatText(s) + "s");
    ParseIntOfNatText(s, "s");
  }

  lemma CountdownTextShape(m: nat, s: nat)
    ensures CountdownText(MinSec(m, s)) == NatText(m) + ("m " + (NatText(s) + "s"))
  {
    assert IntText(m) == NatText(m) && IntText(s) == NatText(s);
  }

  lemma MinutesReadBack(m: nat, secs: string)
    ensures ParseInt(NatText(m) + ("m " + secs)) == Num(m)
  {
    var rest := "m " + secs;
    assert rest[0] == 'm';
    ParseIntOfNatText(m, rest);
  }

  /** The part of the status text after the percentage: the time to full while
      charging, the time left while discharging, each only when it is not
      Infinity. Times are in seconds. */
  function StateSuffix(charging: bool, chargingTime: Time, dischargingTime: Time): (r: string)
    ensures charging && chargingTime == Infinity ==> r == " (Charging)"
    ensures charging && chargingTime.Finite? ==>
      r == " (" + CountdownText(MsToMinSec(Finite(chargingTime.value * 1000.0))) + " to full, Charging)"
    ensures !charging && dischargingTime == Infinity ==> r == " (Discharging)"
    ensures !charging && dischargingTime.Finite? ==>
      r == " (" + CountdownText(MsToMinSec(Finite(dischargingTime.value * 1000.0))) + " left, Discharging)"
  {
    if charging then
      if chargingTime == Infinity then " (Charging)"
      else " (" + CountdownText(MsToMinSec(Finite(chargingTime.value * 1000.0))) + " to full, Charging)"
    else
      if dischargingTime == Infinity then " (Discharging)"
      else " (" + CountdownText(MsToMinSec(Finite(dischargingTime.value * 1000.0))) + " left, Discharging)"
  }

  /** While charging with a positive time to full of `t` seconds, the text names
      whole minutes and seconds that bracket `t` to within one second. */
  lemma TimeToFullBrackets(t: real, dischargingTime: Time)
    requires t > 0.0
    ensures var c := MsToMinSec(Finite(t * 1000.0));
      c.MinSec? && 0 <= c.minutes && 0 <= c.seconds <= 59 &&
      StateSuffix(true, Finite(t), dischargingTime) ==
        " (" + CountdownText(c) + " to full, Charging)" &&
      ((c.minutes * 60 + c.seconds) as real) <= t < ((c.minutes * 60 + c.seconds + 1) as real)
  {
    var c := MsToMinSec(Finite(t * 1000.0));
    var base := (c.minutes * 60 + c.seconds) as real;
    assert base * 1000.0 <= t * 1000.0 < (base + 1.0) * 1000.0;
  }

  /** While discharging with a positive time left of `t` seconds, the text
      names whole minutes and seconds that bracket `t` to within one second. */
  lemma TimeLeftBrackets(chargingTime: Time, t: real)
    requires t > 0.0
    ensures var c := MsToMinSec(Finite(t * 1000.0));
      c.MinSec? && 0 <= c.minutes && 0 <= c.seconds <= 59 &&
      StateSuffix(false, chargingTime, Finite(t)) ==
        " (" + CountdownText(c) + " left, Discharging)" &&
      ((c.minutes * 60 + c.seconds) as real) <= t < ((c.minutes * 60 + c.seconds + 1) as real)
  {
    var c := MsToMinSec(Finite(t * 1000.0));
    var base := (c.minutes * 60 + c.seconds) as real;
    assert base * 1000.0 <= t * 1000.0 < (base + 1.0) * 1000.0;
  }

  /** The colours the level bar can take. */
  datatype BarColor = ErrorColor | WarningColor | SuccessColor

  /** The level bar's colour: error at or below 10% while not charging, warning
      at or below 20% while not charging, success otherwise. */
  function LevelBarColor(level: real, charging: bool): (c: BarColor)
    ensures c == ErrorColor <==> level <= 0.1 && !charging
    ensures c == WarningColor <==> 0.1 < level <= 0.2 && !charging
    ensures c == SuccessColor <==> charging || 0.2 < level
  {
    if level <= 0.1 && !charging then ErrorColor
    else if level <= 0.2 && !charging then WarningColor
    else SuccessColor
  }

  /** The status class of the battery card: "error" at or below 20% while not
      charging, "neutral" otherwise. */
  function StatusClass(level: real, charging: bool): (s: string)
    ensures s == "error" <==> level <= 0.2 && !charging
    ensures s == "neutral" <==> !(level <= 0.2 && !charging)
  {
    assert |"error"| != |"neutral"|;
    if level <= 0.2 && !charging then "error" else "neutral"
  }
}
