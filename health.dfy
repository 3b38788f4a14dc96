/**
 * The health-check endpoint of the deployment: the bot's uptime, split into
 * hours, minutes and seconds and printed as "<h>h <m>m <s>s", together with
 * the raw number of seconds, the runtime environment and a timestamp.
 *
 * Clock readings (`time.time()`) are parameters of type `real`; the
 * environment variable lookup is an `Option<string>` parameter.
 */
module Health {
  import opened Wrappers
  import opened PyStr

  /** Python's `int(x)` on a float: truncation toward zero. */
  function TruncToInt(x: real): (n: int)
    ensures x >= 0.0 ==> n >= 0 && n as real <= x < n as real + 1.0
    ensures x < 0.0 ==> n <= 0 && n as real - 1.0 < x <= n as real
  {
    if x >= 0.0 then x.Floor else -((-x).Floor)
  }

  /** Hours, minutes and seconds of an uptime, as the handler computes them with `//` and `%`. */
  datatype Clock = Clock(hours: int, minutes: int, seconds: int)

  function SplitUptime(u: int): (c: Clock)
    ensures c.hours * 3600 + c.minutes * 60 + c.seconds == u
    ensures 0 <= c.minutes < 60 && 0 <= c.seconds < 60
    ensures u >= 0 ==> c.hours >= 0
  {
    // Python's `//` and `%` with a positive divisor agree with Dafny's.
    Clock(u / 3600, (u % 3600) / 60, u % 60)
  }

  /** A number followed by its unit letter, as in "12h". */
  function UnitText(n: int, unit: char): string {
    IntToString(n) + [unit]
  }

  /** A clock reading printed as "<h>h <m>m <s>s". */
  function ClockText(c: Clock): string {
    UnitText(c.hours, 'h') + [' '] + UnitText(c.minutes, 'm') + [' '] + UnitText(c.seconds, 's')
  }

  /** The "uptime" field. */
  function UptimeText(u: int): string {
    ClockText(SplitUptime(u))
  }

  /** The reply of the /health route. */
  datatype HealthData = HealthData(
    status: string,
    uptime: string,
    uptimeSeconds: int,
    runtimeEnvironment: string,
    timestamp: int)

  /**
   * The /health handler, given the start time, the two clock readings it
   * takes (`now` for the uptime, `stampTime` for the timestamp, read a
   * moment later) and the value of RUNTIME_ENVIRONMENT (None when the
   * variable is unset).
   */
  function HealthHandler(startTime: real, now: real, stampTime: real, env: Option<string>): (d: HealthData)
    ensures d.status == "healthy"
    ensures d.uptimeSeconds == TruncToInt(now - startTime)
    ensures startTime <= now ==> d.uptimeSeconds as real <= now - startTime < d.uptimeSeconds as real + 1.0
    ensures ParseUptime(d.uptime) == Some(d.uptimeSeconds)
    ensures env.None? ==> d.runtimeEnvironment == "PROD"
    ensures env.Some? ==> d.runtimeEnvironment == env.value
    ensures d.timestamp == TruncToInt(stampTime)
  {
    var u := TruncToInt(now - startTime);
    UptimeRoundTrip(u);
    HealthData("healthy", UptimeText(u), u, env.GetOr("PROD"), TruncToInt(stampTime))
  }

  /** The reply of the / route: fixed information about the bot. */
  datatype RootData = RootData(bot: string, status: string, version: string, deployment: string)

  const RootInfo: RootData := RootData("AiogramShopBot", "running", "1.0.0", "Railway")

  // ---------------------------------------------------------------------
  // Reading the uptime text back
  // ---------------------------------------------------------------------

  /** The number in "<n><unit>", or None when the part does not have that shape. */
  function ParseUnit(part: string, unit: char): Option<int> {
    if |part| >= 1 && part[|part| - 1] == unit then ParseIntLiteral(part[..|part| - 1]) else None
  }

  /** Reads "<h>h <m>m <s>s" back into a number of seconds. */
  function ParseUptime(t: string): Option<int> {
    ParseClock(Split(t, ' '))
  }

  /** The seconds denoted by the parts "<h>h", "<m>m", "<s>s". */
  function ParseClock(parts: seq<string>): Option<int> {
    if |parts| != 3 then None
    else
      var h := ParseUnit(parts[0], 'h');
      var m := ParseUnit(parts[1], 'm');
      var s := ParseUnit(parts[2], 's');
      if h.Some? && m.Some? && s.Some? then Some(h.value * 3600 + m.value * 60 + s.value) else None
  }

  /** A printed integer followed by a unit letter contains no space. */
  lemma UnitTextNoSpace(i: int, unit: char)
    requires unit != ' '
    ensures forall k :: 0 <= k < |UnitText(i, unit)| ==> UnitText(i, unit)[k] != ' '
  {
    var s := IntToString(i);
    var d := if i < 0 then NatToString(-i) else NatToString(i);
    forall k | 0 <= k < |s|
      ensures s[k] != ' '
    {
      if i < 0 && k >= 1 {
        assert s[k] == d[k - 1];
      }
    }
  }

  lemma ParseUnitOf(i: int, unit: char)
    ensures ParseUnit(UnitText(i, unit), unit) == Some(i)
  {
    var p := UnitText(i, unit);
    assert p[..|p| - 1] == IntToString(i);
    ParseIntLiteralToString(i);
  }

  lemma ParseClockOf(parts: seq<string>, h: int, m: int, sec: int)
    requires |parts| == 3
    requires ParseUnit(parts[0], 'h') == Some(h)
    requires ParseUnit(parts[1], 'm') == Some(m)
    requires ParseUnit(parts[2], 's') == Some(sec)
    ensures ParseClock(parts) == Some(h * 3600 + m * 60 + sec)
  {
  }

  /** The uptime text determines the uptime: reading it back gives the seconds it was made from. */
  lemma UptimeRoundTrip(u: int)
    ensures ParseUptime(UptimeText(u)) == Some(u)
  {
    var c := SplitUptime(u);
    var h, m, sec := c.hours, c.minutes, c.seconds;
    assert h * 3600 + m * 60 + sec == u;
    assert UptimeText(u) == ClockText(Clock(h, m, sec));
    ClockTextRoundTrip(h, m, sec);
  }

  /** "<h>h <m>m <s>s" reads back as h hours, m minutes and s seconds. */
  lemma ClockTextRoundTrip(h: int, m: int, sec: int)
    ensures ParseUptime(ClockText(Clock(h, m, sec))) == Some(h * 3600 + m * 60 + sec)
  {
    var a, b, z := UnitText(h, 'h'), UnitText(m, 'm'), UnitText(sec, 's');
    UnitTextNoSpace(h, 'h');
    UnitTextNoSpace(m, 'm');
    UnitTextNoSpace(sec, 's');
    SplitThree(a, b, z, ' ');
    ParseUnitOf(h, 'h');
    ParseUnitOf(m, 'm');
    ParseUnitOf(sec, 's');
    ParseClockOf([a, b, z], h, m, sec);
  }

  /** A later reading never reports a smaller uptime. */
  lemma UptimeMonotone(startTime: real, now1: real, now2: real, stamp1: real, stamp2: real, env: Option<string>)
    requires startTime <= now1 <= now2
    ensures HealthHandler(startTime, now1, stamp1, env).uptimeSeconds <= HealthHandler(startTime, now2, stamp2, env).uptimeSeconds
  {
  }
}
