/**
 * The text of the dashboard's log lines: every line is the local time as
 * `time.strftime('%H:%M:%S')` writes it, in brackets, then a message that
 * starts with an emoji.
 */
module Messages {
  import opened Decimal

  /** Text `time.strftime('%H:%M:%S')` can produce: two digits, ':', two digits, ':', two digits. */
  predicate IsClock(t: string)
  {
    |t| == 8 && t[2] == ':' && t[5] == ':'
    && IsDigit(t[0]) && IsDigit(t[1]) && IsDigit(t[3]) && IsDigit(t[4]) && IsDigit(t[6]) && IsDigit(t[7])
  }

  /** `f"[{now}] {text}"`. */
  function LogLine(now: string, text: string): string
  {
    "[" + now + "] " + text
  }

  /** Two log lines stamped with equally long times are equal only when their times and messages are. */
  lemma LogLineInjective(t: string, a: string, u: string, b: string)
    requires |t| == |u| && LogLine(t, a) == LogLine(u, b)
    ensures t == u && a == b
  {
    var n := |t| + 3;
    assert LogLine(t, a)[1..n - 2] == t;
    assert LogLine(u, b)[1..n - 2] == u;
    assert LogLine(t, a)[n..] == a;
    assert LogLine(u, b)[n..] == b;
  }

  const TestTube := "\U{1F9EA}"
  const CrossMark := "\U{274C}"
  const CheckMark := "\U{2705}"
  const Gear := "\U{2699}\U{FE0F}"
  const StopButton := "\U{23F9}\U{FE0F}"
  const Target := "\U{1F3AF}"

  const BotStarted := CheckMark + " Bot started"
  const BotStopped := StopButton + " Bot stopped"
  const RiskUpdated := Gear + " Risk settings updated"
  const FiltersUpdated := Gear + " Filters updated"
  const TokensUpdated := CheckMark + " Tokens updated"
}
