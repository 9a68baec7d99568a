/**
 * The demo rug check `passes_rug_check` (dashboard.py lines 105-131) with its
 * random draws as inputs: a market cap, a liquidity and whether the 5% random
 * flag was raised. The decision and the log lines it writes are functions
 * here; the method that appends the lines is `Dashboard.Dashboard.PassesRugCheck`.
 */
module RugCheck {
  import opened Wrappers
  import opened Decimal
  import opened Messages

  /** The two thresholds the `/save_filters` endpoint sets. */
  datatype Filters = Filters(marketcap: int, liquidity: int)

  /** Which of the gate's exits was taken. */
  datatype Verdict = Passed | MarketCapTooLow | LiquidityTooLow | RandomFlag

  /**
   * The gate, short-circuiting in the source's order: market cap first, then
   * liquidity, then the random flag. It passes exactly when all three hold.
   */
  function Decide(mc: int, liq: int, flagged: bool, f: Filters): (v: Verdict)
    ensures v == Passed <==> mc >= f.marketcap && liq >= f.liquidity && !flagged
    ensures v == MarketCapTooLow <==> mc < f.marketcap
    ensures v == LiquidityTooLow <==> mc >= f.marketcap && liq < f.liquidity
    ensures v == RandomFlag <==> mc >= f.marketcap && liq >= f.liquidity && flagged
  {
    if mc < f.marketcap then MarketCapTooLow
    else if liq < f.liquidity then LiquidityTooLow
    else if flagged then RandomFlag
    else Passed
  }

  /** What the checking line says before the market cap. */
  function CheckingHead(token: string): string
  {
    TestTube + " Rug-check " + token + ": mc="
  }

  /** The line logged before any check: the token and both sampled values. */
  function CheckingText(token: string, mc: int, liq: int): string
  {
    CheckingHead(token) + IntText(mc) + ", liq=" + IntText(liq)
  }

  /** The position of the first `c` in `s`, or `|s|` when there is none. */
  function FirstIndex(s: string, c: char): (k: nat)
    ensures k <= |s|
    ensures forall j :: 0 <= j < k ==> s[j] != c
    ensures k < |s| ==> s[k] == c
  {
    if |s| == 0 then 0 else if s[0] == c then 0 else 1 + FirstIndex(s[1..], c)
  }

  /** The first `c` in `a + b` is the first of `b`'s when `a` has none and `b` starts with one. */
  lemma FirstIndexAfter(a: string, b: string, c: char)
    requires c !in a && |b| >= 1 && b[0] == c
    ensures FirstIndex(a + b, c) == |a|
  {
    assert (a + b)[|a|] == c;
  }

  /**
   * The market cap and liquidity read back from a checking line for `token`:
   * the digits up to the first comma, then those after ", liq=".
   */
  function ParseChecking(token: string, line: string): (r: Option<(int, int)>)
  {
    var head := CheckingHead(token);
    if |line| < |head| || line[..|head|] != head then None
    else
      var rest := line[|head|..];
      var k := FirstIndex(rest, ',');
      if k + 6 <= |rest| && rest[k..k + 6] == ", liq=" && ParseInt(rest[..k]).Some? && ParseInt(rest[k + 6..]).Some? then
        Some((ParseInt(rest[..k]).value, ParseInt(rest[k + 6..]).value))
      else None
  }

  /** A checking line is read as the text up to its first comma and the text after ", liq=". */
  lemma ParseCheckingParts(token: string, a: string, b: string)
    requires ',' !in a
    ensures ParseChecking(token, CheckingHead(token) + a + ", liq=" + b) ==
      if ParseInt(a).Some? && ParseInt(b).Some? then Some((ParseInt(a).value, ParseInt(b).value)) else None
  {
    var head, tail := CheckingHead(token), ", liq=" + b;
    var rest := a + tail;
    var line := CheckingHead(token) + a + ", liq=" + b;
    assert line == head + rest;
    assert line[..|head|] == head && line[|head|..] == rest;
    FirstIndexAfter(a, tail, ',');
    assert rest[..|a|] == a && rest[|a|..|a| + 6] == ", liq=" && rest[|a| + 6..] == b;
  }

  /** The checking line records both sampled values: they read back from it. */
  lemma CheckingTextRoundTrip(token: string, mc: int, liq: int)
    ensures ParseChecking(token, CheckingText(token, mc, liq)) == Some((mc, liq))
  {
    ParseCheckingParts(token, IntText(mc), IntText(liq));
    IntTextRoundTrip(mc);
    IntTextRoundTrip(liq);
  }

  /** Different sampled values give different checking lines. */
  lemma CheckingTextInjective(token: string, mc: int, liq: int, mc2: int, liq2: int)
    requires CheckingText(token, mc, liq) == CheckingText(token, mc2, liq2)
    ensures mc == mc2 && liq == liq2
  {
    CheckingTextRoundTrip(token, mc, liq);
    CheckingTextRoundTrip(token, mc2, liq2);
  }

  const MarketCapFail := CrossMark + " Rug-check fail: marketcap too low"
  const LiquidityFail := CrossMark + " Rug-check fail: liquidity too low"
  const RandomFlagFail := CrossMark + " Rug-check fail: random flag"

  /** The one line that reports the verdict. */
  function OutcomeText(v: Verdict, token: string): string
  {
    match v
    case MarketCapTooLow => MarketCapFail
    case LiquidityTooLow => LiquidityFail
    case RandomFlag => RandomFlagFail
    case Passed => CheckMark + " Rug-check passed for " + token
  }

  /** What one call appends to the log: the checking line, then the verdict line. */
  function RugCheckLog(token: string, mc: int, liq: int, v: Verdict, checkTime: string, outcomeTime: string): (log: seq<string>)
  {
    [LogLine(checkTime, CheckingText(token, mc, liq)), LogLine(outcomeTime, OutcomeText(v, token))]
  }

  /** Different verdicts are reported by different lines, whatever the token. */
  lemma OutcomeTextInjective(v: Verdict, w: Verdict, token: string)
    requires OutcomeText(v, token) == OutcomeText(w, token)
    ensures v == w
  {
    var a, b := OutcomeText(v, token), OutcomeText(w, token);
    assert a[0] == b[0];
    if v != Passed && w != Passed {
      var n := |a|;
      assert |MarketCapFail| == |LiquidityFail| == |RandomFlagFail| + 6;
      assert a[n - 1] == b[n - 1] && a[n - 9] == b[n - 9];
    }
  }

  /** No verdict line is ever mistaken for the checking line. */
  lemma OutcomeIsNotChecking(v: Verdict, token: string, mc: int, liq: int)
    ensures OutcomeText(v, token) != CheckingText(token, mc, liq)
  {
    assert OutcomeText(v, token)[0] != CheckingText(token, mc, liq)[0];
  }

  /** A verdict line found in the log is the one written, at the outcome time. */
  lemma OutcomeLineFound(token: string, mc: int, liq: int, v: Verdict, w: Verdict, checkTime: string, outcomeTime: string, t: string)
    requires IsClock(checkTime) && IsClock(outcomeTime) && IsClock(t)
    requires LogLine(t, OutcomeText(w, token)) in RugCheckLog(token, mc, liq, v, checkTime, outcomeTime)
    ensures w == v && t == outcomeTime
  {
    var log := RugCheckLog(token, mc, liq, v, checkTime, outcomeTime);
    var line := LogLine(t, OutcomeText(w, token));
    if line == log[0] {
      LogLineInjective(t, OutcomeText(w, token), checkTime, CheckingText(token, mc, liq));
      OutcomeIsNotChecking(w, token, mc, liq);
    } else {
      assert line == log[1];
      LogLineInjective(t, OutcomeText(w, token), outcomeTime, OutcomeText(v, token));
      OutcomeTextInjective(w, v, token);
    }
  }

  /**
   * The gate writes two lines, the checking line first; the verdict line is
   * the only outcome line in the log, so a market-cap failure never logs a
   * liquidity or random-flag line (at any well-formed time), and a liquidity
   * failure never logs a random-flag line.
   */
  lemma RugCheckLogShortCircuits(token: string, mc: int, liq: int, flagged: bool, f: Filters, checkTime: string, outcomeTime: string, t: string)
    requires IsClock(checkTime) && IsClock(outcomeTime) && IsClock(t)
    ensures var v := Decide(mc, liq, flagged, f);
      var log := RugCheckLog(token, mc, liq, v, checkTime, outcomeTime);
      && |log| == 2
      && log[0] == LogLine(checkTime, CheckingText(token, mc, liq))
      && (forall w :: LogLine(t, OutcomeText(w, token)) in log <==> w == v && t == outcomeTime)
  {
    var v := Decide(mc, liq, flagged, f);
    var log := RugCheckLog(token, mc, liq, v, checkTime, outcomeTime);
    forall w | LogLine(t, OutcomeText(w, token)) in log
      ensures w == v && t == outcomeTime
    {
      OutcomeLineFound(token, mc, liq, v, w, checkTime, outcomeTime, t);
    }
  }
}
