/**
 * One demo trade of `run_bot` (dashboard.py lines 146-179) with its random
 * draws as inputs: the token it picks, the trade record, the P/L text and the
 * log line that reports the trade.
 */
module Trading {
  import opened Wrappers
  import opened Decimal
  import opened Messages

  datatype Side = Buy | Sell

  function SideText(s: Side): string
  {
    match s
    case Buy => "Buy"
    case Sell => "Sell"
  }

  /** One entry of the trade list: time, token, side, USD amount and the P/L text. */
  datatype Trade = Trade(time: string, token: string, side: Side, usd: TwoPlaces, pl: string)

  /** The token used when no token list is configured. */
  const DemoToken := "DEMO"

  /**
   * `random.choice(token_list) if token_list else "DEMO"`, with the random
   * choice given as a drawn number `pick` taken modulo the list length: a
   * configured token, or "DEMO" when there are none; every token can be drawn.
   */
  function ChooseToken(tokens: seq<string>, pick: nat): (token: string)
    ensures tokens == [] ==> token == DemoToken
    ensures tokens != [] ==> token in tokens
    ensures pick < |tokens| ==> token == tokens[pick]
  {
    if tokens == [] then DemoToken else tokens[pick % |tokens|]
  }

  /**
   * The P/L text exactly as line 159 writes it: a '+' when `pl_value >= 0`,
   * then `str(pl_value)`, then '%'. For the float `-0.0` the test is true and
   * `str` writes a '-', so two signs appear (see `NegativeZeroHasTwoSigns`).
   */
  function PlTextAsWritten(x: TwoPlaces): (r: string)
    ensures |r| >= 4 && r[|r| - 1] == '%'
    ensures r[0] == '+' <==> x.Value() >= 0
    ensures r[0] == '-' <==> x.Value() < 0
    ensures x.IsNegativeZero() ==> r[0] == '+' && r[1] == '-'
  {
    (if x.Value() >= 0 then "+" else "") + FloatText(x) + "%"
  }

  /** The P/L text as intended: one sign, '+' for non-negative values and '-' for negative ones. */
  function PlText(x: TwoPlaces): (r: string)
    ensures |r| >= 2 && r[|r| - 1] == '%'
    ensures r[0] == '+' <==> x.Value() >= 0
    ensures r[0] == '-' <==> x.Value() < 0
  {
    (if x.Value() >= 0 then "+" else "-") + MagnitudeText(x.hundredths) + "%"
  }

  /** Reads a signed percentage in hundredths back from its text, or `None` if it is not one. */
  function ParsePercent(s: string): (r: Option<int>)
  {
    if |s| >= 2 && (s[0] == '+' || s[0] == '-') && s[|s| - 1] == '%' then
      match ParseMagnitude(s[1..|s| - 1])
      case Some(m) => Some(if s[0] == '-' then -(m as int) else m)
      case None => None
    else None
  }

  /** The intended text gives back the P/L value it was made from. */
  lemma PlTextRoundTrip(x: TwoPlaces)
    ensures ParsePercent(PlText(x)) == Some(x.Value())
  {
    var r := PlText(x);
    assert r[1..|r| - 1] == MagnitudeText(x.hundredths);
    MagnitudeTextRoundTrip(x.hundredths);
  }

  /** Apart from `-0.0`, the source's text and the intended text agree. */
  lemma PlTextMatchesSource(x: TwoPlaces)
    requires !x.IsNegativeZero()
    ensures PlTextAsWritten(x) == PlText(x)
  {
    if x.negative {
      assert "" + ("-" + MagnitudeText(x.hundredths)) + "%" == "-" + MagnitudeText(x.hundredths) + "%";
    }
  }

  /**
   * `round(uniform(-5, 5), 2)` is `-0.0` for any draw in (-0.005, 0); the
   * source then writes "+-0.0%", which is not a signed percentage.
   */
  lemma NegativeZeroHasTwoSigns()
    ensures PlTextAsWritten(TwoPlaces(true, 0)) == "+-0.0%"
    ensures ParsePercent(PlTextAsWritten(TwoPlaces(true, 0))) == None
    ensures PlText(TwoPlaces(true, 0)) == "+0.0%"
  {
    assert MagnitudeText(0) == "0.0";
    var m := "-0.0";
    assert m[..2][0] == '-' && !AllDigits(m[..2]);
    assert m[1] != '.';
    assert ParseMagnitude(m) == None;
    var w := PlTextAsWritten(TwoPlaces(true, 0));
    assert w == "+-0.0%";
    assert w[1..|w| - 1] == m;
  }

  /**
   * The log line of a demo trade: `✅ Demo trade: {action} {token} for ${usd} ({pl})`.
   * The P/L text closes the line, in parentheses.
   */
  function TradeText(t: Trade): (r: string)
    ensures |r| >= |t.pl| + 2 && r[..|CheckMark|] == CheckMark
    ensures r[|r| - |t.pl| - 2..] == "(" + t.pl + ")"
  {
    CheckMark + " Demo trade: " + SideText(t.side) + " " + t.token + " for $" + FloatText(t.usd) + " (" + t.pl + ")"
  }

  /**
   * The record `run_bot` builds from its draws: it carries the drawn time,
   * token, side and amount, and a P/L text that reads back as the drawn value.
   */
  function MakeTrade(time: string, token: string, side: Side, usd: TwoPlaces, pl: TwoPlaces): (t: Trade)
    ensures t.time == time && t.token == token && t.side == side && t.usd == usd
    ensures ParsePercent(t.pl) == Some(pl.Value())
  {
    PlTextRoundTrip(pl);
    Trade(time, token, side, usd, PlText(pl))
  }

  /**
   * Two strings that each end in `c` followed by a tail without `c` are
   * equal only when their heads and their tails are: the tail is what follows
   * the last `c`.
   */
  lemma SplitAtLast(a: string, f: string, b: string, g: string, c: char)
    requires a + [c] + f == b + [c] + g && c !in f && c !in g
    ensures a == b && f == g
  {
    var x := a + [c] + f;
    assert x[|x| - |f| - 1] == c;
    assert x[|x| - |g| - 1] == c;
    assert |f| == |g|;
    assert f == x[|x| - |f|..];
    assert a == x[..|a|];
  }

  /** Everything in a trade message before the '$' of the amount. */
  function TradeHead(t: Trade): string
  {
    CheckMark + " Demo trade: " + SideText(t.side) + " " + t.token + " for "
  }

  /** A trade message is its head, the '$', the amount, then the P/L text in parentheses. */
  lemma TradeTextParts(t: Trade)
    ensures TradeText(t) == (TradeHead(t) + ['$'] + FloatText(t.usd)) + (" (" + t.pl + ")")
  {
  }

  /** Equal strings with the same tail have the same head. */
  lemma SameTailHeads(x: string, y: string, tail: string)
    requires x + tail == y + tail
    ensures x == y
  {
    assert x == (x + tail)[..|x|];
    assert y == (y + tail)[..|y|];
  }

  /** The text before the amount names the side and the token. */
  lemma TradeHeadInjective(t: Trade, u: Trade)
    requires TradeHead(t) == TradeHead(u)
    ensures t.side == u.side && t.token == u.token
  {
    var p, a := CheckMark + " Demo trade: ", TradeHead(t);
    assert a[|p|] == SideText(t.side)[0];
    assert TradeHead(u)[|p|] == SideText(u.side)[0];
    var n := |p| + |SideText(t.side)| + 1;
    assert t.token == a[n..|a| - 5];
    assert u.token == TradeHead(u)[n..|a| - 5];
  }

  /**
   * The trade log message records the trade: for the same P/L text, equal
   * messages have the same side, token and amount, whatever the token holds.
   */
  lemma TradeTextInjective(t: Trade, u: Trade)
    requires t.pl == u.pl && TradeText(t) == TradeText(u)
    ensures t.side == u.side && t.token == u.token && t.usd == u.usd
  {
    TradeTextParts(t);
    TradeTextParts(u);
    SameTailHeads(TradeHead(t) + ['$'] + FloatText(t.usd), TradeHead(u) + ['$'] + FloatText(u.usd), " (" + t.pl + ")");
    SplitAtLast(TradeHead(t), FloatText(t.usd), TradeHead(u), FloatText(u.usd), '$');
    FloatTextInjective(t.usd, u.usd);
    TradeHeadInjective(t, u);
  }
}
