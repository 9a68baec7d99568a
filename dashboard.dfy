/**
 * The dashboard's in-memory state and the handlers that change it
 * (dashboard.py), with the web layer taken off: each handler is a method that
 * takes the already-parsed request fields, and the random draws and clock
 * readings a handler makes are parameters.
 */
module Dashboard {
  import opened Wrappers
  import opened Decimal
  import opened TokenList
  import opened Buffers
  import opened Messages
  import opened RugCheck
  import opened Trading

  /** A value in the JSON config file, of the kinds the dashboard reads and writes. */
  datatype ConfigValue = Flag(flag: bool) | Number(number: int) | Text(text: string) | Names(names: seq<string>)

  type Config = map<string, ConfigValue>

  const DemoModeKey := "DEMO_MODE"
  const TakeProfitKey := "TAKE_PROFIT"
  const StopLossKey := "STOP_LOSS"
  const TokensKey := "TOKENS"

  /** `run_bot` trims the trade list and the log list back once they pass 50 entries. */
  const MaxTrades := 50
  const LogTrimLength := 50

  /** The config keys the dashboard reads hold values of the kinds it expects. */
  predicate WellTyped(c: Config)
  {
    && (DemoModeKey in c ==> c[DemoModeKey].Flag?)
    && (TakeProfitKey in c ==> c[TakeProfitKey].Number?)
    && (StopLossKey in c ==> c[StopLossKey].Number?)
    && (TokensKey in c ==> c[TokensKey].Names?)
  }

  /** `config.get(key, default)` for a flag. */
  function GetFlag(c: Config, key: string, default: bool): (b: bool)
    requires key in c ==> c[key].Flag?
    ensures key in c ==> c[key] == Flag(b)
    ensures key !in c ==> b == default
  {
    if key in c then c[key].flag else default
  }

  /** `config.get(key, default)` for a number. */
  function GetNumber(c: Config, key: string, default: int): (n: int)
    requires key in c ==> c[key].Number?
    ensures key in c ==> c[key] == Number(n)
    ensures key !in c ==> n == default
  {
    if key in c then c[key].number else default
  }

  /** `config.get(key, [])` for a list of names. */
  function GetNames(c: Config, key: string): (ns: seq<string>)
    requires key in c ==> c[key].Names?
    ensures key in c ==> c[key] == Names(ns)
    ensures key !in c ==> ns == []
  {
    if key in c then c[key].names else []
  }

  /**
   * Writing the demo flag, both risk settings and the token list into a
   * config and reading them back with the start-up defaults gives exactly
   * what was written, whatever the config held before.
   */
  lemma SavedSettingsReload(c: Config, demo: bool, risk: RiskSettings, tokens: seq<string>)
    requires WellTyped(c)
    ensures var saved := c[DemoModeKey := Flag(demo)][TakeProfitKey := Number(risk.takeProfit)]
                          [StopLossKey := Number(risk.stopLoss)][TokensKey := Names(tokens)];
      && WellTyped(saved)
      && GetFlag(saved, DemoModeKey, true) == demo
      && RiskSettings(GetNumber(saved, TakeProfitKey, 50), GetNumber(saved, StopLossKey, 20)) == risk
      && GetNames(saved, TokensKey) == tokens
  {
  }

  /** `bot_status` as the toggle endpoints return it. */
  datatype Status = Status(demo: bool, running: bool)

  datatype RiskSettings = RiskSettings(takeProfit: int, stopLoss: int)

  /** The random draws and the clock reading of one iteration of `run_bot`. */
  datatype Draw = Draw(pick: nat, side: Side, usd: TwoPlaces, pl: TwoPlaces, time: string)

  /**
   * The trade one iteration of `run_bot` records: it carries the drawn time,
   * side and amount, a token that is "DEMO" or a configured one, and a P/L
   * text that reads back as the drawn value.
   */
  function TradeFor(tokens: seq<string>, d: Draw): (t: Trade)
    ensures t.token == DemoToken || t.token in tokens
    ensures t.time == d.time && t.side == d.side && t.usd == d.usd
    ensures ParsePercent(t.pl) == Some(d.pl.Value())
  {
    MakeTrade(d.time, ChooseToken(tokens, d.pick), d.side, d.usd, d.pl)
  }

  /** The log line one iteration of `run_bot` writes. */
  function TradeLine(tokens: seq<string>, d: Draw): string
  {
    LogLine(d.time, TradeText(TradeFor(tokens, d)))
  }

  /** The trades of a run of iterations, in order. */
  function TradesFor(tokens: seq<string>, draws: seq<Draw>): (ts: seq<Trade>)
    ensures |ts| == |draws|
  {
    seq(|draws|, k requires 0 <= k < |draws| => TradeFor(tokens, draws[k]))
  }

  /** The log lines of a run of iterations, in order. */
  function TradeLinesFor(tokens: seq<string>, draws: seq<Draw>): (ls: seq<string>)
    ensures |ls| == |draws|
  {
    seq(|draws|, k requires 0 <= k < |draws| => TradeLine(tokens, draws[k]))
  }

  /** A run one draw longer appends that draw's trade after the trades so far. */
  lemma TradesForSnoc(tokens: seq<string>, draws: seq<Draw>, i: nat)
    requires i < |draws|
    ensures TradesFor(tokens, draws[..i + 1]) == TradesFor(tokens, draws[..i]) + TradesFor(tokens, [draws[i]])
  {
    var front, last := TradesFor(tokens, draws[..i]), TradesFor(tokens, [draws[i]]);
    var ts := TradesFor(tokens, draws[..i + 1]);
    forall k | 0 <= k < i + 1 ensures ts[k] == (front + last)[k] {
      if k < i {
        assert draws[..i + 1][k] == draws[..i][k];
      } else {
        assert draws[..i + 1][k] == draws[i];
      }
    }
  }

  /** A run one draw longer appends that draw's log line after the lines so far. */
  lemma TradeLinesForSnoc(tokens: seq<string>, draws: seq<Draw>, i: nat)
    requires i < |draws|
    ensures TradeLinesFor(tokens, draws[..i + 1]) == TradeLinesFor(tokens, draws[..i]) + TradeLinesFor(tokens, [draws[i]])
  {
    var front, last := TradeLinesFor(tokens, draws[..i]), TradeLinesFor(tokens, [draws[i]]);
    var ls := TradeLinesFor(tokens, draws[..i + 1]);
    forall k | 0 <= k < i + 1 ensures ls[k] == (front + last)[k] {
      if k < i {
        assert draws[..i + 1][k] == draws[..i][k];
      } else {
        assert draws[..i + 1][k] == draws[i];
      }
    }
  }

  /** One iteration's append and trim keeps the newest window of the lists with its trade and line added. */
  lemma OneIterationWindows(tokens: seq<string>, d: Draw, ts: seq<Trade>, ls: seq<string>)
    ensures AppendTrim(ts, TradeFor(tokens, d), MaxTrades) == Newest(ts + TradesFor(tokens, [d]), KeptLength(|ts|, 1, MaxTrades))
    ensures AppendTrim(ls, TradeLine(tokens, d), LogTrimLength) == Newest(ls + TradeLinesFor(tokens, [d]), KeptLength(|ls|, 1, LogTrimLength))
  {
    assert TradesFor(tokens, [d]) == [TradeFor(tokens, d)];
    assert TradeLinesFor(tokens, [d]) == [TradeLine(tokens, d)];
  }

  /** The demo entries the trade list starts with. */
  const DemoTrades: seq<Trade> := [
    Trade("17s ago", "BONKA", Buy, TwoPlaces(false, 12458), "+3.1%"),
    Trade("34s ago", "BONKA", Sell, TwoPlaces(false, 39754), "-2.5%")
  ]

  /** The demo entries the log list starts with. */
  const DemoLogs: seq<string> := [
    LogLine("10:20:05", BotStarted),
    LogLine("10:22:10", Target + " Sniper triggered"),
    LogLine("10:24:30", Gear + " Settings updated"),
    LogLine("10:25:50", CheckMark + " Trade executed")
  ]

  class Dashboard {
    /** `bot_status["demo"]` and `bot_status["running"]`. */
    var demo: bool
    var running: bool
    /** `risk_settings` and `filters`. */
    var risk: RiskSettings
    var filters: Filters
    /** `config` in memory, and what `save_config` last wrote to the config file. */
    var config: Config
    var persisted: Config
    /** The rolling `trades` and `logs` lists the front end polls. */
    var trades: seq<Trade>
    var logs: seq<string>

    /** The trade list stays within its cap; the config keys hold the kinds of values read from them. */
    ghost predicate Valid()
      reads this`trades, this`config
    {
      |trades| <= MaxTrades && WellTyped(config)
    }

    /** `config.get("TOKENS", [])`, the list `run_bot` picks from. */
    function Tokens(): seq<string>
      reads this`config
      requires WellTyped(config)
    {
      GetNames(config, TokensKey)
    }

    /** Module start-up: `config` is what was loaded from the config file. */
    constructor (loaded: Config)
      requires WellTyped(loaded)
      ensures Valid()
      ensures demo == GetFlag(loaded, DemoModeKey, true) && !running
      ensures risk == RiskSettings(GetNumber(loaded, TakeProfitKey, 50), GetNumber(loaded, StopLossKey, 20))
      ensures filters == Filters(0, 0)
      ensures config == loaded && persisted == loaded
      ensures trades == DemoTrades && logs == DemoLogs
    {
      demo := GetFlag(loaded, DemoModeKey, true);
      running := false;
      risk := RiskSettings(GetNumber(loaded, TakeProfitKey, 50), GetNumber(loaded, StopLossKey, 20));
      filters := Filters(0, 0);
      config := loaded;
      persisted := loaded;
      trades := DemoTrades;
      logs := DemoLogs;
    }

    /** `toggle_demo`: flips the demo flag, mirrors it into the config and saves the config. */
    method ToggleDemo() returns (s: Status)
      requires Valid()
      modifies this`demo, this`config, this`persisted
      ensures Valid()
      ensures demo == !old(demo)
      ensures config == old(config)[DemoModeKey := Flag(demo)]
      ensures persisted == config && GetFlag(persisted, DemoModeKey, true) == demo
      ensures s == Status(demo, running)
    {
      demo := !demo;
      config := config[DemoModeKey := Flag(demo)];
      persisted := config;
      s := Status(demo, running);
    }

    /**
     * `start_bot`: flips the running flag and logs "Bot started" when it is now
     * set and "Bot stopped" when it is now clear. The log is not trimmed.
     */
    method StartBot(now: string) returns (s: Status)
      requires Valid()
      modifies this`running, this`logs
      ensures Valid()
      ensures running == !old(running)
      ensures logs == old(logs) + [LogLine(now, if running then BotStarted else BotStopped)]
      ensures s == Status(demo, running)
    {
      running := !running;
      if running {
        logs := logs + [LogLine(now, BotStarted)];
      } else {
        logs := logs + [LogLine(now, BotStopped)];
      }
      s := Status(demo, running);
    }

    /**
     * `save_risk`: each setting takes the request's value when it has one and
     * keeps its old value otherwise; both are copied into the config, which is saved.
     */
    method SaveRisk(takeProfit: Option<int>, stopLoss: Option<int>, now: string) returns (message: string, r: RiskSettings)
      requires Valid()
      modifies this`risk, this`config, this`persisted, this`logs
      ensures Valid()
      ensures risk == RiskSettings(takeProfit.GetOr(old(risk).takeProfit), stopLoss.GetOr(old(risk).stopLoss))
      ensures config == old(config)[TakeProfitKey := Number(risk.takeProfit)][StopLossKey := Number(risk.stopLoss)]
      ensures persisted == config
      ensures GetNumber(persisted, TakeProfitKey, 50) == risk.takeProfit && GetNumber(persisted, StopLossKey, 20) == risk.stopLoss
      ensures logs == old(logs) + [LogLine(now, RiskUpdated)]
      ensures message == "Risk settings saved!" && r == risk
    {
      risk := risk.(takeProfit := takeProfit.GetOr(risk.takeProfit));
      risk := risk.(stopLoss := stopLoss.GetOr(risk.stopLoss));
      config := config[TakeProfitKey := Number(risk.takeProfit)];
      config := config[StopLossKey := Number(risk.stopLoss)];
      persisted := config;
      logs := logs + [LogLine(now, RiskUpdated)];
      message, r := "Risk settings saved!", risk;
    }

    /**
     * `save_filters`: each filter takes the request's value when it has one and
     * keeps its old value otherwise. Unlike `save_risk`, it neither touches
     * nor saves the config.
     */
    method SaveFilters(marketcap: Option<int>, liquidity: Option<int>, now: string) returns (message: string, f: Filters)
      requires Valid()
      modifies this`filters, this`logs
      ensures Valid()
      ensures filters == Filters(marketcap.GetOr(old(filters).marketcap), liquidity.GetOr(old(filters).liquidity))
      ensures config == old(config) && persisted == old(persisted)
      ensures logs == old(logs) + [LogLine(now, FiltersUpdated)]
      ensures message == "Filters saved!" && f == filters
    {
      filters := filters.(marketcap := marketcap.GetOr(filters.marketcap));
      filters := filters.(liquidity := liquidity.GetOr(filters.liquidity));
      logs := logs + [LogLine(now, FiltersUpdated)];
      message, f := "Filters saved!", filters;
    }

    /**
     * `update_tokens`: replaces the configured token list with the parsed form
     * field (an absent field reads as ""), and saves the config.
     */
    method UpdateTokens(tokenAddresses: Option<string>, now: string)
      requires Valid()
      modifies this`config, this`persisted, this`logs
      ensures Valid()
      ensures config == old(config)[TokensKey := Names(ParseTokens(tokenAddresses.GetOr("")))]
      ensures persisted == config && GetNames(persisted, TokensKey) == Tokens()
      ensures forall j :: 0 <= j < |Tokens()| ==> Trimmed(Tokens()[j]) && ',' !in Tokens()[j]
      ensures logs == old(logs) + [LogLine(now, TokensUpdated)]
    {
      var tokenList := ParseTokens(tokenAddresses.GetOr(""));
      config := config[TokensKey := Names(tokenList)];
      persisted := config;
      logs := logs + [LogLine(now, TokensUpdated)];
    }

    /**
     * `passes_rug_check` with its draws as inputs: logs the checking line,
     * then stops at the first failed check and logs it, or logs the pass.
     * Only the log changes.
     */
    method PassesRugCheck(token: string, mc: int, liq: int, flagged: bool, checkTime: string, outcomeTime: string)
      returns (ok: bool)
      requires Valid()
      modifies this`logs
      ensures Valid()
      ensures ok <==> Decide(mc, liq, flagged, filters) == Passed
      ensures logs == old(logs) + RugCheckLog(token, mc, liq, Decide(mc, liq, flagged, filters), checkTime, outcomeTime)
    {
      logs := logs + [LogLine(checkTime, CheckingText(token, mc, liq))];
      if mc < filters.marketcap {
        logs := logs + [LogLine(outcomeTime, MarketCapFail)];
        return false;
      }
      if liq < filters.liquidity {
        logs := logs + [LogLine(outcomeTime, LiquidityFail)];
        return false;
      }
      if flagged {
        logs := logs + [LogLine(outcomeTime, RandomFlagFail)];
        return false;
      }
      logs := logs + [LogLine(outcomeTime, OutcomeText(Passed, token))];
      ok := true;
    }

    /**
     * One iteration of `run_bot`'s loop: records one trade and one log line,
     * trimming each list once when it has passed 50 entries.
     */
    method RunBotStep(d: Draw)
      requires Valid() && running
      modifies this`trades, this`logs
      ensures Valid()
      ensures trades == Newest(old(trades) + TradesFor(Tokens(), [d]), KeptLength(|old(trades)|, 1, MaxTrades))
      ensures logs == Newest(old(logs) + TradeLinesFor(Tokens(), [d]), KeptLength(|old(logs)|, 1, LogTrimLength))
    {
      ghost var oldTrades, oldLogs := trades, logs;
      var tokens := Tokens();
      var token := ChooseToken(tokens, d.pick);
      var entry := MakeTrade(d.time, token, d.side, d.usd, d.pl);
      trades := trades + [entry];
      if |trades| > MaxTrades {
        trades := trades[1..];
      }
      logs := logs + [LogLine(d.time, TradeText(entry))];
      if |logs| > LogTrimLength {
        logs := logs[1..];
      }
      assert trades == AppendTrim(oldTrades, TradeFor(tokens, d), MaxTrades);
      assert logs == AppendTrim(oldLogs, TradeLine(tokens, d), LogTrimLength);
      OneIterationWindows(tokens, d, oldTrades, oldLogs);
    }

    /**
     * The `i`-th pass of `run_bot`'s loop over `draws`, seen along the run:
     * when the lists hold the windows after `i` draws, they afterwards hold
     * the windows after `i + 1`.
     */
    method RunBotPass(ghost startTrades: seq<Trade>, ghost startLogs: seq<string>, draws: seq<Draw>, i: nat)
      requires Valid() && running && i < |draws|
      requires trades == Newest(startTrades + TradesFor(Tokens(), draws[..i]), KeptLength(|startTrades|, i, MaxTrades))
      requires logs == Newest(startLogs + TradeLinesFor(Tokens(), draws[..i]), KeptLength(|startLogs|, i, LogTrimLength))
      modifies this`trades, this`logs
      ensures Valid()
      ensures trades == Newest(startTrades + TradesFor(Tokens(), draws[..i + 1]), KeptLength(|startTrades|, i + 1, MaxTrades))
      ensures logs == Newest(startLogs + TradeLinesFor(Tokens(), draws[..i + 1]), KeptLength(|startLogs|, i + 1, LogTrimLength))
    {
      ghost var prevTrades, prevLogs := trades, logs;
      RunBotStep(draws[i]);
      TradesForSnoc(Tokens(), draws, i);
      TradeLinesForSnoc(Tokens(), draws, i);
      WindowAdvance(startTrades, TradesFor(Tokens(), draws[..i]), TradesFor(Tokens(), [draws[i]]), prevTrades, trades, MaxTrades);
      WindowAdvance(startLogs, TradeLinesFor(Tokens(), draws[..i]), TradeLinesFor(Tokens(), [draws[i]]), prevLogs, logs, LogTrimLength);
    }

    /**
     * `run_bot` for as many iterations as `draws` has entries, while the
     * running flag stays set: the trade list ends as the last 50 of the old
     * trades followed by the new ones, in order; the log list keeps the
     * newest `KeptLength` lines of the old lines followed by the new ones.
     */
    method RunBot(draws: seq<Draw>)
      requires Valid() && running
      modifies this`trades, this`logs
      ensures Valid()
      ensures trades == Last(old(trades) + TradesFor(Tokens(), draws), MaxTrades)
      ensures logs == Newest(old(logs) + TradeLinesFor(Tokens(), draws), KeptLength(|old(logs)|, |draws|, LogTrimLength))
    {
      var i := 0;
      while i < |draws|
        invariant 0 <= i <= |draws|
        invariant Valid() && running && config == old(config)
        invariant trades == Newest(old(trades) + TradesFor(Tokens(), draws[..i]), KeptLength(|old(trades)|, i, MaxTrades))
        invariant logs == Newest(old(logs) + TradeLinesFor(Tokens(), draws[..i]), KeptLength(|old(logs)|, i, LogTrimLength))
      {
        RunBotPass(old(trades), old(logs), draws, i);
        i := i + 1;
      }
      assert draws[..i] == draws;
      NewestWithinCap(old(trades) + TradesFor(Tokens(), draws), |old(trades)|, |draws|, MaxTrades);
    }
  }

  /** Toggling demo mode twice restores the flag; the config mirrors it after each toggle. */
  method ToggleDemoTwice(d: Dashboard)
    requires d.Valid()
    modifies d
    ensures d.Valid()
    ensures d.demo == old(d.demo) && DemoModeKey in d.config && d.config[DemoModeKey] == Flag(d.demo)
  {
    var s1 := d.ToggleDemo();
    assert d.config[DemoModeKey] == Flag(!old(d.demo));
    var s2 := d.ToggleDemo();
  }

  /** Saving both risk settings and reading them back gives exactly what was saved. */
  method SaveRiskThenRead(d: Dashboard, now: string)
    requires d.Valid()
    modifies d
    ensures d.risk == RiskSettings(10, 5)
    ensures TakeProfitKey in d.persisted && d.persisted[TakeProfitKey] == Number(10)
    ensures StopLossKey in d.persisted && d.persisted[StopLossKey] == Number(5)
  {
    var message, r := d.SaveRisk(Some(10), Some(5), now);
  }

  /**
   * What the handlers save survives a restart: after toggling demo mode,
   * saving the risk settings and updating the tokens, a dashboard started
   * from the saved config has the same demo flag, risk settings and token
   * list. The filters, which are never saved, come back as 0 and 0, and the
   * bot comes back stopped.
   */
  method RestartAfterSaving(d: Dashboard, takeProfit: Option<int>, stopLoss: Option<int>, tokenAddresses: Option<string>, now: string)
    returns (e: Dashboard)
    requires d.Valid()
    modifies d
    ensures d.Valid() && e.Valid()
    ensures e.demo == d.demo && e.risk == d.risk && e.Tokens() == d.Tokens()
    ensures e.filters == Filters(0, 0) && !e.running
  {
    ghost var loaded := d.config;
    var s := d.ToggleDemo();
    var message, r := d.SaveRisk(takeProfit, stopLoss, now);
    d.UpdateTokens(tokenAddresses, now);
    SavedSettingsReload(loaded, d.demo, d.risk, d.Tokens());
    e := new Dashboard(d.persisted);
  }

  /**
   * The single `pop(0)` does not bound the log: with 50 lines, starting the
   * bot adds one untrimmed line, and the next trade's append and trim leave 51.
   */
  method LogsOutgrowTrim(d: Dashboard, now: string, draw: Draw)
    requires d.Valid() && !d.running && |d.logs| == LogTrimLength
    modifies d
    ensures d.running && |d.logs| == LogTrimLength + 1
  {
    var s := d.StartBot(now);
    d.RunBotStep(draw);
  }
}
