# Demo trading dashboard: state, rug-check gate and bot iteration in Dafny

This project models the sequential core of `dashboard.py`, the Flask server
behind a demo trading dashboard. The dashboard keeps in-memory state:

- `bot_status` (demo and running flags), `risk_settings`, `filters` and `config`;
- two rolling lists, `trades` and `logs`, that the front end polls.

Request handlers change this state, and a background loop (`run_bot`) invents
one trade per iteration. All market data is random. Here the random draws and
the clock readings are parameters, so every operation is deterministic.

Modules, one per component:

- `Wrappers`: `Option`, used for absent request fields and for parsers that can fail.
- `Decimal`: Python's `str()` of an `int` and of a float rounded to two places. Each has a parser and a round-trip lemma.
- `TokenList`: `str.split(",")`, `str.strip()` and the token-list comprehension of `update_tokens`.
- `Buffers`: append to the tail, then remove at most one element from the head. Covers single appends and runs of appends: a run keeps the newest `KeptLength` elements.
- `Messages`: the `[HH:MM:SS] text` log-line format and the fixed messages.
- `RugCheck`: the decision of `passes_rug_check` and the two log lines it writes.
- `Trading`: the token choice, the P/L sign rule and the trade record of one `run_bot` iteration.
- `Dashboard`: a class whose fields are the module-level state. Its methods are the handlers, the rug check, one loop iteration and the loop itself. Each method states the whole new state in terms of the old one.

`save_config` is modelled by the field `persisted`, which it sets to the current
`config`. That field is what the config file would hold.

`passes_rug_check` is defined in `dashboard.py` but no code in the file calls it.
`run_bot` records a trade without consulting it. The model keeps the same
structure.

The model follows `dashboard.py` as written:

- The rug check tests the market cap, the liquidity and a 5% random flag, and nothing else (lines 111-128). It draws the market cap from [0, 1 000 000] and the liquidity from [0, 500 000].
- Each list is trimmed by a single `pop(0)` after each append, once it has passed 50 entries (lines 175-181). A list that is already longer stays longer.
- There is no sniper loop and no position tracking. `active_positions` is declared and never used, and `fake_price_for_token` is never called.

## Model

| member | source | states |
|---|---|---|
| `Decimal.NatText` | dashboard.py:115 | `str()` of a non-negative int: at least one digit, all digits, and no leading zero unless the text is "0" |
| `Decimal.NatTextRoundTrip` | dashboard.py:115 | the decimal text of a non-negative int reads back as the same number |
| `Decimal.IntText` | dashboard.py:115 | `str()` of an int is a non-empty digit string, or '-' followed by one; it never contains a comma |
| `Decimal.IntTextRoundTrip` | dashboard.py:115 | `str()` of any int (the sampled market cap and liquidity) reads back as the same int |
| `Decimal.MagnitudeText` | dashboard.py:155-159 | the shortest text of a non-negative value rounded to two places starts and ends with a digit and has its point before the last one or two digits |
| `Decimal.FloatText` | dashboard.py:155-159 | `str()` of a rounded float starts with '-' exactly when its sign bit is set, `-0.0` included, and holds no '$' |
| `Decimal.FloatTextInjective` | dashboard.py:155-159 | equal float texts come from the same rounded float: sign bit and hundredths |
| `Decimal.ParseMagnitudeParts` | dashboard.py:155-159 | a text of digits, a point and one or two digits reads as its whole part and its fraction digits |
| `Decimal.MagnitudeTextRoundTrip` | dashboard.py:155-159 | the shortest float text of a value rounded to two places ("3.1", "0.05", "5.0") reads back as the same hundredths |
| `TokenList.Split` | dashboard.py:245 | `split(",")` gives at least one piece, and no piece contains the separator |
| `TokenList.JoinSplit` | dashboard.py:245 | the pieces of a split, joined with the separator, give back the input |
| `TokenList.SplitJoin` | dashboard.py:245 | splitting is the unique inverse of joining separator-free pieces |
| `TokenList.SplitAround` | dashboard.py:245 | the pieces before a separator come first and in order: split(a + sep + b) = split(a) + split(b) |
| `TokenList.SplitNoSeparator` | dashboard.py:245 | a string without the separator splits to itself alone |
| `TokenList.IsSpace` | dashboard.py:245 | the characters `str.strip()` removes: those for which Python's `str.isspace` holds (ASCII tab to carriage return, the separators U+001C-U+001F, the space, U+0085, U+00A0 and the Unicode space separators) |
| `TokenList.LeadingSpace` | dashboard.py:245 | the count of leading characters `strip()` drops: all of them are whitespace, and the next character, if any, is not |
| `TokenList.TrailingSpace` | dashboard.py:245 | the count of trailing characters `strip()` drops: all of them are whitespace, and the character before them, if any, is not |
| `TokenList.Strip` | dashboard.py:245 | `strip()` yields the empty string or a string that neither starts nor ends with whitespace |
| `TokenList.StripSlice` | dashboard.py:245 | `strip()` is the slice of its input that starts after the leading whitespace, with only whitespace before and after it |
| `TokenList.StripCharacterized` | dashboard.py:245 | `strip()` is a slice of its input with only whitespace on either side, and is empty exactly when the input is all whitespace |
| `TokenList.StripKeepsAbsent` | dashboard.py:245 | stripping never introduces a character |
| `TokenList.StripTrimmed` | dashboard.py:245 | stripping a string that is already trimmed changes nothing |
| `TokenList.KeepStripped` | dashboard.py:245 | the comprehension `[t.strip() for t in pieces if t.strip()]`; its properties are the three lemmas below |
| `TokenList.KeepStrippedTrimmed` | dashboard.py:245 | the comprehension keeps no more entries than there are pieces, and every entry is non-empty and trimmed |
| `TokenList.KeepStrippedKeepsAbsent` | dashboard.py:245 | a character missing from every piece is missing from every kept entry |
| `TokenList.KeepStrippedAppend` | dashboard.py:245 | the comprehension keeps order: over xs + ys it gives the result for xs followed by the result for ys |
| `TokenList.ParseTokens` | dashboard.py:244-245 | every stored token is non-empty, has no leading or trailing whitespace and contains no comma |
| `TokenList.ParseTokensAround` | dashboard.py:245 | tokens keep the order of the comma pieces: parse(a + "," + b) = parse(a) + parse(b) |
| `TokenList.ParseSingleToken` | dashboard.py:245 | a trimmed comma-free token parses to itself alone |
| `TokenList.ParsePaddedToken` | dashboard.py:245 | a token with a blank on each side parses to the bare token |
| `TokenList.ParsePaddedThenToken` | dashboard.py:245 | a blank-padded token, a comma, then a bare token parse to the two bare tokens in order |
| `TokenList.ParseJoinedTokens` | dashboard.py:245 | a list of trimmed comma-free tokens written out with commas parses back to the same list |
| `TokenList.ParseTokensIdempotent` | dashboard.py:245-246 | re-parsing the stored list written out with commas gives the stored list |
| `TokenList.ParseTokensExample` | dashboard.py:245 | an input shaped like "A, B ,C" gives ["A", "B", "C"] |
| `Buffers.AppendTrim` | dashboard.py:172-181 | one `append` followed by one `pop(0)` past the cap keeps exactly the newest `KeptLength(n, 1, cap)` elements of the old list followed by the new element |
| `Buffers.AppendAllTrim` | dashboard.py:172-181 | over any run of appends the length is `KeptLength(n, k, cap)`: so a list already over the cap keeps its length, since one `pop(0)` per append never brings it back under the cap |
| `Buffers.AppendTrimShape` | dashboard.py:172-181 | after an append and trim, the new element is last; the trim removes exactly the oldest element when the list already held the cap, and nothing otherwise |
| `Buffers.AppendTrimBounded` | dashboard.py:172-176 | a list within the cap of 50 stays within it after an append and trim |
| `Buffers.AppendTrimOverCap` | dashboard.py:179-181 | a list already over the cap keeps its length: one `pop(0)` per append never brings it back under the cap |
| `Buffers.KeptLength` | dashboard.py:172-181 | the length a list reaches after a run of appends, each followed by one `pop(0)` past the cap: never more than the old length plus the appends; within the cap when it started within it; unchanged when it started over it |
| `Buffers.NewestThenAppend` | dashboard.py:172-181 | trimming after some appends and then continuing keeps the same window of everything as trimming all along |
| `Buffers.WindowAdvance` | dashboard.py:172-181 | a list that holds the window after one run and then takes more appends holds the window after the longer run |
| `Buffers.AppendAllTrimNewest` | dashboard.py:172-181 | any run of appends and trims keeps exactly the newest `KeptLength` elements of the old list followed by the new ones, in order |
| `Buffers.AppendAllTrimKeepsLast` | dashboard.py:146-176 | starting within the cap, any run of appends and trims leaves exactly the last `cap` items of old and new together, in order |
| `Messages.LogLine` | dashboard.py:115-130 | the `[HH:MM:SS] text` line format of these lines and of line 179; `LogLineInjective` states what it determines |
| `Messages.LogLineInjective` | dashboard.py:115-130 | two log lines stamped with times of equal length are equal only when their times and their messages are equal |
| `RugCheck.Decide` | dashboard.py:117-131 | the gate passes exactly when mc >= the market-cap filter, liq >= the liquidity filter and the random flag is not raised; it fails on market cap exactly when mc is too low, on liquidity only after market cap passed, on the flag only after both passed |
| `RugCheck.CheckingText` | dashboard.py:115 | the checking message `🧪 Rug-check {token}: mc={mc}, liq={liq}`; its round trip is stated below |
| `RugCheck.ParseCheckingParts` | dashboard.py:115 | a checking line reads back as the int text before its first comma and the int text after ", liq=" |
| `RugCheck.CheckingTextRoundTrip` | dashboard.py:115 | the sampled market cap and liquidity read back from the checking line, whatever their sign |
| `RugCheck.CheckingTextInjective` | dashboard.py:115 | different sampled values give different checking lines for the same token |
| `RugCheck.OutcomeText` | dashboard.py:118-130 | the verdict message: the three failure messages and "passed for {token}"; `OutcomeTextInjective` states that they differ |
| `RugCheck.RugCheckLog` | dashboard.py:114-131 | the checking line then the verdict line; `RugCheckLogShortCircuits` states its shape |
| `RugCheck.OutcomeTextInjective` | dashboard.py:118-131 | the four outcome messages are pairwise different, whatever the token |
| `RugCheck.OutcomeIsNotChecking` | dashboard.py:115-131 | no outcome message equals the checking message |
| `RugCheck.OutcomeLineFound` | dashboard.py:114-131 | a verdict line found among the gate's two lines is the decided verdict's line, stamped with the outcome time |
| `RugCheck.RugCheckLogShortCircuits` | dashboard.py:114-131 | the gate writes two lines, the checking line first; the only outcome line in them is the verdict's, so a market-cap failure logs no liquidity or random-flag line |
| `Trading.ChooseToken` | dashboard.py:147-149 | "DEMO" when no tokens are configured, otherwise one of the configured tokens; every configured token is the choice for some draw |
| `Trading.PlText` | dashboard.py:159 | the P/L text ends in '%' and starts with '+' exactly for non-negative values and with '-' exactly for negative ones |
| `Trading.PlTextAsWritten` | dashboard.py:159 | the P/L text as the code writes it ends in '%' and starts with '+' exactly for values >= 0; for -0.0 it starts "+-" |
| `Trading.PlTextRoundTrip` | dashboard.py:157-159 | the P/L text reads back as the signed value it was made from |
| `Trading.PlTextMatchesSource` | dashboard.py:159 | for every value except the float -0.0, the source's text equals the intended text |
| `Trading.TradeText` | dashboard.py:179 | the trade log message starts with the check mark and closes with the trade's P/L text in parentheses |
| `Trading.TradeTextInjective` | dashboard.py:179 | for the same P/L text, equal trade messages have the same side, token and amount, whatever characters the token holds |
| `Trading.MakeTrade` | dashboard.py:165-171 | the trade record carries the drawn time, token, side and amount, and a P/L text that reads back as the drawn value (corrected P/L text, see Left out) |
| `Trading.NegativeZeroHasTwoSigns` | dashboard.py:157-159 | for -0.0 the source writes "+-0.0%", which is not a signed percentage; the intended text is "+0.0%" |
| `Dashboard.SavedSettingsReload` | dashboard.py:44-52 | writing DEMO_MODE, TAKE_PROFIT, STOP_LOSS and TOKENS into any config (as lines 197, 216-217 and 246 do) and reading them back with the start-up defaults gives exactly what was written, and the config stays well-typed |
| `Dashboard.TradeFor` | dashboard.py:148-171 | one iteration's trade carries the drawn time, side and amount, a token that is "DEMO" or configured, and a P/L text that reads back as the drawn value (corrected P/L text, see `Trading.MakeTrade` under Left out) |
| `Dashboard.TradeLine` | dashboard.py:179 | one iteration's log line: the trade's time in brackets, then the trade message |
| `Dashboard.OneIterationWindows` | dashboard.py:172-181 | appending one iteration's trade and line, each with its trim, keeps the newest window of the lists with them added |
| `Dashboard.TradesForSnoc` | dashboard.py:146-172 | the trades of a run one iteration longer are the trades so far followed by that iteration's trade |
| `Dashboard.TradeLinesForSnoc` | dashboard.py:146-179 | the log lines of a run one iteration longer are the lines so far followed by that iteration's line |
| `Dashboard.Dashboard.Tokens` | dashboard.py:148 | `config.get("TOKENS", [])`, the list `run_bot` picks from |
| `Dashboard.Dashboard.constructor` | dashboard.py:44-80 | start-up state: demo from DEMO_MODE (default true); not running; risk from TAKE_PROFIT/STOP_LOSS (defaults 50 and 20); filters 0 and 0; the demo trades and log lines |
| `Dashboard.Dashboard.ToggleDemo` | dashboard.py:194-199 | the demo flag is negated, `config["DEMO_MODE"]` equals the new flag, the config is saved and reloads the new flag, and `{demo, running}` is returned; nothing else changes |
| `Dashboard.Dashboard.StartBot` | dashboard.py:201-209 | running is negated; one "Bot started" line is logged when it is now set and one "Bot stopped" line otherwise, with no trim |
| `Dashboard.Dashboard.SaveRisk` | dashboard.py:211-220 | each setting takes the request value or keeps its old value; `config` TAKE_PROFIT/STOP_LOSS equal the new settings; the config is saved and reloads them; one log line |
| `Dashboard.Dashboard.SaveFilters` | dashboard.py:222-228 | each filter takes the request value or keeps its old value; config and the saved config are unchanged; one log line |
| `Dashboard.Dashboard.UpdateTokens` | dashboard.py:242-249 | `config["TOKENS"]` becomes the parsed form field (absent reads as ""), every stored token is trimmed and comma-free, the config is saved and reloads that list, one log line |
| `Dashboard.Dashboard.PassesRugCheck` | dashboard.py:105-131 | returns the gate's decision; only the log changes, by exactly the checking line followed by the verdict line |
| `Dashboard.Dashboard.RunBotStep` | dashboard.py:146-181 | requires running; the trade list becomes the newest `KeptLength(n, 1, 50)` entries of the old list followed by the new trade, and likewise the log with the new trade line; nothing else changes (corrected P/L text) |
| `Dashboard.Dashboard.RunBotPass` | dashboard.py:146-181 | when the lists hold the windows after `i` iterations of a run, one more iteration leaves the windows after `i + 1` |
| `Dashboard.Dashboard.RunBot` | dashboard.py:141-184 | over a run of iterations the trade list is the last 50 of the old trades followed by the new ones, in order; the log is the newest `KeptLength(n, k, 50)` lines of the old log followed by the new lines, so a log already past 50 keeps its length (corrected P/L text) |
| `Dashboard.ToggleDemoTwice` | dashboard.py:194-199 | toggling demo mode twice restores the flag, and the config mirrors it |
| `Dashboard.SaveRiskThenRead` | dashboard.py:211-220 | saving take-profit 10 and stop-loss 5 leaves exactly those settings, in memory and in the saved config |
| `Dashboard.RestartAfterSaving` | dashboard.py:30-52 | after `toggle_demo`, `save_risk` and `update_tokens` (lines 194-220 and 242-247), a dashboard started from the saved config has the same demo flag, risk settings and token list; the filters, never saved, come back as 0 and 0, and the bot stopped |
| `Dashboard.LogsOutgrowTrim` | dashboard.py:175-181 | from a log of 50 lines, starting the bot and running one iteration leaves 51 lines: the single `pop(0)` does not bound the log |

## Findings

| source | as written | input that shows it | evidently intended | confidence | as-written member | corrected member |
|---|---|---|---|---|---|---|
| dashboard.py:158-159 | `'+' if pl_value >= 0` is prefixed to `str(pl_value)`. `round` can return the float -0.0: the test `-0.0 >= 0` is true, and `str(-0.0)` is "-0.0". | a draw of `random.uniform(-5, 5)` in (-0.005, 0), such as -0.001, rounds to -0.0; the trade's P/L is then "+-0.0%" | exactly one sign: "+0.0%" | high; reasoned from Python's float semantics, not executed | `Trading.NegativeZeroHasTwoSigns` | `Trading.PlTextRoundTrip` |

`Trading.PlTextAsWritten` is the P/L text as the code writes it. `Trading.PlText`
is the corrected text, and the trade records of the model use it.

## Left out

- Flask routing, `jsonify`, `render_template`, `redirect`, CORS and the read-only routes (`home`, `get_trades`, `get_wallets`, `get_logs`) are left out. They are web plumbing or plain reads of the state.
- `load_config` and `save_config` are file I/O and JSON. The loaded config is the constructor's parameter, and saving copies `config` into `persisted`.
- `RPC_URL`, `get_current_slot` and `test_rpc` are left out. They are a network call through `requests`.
- Threads and `time.sleep` are left out. `start_bot` only flips the flag, and `run_bot` is modelled as `RunBot` over a finite sequence of draws, with the running flag held set. Flips by other threads, and the races between the loop and the handlers, are not modelled.
- `random` and `time.strftime` are not modelled. Their results are parameters: the token index, side, amount, P/L, market cap, liquidity, the random flag and the timestamps.
- Floating-point arithmetic is left out. The amount and P/L are the floats that `round(x, 2)` returns, given as a sign bit and a magnitude in hundredths. The rounding itself and the ranges of the draws are not modelled.
- `fake_price_for_token`, `monitor_wallets_for_snipes`, `tokens_route`, `active_positions`, `copy_wallets`, the module-level `tokens` and the `wallets` demo data are left out. Nothing in the core reads them.
- Dashboard.Dashboard.SaveRisk: takes already-parsed integers. The failures of `request.json` and of `int()` on malformed input are not modelled, and neither is the partial update when the second conversion raises.
- Dashboard.Dashboard.SaveFilters: takes already-parsed integers, for the same reason as `SaveRisk`.
- Dashboard.Dashboard.constructor: requires the config file's DEMO_MODE, TAKE_PROFIT, STOP_LOSS and TOKENS entries, when present, to hold a flag, integers and a list of strings. The code does not check this. A float TAKE_PROFIT or STOP_LOSS (say 12.5) is loaded as a float by lines 50-51, and a later `save_risk` whose request lacks that field stores `int()` of it, truncated to 12, by lines 214-215. The model does not cover that case, so `SaveRisk`'s "keeps its old value" holds only for integer settings.
- Trading.ChooseToken: `random.choice` is modelled by a drawn number taken modulo the list length. Which draws are likely is not modelled.
- Decimal.MagnitudeText: is Python's text only for values below 1e13. At that size a two-place value has at most 15 significant digits, so the float prints as the decimal it was rounded to. Above it, the float nearest to a value such as 100000000000000.01 (10000000000000001 hundredths) prints differently, and the model does not capture that. The dashboard's values are all below 1000.
- Trading.MakeTrade: builds the trade with the corrected P/L text `PlText`, not the text `PlTextAsWritten` that line 159 writes. The two differ only for -0.0: there the model records "+0.0%" and the code writes "+-0.0%" (see Findings). So `Dashboard.TradeFor`, `Dashboard.TradeLine`, `Dashboard.Dashboard.RunBotStep`, `Dashboard.Dashboard.RunBotPass` and `Dashboard.Dashboard.RunBot` describe the corrected program for that one value.
