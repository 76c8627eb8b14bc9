# Quantitative-finance utilities, modelled in Dafny

This project models four pieces of a small collection of Python scripts used
by an insurance asset manager:

- **`delta_hedge.py`** — a delta-hedging simulator. A European call option
  is priced with the closed-form formula and replicated by a portfolio of
  the underlying asset plus cash, rebalanced several times a day along
  a simulated price path. A benchmark portfolio simply buys the calls and
  holds them. Both portfolios are written row by row into a ten-column
  ledger, and a Monte-Carlo mode repeats the whole run and collects each
  run's terminal gap between the two.
- **`brinson.py`** — Brinson performance attribution. A portfolio and a
  benchmark are lists of (weight, return) positions; the excess return is
  split into allocation, selection and an unexplained remainder.
- **`read_nav_from_excel.py`** — field extraction from fund valuation
  sheets. It parses a reference date and finds the unit NAV and the
  accumulated NAV among the row labels.
- **`read_zhongbaodeng_report.py`** — line cleaning and table rules for the
  monthly report of the insurance asset-management product registry. It
  removes stray spaces and garbage text, fixes the row shapes, finds the
  product type and converts rate columns.

## How the model is organised

| module | file | models |
|---|---|---|
| `Common` | common.dfy | Option/Result with `:-`, a float that may be NaN, `max`, `abs`, sums |
| `PyMath` | py_math.dfy | where Python's `/`, `math.sqrt` and `math.log` raise; numpy's non-raising division; `int()` truncation; the mathematical functions as a parameter |
| `CallOptions` | call_option.dfy | `CallOption`: d1, d2, delta, payoff, price, `expire` |
| `PricePaths` | price_path.dfy | `PriceTS` and `price_ts` |
| `AccountBooks` | account_book.dfy | `AccountBook`: `add`, `__len__`, `mv_stat` |
| `Replica` | replica.dfy | `CallOptionReplicaPtf` as functions on its state: `record`, `rebalance`, `simulate`, construction |
| `ReplicaPortfolio` | replica_portfolio.dfy | the same class, as a Dafny class whose methods change its fields, its option and its ledger in place |
| `ReplicaLedger` | replica_ledger.dfy | what a whole run writes into the ledger |
| `MonteCarlo` | monte_carlo.dfy | `run_once` and the `run_mult` loop |
| `Brinson` | brinson.dfy | `Pos_Info`, `Position`, `Brinson_Res`, `breakdown` |
| `Strings` | strings.dfy | the Python `str` operations the two readers use |
| `NavReader` | nav.dfy | `Nav`, `parse_date`, `find_nav` |
| `ReportReader` | report.dfy | `rm_space`, `rm_garbage`, `conv_normal`, `conv_mmp`, `find_prod_type`, `rate2num` |

### How the model treats the Python

- **Numbers.** Numbers are mathematical reals. The natural logarithm, the
  exponential, the square root and the standard normal CDF are the fields of
  a `Maths` value passed in. Lemmas that need their ordinary properties
  (positive `exp`, `sqrt` of a positive number positive, `norm` between 0
  and 1) require `Maths.Valid()`.
- **Randomness.** The lognormal draws from numpy's generator are a `Sampler`
  function from a stream position to a draw. `price_ts` reads
  `days * times_per_day` consecutive positions, and successive Monte-Carlo
  runs read successive stretches of the stream.
- **Exceptions.** Every exception the code can raise is a value of
  `PyError`:
  - `ZeroDivisionError`;
  - math domain error;
  - `IndexError`;
  - `ValueError`;
  - `re.error`.

  An exception raised partway through a step leaves exactly the partly
  updated state that Python would leave.
- **Stateful code.** Code that updates objects in place is modelled as Dafny
  classes. Each of `CallOption`, `AccountBook`, `CallOptionReplicaPtf` and
  `Position` has its own class. Each method is proved equal to a pure
  function of the old state, and the properties are proved about those
  functions. The loops of `run_mult`, `sum_weight`, `sum_rtn`, `breakdown`,
  `find_nav`, `rm_garbage` and `rate2num` stay loops.
- **numpy scalars.** The prices of a simulated path are numpy `float64`
  values, and so are the option prices, so every `mv` and `call_mv` in a
  run's ledger is one. Dividing such values by zero raises nothing: it
  gives an infinity or nan. `mv_stat`'s relative gap is modelled as such
  a value (`PyMath.NpDiv`).
- **Parsing and regular expressions.** `float()` and `pd.to_numeric` are
  parameters (`string -> Option<real>`). The regular expressions of
  `find_nav`'s field names are predicate parameters; the default names are
  written out as substring tests. The `parse_date` and `rm_space` patterns
  are modelled character by character.

### Where the code differs from its description

The model follows the code.

- The price path is `p0 * exp(cumsum(rtn - 1))`, not a running product of
  the draws (delta_hedge.py:102).
- `d1` adds the risk-free rate to `sigma^2/2 * T` without multiplying it by T
  (delta_hedge.py:48-51).
- The check that the maturity is a whole number of days sits in a method
  named `__post_int__` (delta_hedge.py:34). Python never calls it, so
  constructing an option never raises.
- The ledger of a run holds `max(total_steps, 1)` rows: the initial record
  plus one per rebalance with `reb_count` from 1 to `total_steps - 1`. The
  rebalance that reaches `total_steps` returns before trading, so the option
  is never expired inside `simulate` (delta_hedge.py:214-216).
- `mv_stat` divides by the benchmark's final value. In a run these are
  numpy scalars, so a zero benchmark makes the relative gap infinite, or nan
  when the replica is zero too, instead of raising.
- `rm_space` passes the repaired product name to `re.sub` as a template, so
  backslash escapes in a name are expanded and a bad escape raises
  `re.error` (read_zhongbaodeng_report.py:67).
- `find_prod_type` searches every line, table rows included (see Findings).

## Model

| member | source | states |
|---|---|---|
| PyMath.Div | delta_hedge.py:48-51 | Python `/` raises ZeroDivisionError exactly when the divisor is 0, otherwise the quotient times the divisor is the dividend |
| PyMath.Sqrt | delta_hedge.py:49 | `math.sqrt` raises a domain error exactly for a negative argument |
| PyMath.Log | delta_hedge.py:50 | `math.log` raises a domain error exactly for a non-positive argument |
| PyMath.Trunc | delta_hedge.py:187 | `int()` of a real truncates toward zero: the result is within 1 of the argument, on the side of zero |
| CallOptions.MtyInYears | delta_hedge.py:40-42 | the maturity in years times 252 is the maturity in days; it is positive exactly when the days are |
| CallOptions.D1 | delta_hedge.py:44-51 | NaN exactly when expired; otherwise raises ZeroDivisionError when sigma*sqrt(T) or the strike is 0, or a domain error when spot/strike is not positive; otherwise d1*sigma*sqrt(T) = log(S/K) + rf + sigma^2/2*T, with rf not multiplied by T |
| CallOptions.D2 | delta_hedge.py:53-55 | unexpired: raises exactly when d1 raises, else d1 - sigma*sqrt(T); NaN at maturity 0; a domain error for a negative maturity |
| CallOptions.Delta | delta_hedge.py:57-61 | 0 once expired; otherwise N(d1); raises exactly when d1 does, with its error; between 0 and 1 for a genuine CDF |
| CallOptions.Payoff | delta_hedge.py:63-65 | max(spot - strike, 0): at least both, and equal to one of them |
| CallOptions.Price | delta_hedge.py:67-72 | the payoff once expired; otherwise N(d1)*S - N(d2)*K*exp(-rf*T); raises exactly when d1 does |
| CallOptions.PricingRaisesIff | delta_hedge.py:44-72 | for a genuine square root, pricing an unexpired option raises exactly when sigma or the strike is 0 or spot/strike is not positive, and then delta raises the same error |
| CallOptions.CallOption.constructor | delta_hedge.py:26-38 | the option holds the given terms; nothing is checked on construction |
| CallOptions.CallOption.Expire | delta_hedge.py:74-75 | only `mty_in_days` changes, decreasing by `time`; the maturity in years falls by time/252 |
| PricePaths.NewPriceTS | delta_hedge.py:82-92 | a time series is built exactly when both columns have the same length, otherwise ValueError |
| PricePaths.CumSum | delta_hedge.py:102 | `np.cumsum`: element k is the sum of the first k+1 inputs |
| PricePaths.RunningTotalsAt | delta_hedge.py:102 | the left-to-right accumulation holds acc plus the prefix sums |
| PricePaths.DrawsConcat | delta_hedge.py:100 | the draws read consecutive stream positions: a draws followed by b more from where they stopped are the a + b draws from the start |
| PricePaths.SumLessOne | delta_hedge.py:102 | the elements of `rtn - 1` sum to the sum of `rtn` less one per draw |
| PricePaths.PathPrices | delta_hedge.py:102-104 | p0 first, then p0 * exp(sum of the first k excess draws) |
| PricePaths.TimeGrid | delta_hedge.py:103-104 | n+1 points, point k times `times_per_day` equals k |
| PricePaths.PriceTs | delta_hedge.py:95-105 | ZeroDivisionError for `times_per_day` 0, a domain error for a negative one, ValueError for a negative count or volatility; otherwise `days*times_per_day + 1` points and prices, points[0] = 0, prices[0] = p0, the draws of the given stream positions |
| PricePaths.PricesPositive | delta_hedge.py:102-104 | with a genuine exp and a positive p0 every price on the path is positive |
| PyMath.NpDiv | delta_hedge.py:149 | numpy division: the quotient exactly for a non-zero divisor; for a zero one +inf, -inf or nan as the dividend is positive, negative or zero |
| PyMath.NpSub | delta_hedge.py:149 | subtracting a number from an infinity or nan leaves it unchanged, from a number gives the difference |
| AccountBooks.TerminalStat | delta_hedge.py:142-150 | IndexError exactly for an empty ledger; otherwise the last row's two values, their difference and a relative gap g with (g + 1) * call_mv = mv when call_mv is not 0, or +inf, -inf or nan as mv is positive, negative or 0 |
| AccountBooks.TerminalStatReadsLastRow | delta_hedge.py:142-150 | earlier rows never change the statistic |
| AccountBooks.AccountBook.constructor | delta_hedge.py:108-119 | the ledger starts with ten empty columns |
| AccountBooks.AccountBook.Add | delta_hedge.py:121-133 | each of the ten columns gets exactly the one given value appended; the columns stay equally long; the rows are the old rows plus the new one |
| AccountBooks.AccountBook.Len | delta_hedge.py:139-140 | the length is the number of rows |
| AccountBooks.AccountBook.MvStat | delta_hedge.py:142-150 | `mv_stat` of the object is the terminal statistic of its rows |
| Replica.Step | delta_hedge.py:170-172 | one step is 1/`times_per_day` days, and positive |
| Replica.Timepoint | delta_hedge.py:174-176 | the time reached times `times_per_day` is `reb_count` |
| Replica.ExpiredIff | delta_hedge.py:205-207 | the portfolio is expired exactly when `reb_count` has reached `total_steps` |
| Replica.AssetPrice | delta_hedge.py:182-184 | the path price at `reb_count`, IndexError past the end of the path |
| Replica.Mv | delta_hedge.py:197-199 | asset quantity times path price plus cash; IndexError past the path |
| Replica.CallMv | delta_hedge.py:201-203 | call quantity times option price plus call cash; raises exactly when pricing raises |
| Replica.RecordRow | delta_hedge.py:234-240 | the row `record` appends: time, holdings, prices, delta and both values of the current state; the first error raised when the path or the pricing fails |
| Replica.Record | delta_hedge.py:234-240 | appends exactly that row, or raises and leaves the state unchanged |
| Replica.Age | delta_hedge.py:217-218 | the option moves to the step's path price and loses one step of maturity; nothing else changes |
| Replica.AccrualFactor | delta_hedge.py:221-222 | 1 + rf/252*step: exactly 1 for rf = 0, above 1 for positive rf, below for negative |
| Replica.Accrue | delta_hedge.py:221-222 | both cash balances are multiplied by the accrual factor and nothing else changes; rf = 0 changes nothing |
| Replica.BuyCall | delta_hedge.py:224-226 | holds `target_qty` calls; when pricing succeeds, call quantity times price plus call cash equals the cash it started from; when it raises, the quantity is already set |
| Replica.Purchase | delta_hedge.py:224-226 | the calls are bought on step 1 only; the purchase never touches the cash, the asset quantity or the option |
| Replica.Hedge | delta_hedge.py:227-231 | the asset quantity becomes delta times `target_qty` and the trade keeps cash + quantity*price |
| Replica.Trade | delta_hedge.py:217-232 | ageing, accrual, the one-time purchase on step 1 and the hedge, in that order; the counter and ledger are untouched |
| Replica.Rebalance | delta_hedge.py:213-232 | increments `reb_count`; at or past the horizon it does nothing else; otherwise trades and records |
| Replica.Simulate | delta_hedge.py:209-211 | rebalances until expired; a run that raises nothing ends expired |
| Replica.Launch | delta_hedge.py:186-195 | construction builds the price path (raising what `price_ts` raises), fixes `total_steps = days * times_per_day` and records the initial row: it succeeds exactly when that record does, in the state `Replica.Record` gives, and otherwise raises the record's error |
| ReplicaLedger.LaunchTracks | delta_hedge.py:186-195 | a constructed portfolio satisfies the run invariant: one row, the initial record, call cash equal to cash, no calls |
| ReplicaLedger.RebalanceAfterExpiry | delta_hedge.py:214-216 | a rebalance at or past the horizon only increments `reb_count`; option, portfolios and ledger are untouched |
| ReplicaLedger.LastRow | delta_hedge.py:186-240 | before the horizon the ledger holds `reb_count + 1` rows and the state holds the last row's holdings |
| ReplicaLedger.TradeOption | delta_hedge.py:217-218 | the option a rebalance trades with is the original option at the next path price, one more step older |
| ReplicaLedger.TradeHedged | delta_hedge.py:227-231 | after a trade the asset quantity is delta times `target_qty` at the new option |
| ReplicaLedger.TradeFinancedFrom | delta_hedge.py:221-231 | the new hedge is paid for out of the previous row's cash with one step of interest |
| ReplicaLedger.TradeCalls | delta_hedge.py:224-226 | on step 1 the calls are paid for out of the accrued cash; afterwards the call cash only accrues and the quantity stays `target_qty` |
| ReplicaLedger.TradeFromRow | delta_hedge.py:217-232 | the facts about one trade, from the previous row's values |
| ReplicaLedger.RecordedQuotes | delta_hedge.py:234-240 | a recorded row quotes step i's time and path price and the delta and price of the option i steps old |
| ReplicaLedger.RecordedHedge | delta_hedge.py:227-240 | a recorded row holds delta times `target_qty` of the asset and `target_qty` calls |
| ReplicaLedger.RecordedHoldings | delta_hedge.py:221-240 | a recorded row's holdings follow the trade rule from the previous row |
| ReplicaLedger.RecordedValuation | delta_hedge.py:197-203 | both portfolios of a recorded row are valued at the row's own prices |
| ReplicaLedger.RecordedReplicaValue | delta_hedge.py:221-231 | self-financing: the replicating value is the previous holdings at the new price plus the accrued previous cash |
| ReplicaLedger.RecordedBenchmarkValue | delta_hedge.py:221-226 | the same for the benchmark at the new option price |
| ReplicaLedger.RecordedStep | delta_hedge.py:217-240 | the row recorded after a trade is a step of the run |
| ReplicaLedger.RebalanceRecords | delta_hedge.py:213-240 | a rebalance before the horizon appends exactly one row, a step from the previous one |
| ReplicaLedger.RebalanceTracks | delta_hedge.py:213-240 | a rebalance that raises nothing keeps the run invariant |
| ReplicaLedger.SimulateTracks | delta_hedge.py:209-211 | a simulation that raises nothing keeps the invariant and stops at `reb_count = max(start, total_steps)` |
| ReplicaLedger.RunLedger | delta_hedge.py:186-240 | a whole run that raises nothing leaves max(`total_steps`, 1) rows: row 0 the initial record, every row i a self-financing step from row i-1 at step i's prices |
| ReplicaLedger.OptionAliveWhileRecording | delta_hedge.py:214-216 | every recorded step prices an unexpired option |
| ReplicaLedger.RebalanceNoRaise | delta_hedge.py:213-240 | under positive spot, strike and volatility a rebalance never raises |
| ReplicaLedger.SimulateNoRaise | delta_hedge.py:209-211 | under the same terms a simulation never raises |
| ReplicaLedger.SaneRunCompletes | delta_hedge.py:186-240 | a portfolio built on such terms runs to its horizon without raising, with a full ledger |
| ReplicaPortfolio.CallOptionReplicaPtf.constructor | delta_hedge.py:153-168 | the fields before the initial record: the path, `total_steps`, cash, zero holdings, call cash equal to cash |
| ReplicaPortfolio.CallOptionReplicaPtf.Create | delta_hedge.py:186-195 | construction raises exactly when it does in the functional model, and otherwise yields the object in the constructed state `Launch` describes |
| ReplicaPortfolio.CallOptionReplicaPtf.Expired | delta_hedge.py:205-207 | `expired` holds exactly when `reb_count >= total_steps` |
| ReplicaPortfolio.CallOptionReplicaPtf.Record | delta_hedge.py:234-240 | the object, its option and its ledger end as `Replica.Record` says |
| ReplicaPortfolio.CallOptionReplicaPtf.AgeAndAccrue | delta_hedge.py:217-222 | the object ends in the aged and accrued state |
| ReplicaPortfolio.CallOptionReplicaPtf.BuyCall | delta_hedge.py:224-226 | the object ends as `Replica.BuyCall` says |
| ReplicaPortfolio.CallOptionReplicaPtf.Hedge | delta_hedge.py:227-231 | the object ends as `Replica.Hedge` says |
| ReplicaPortfolio.CallOptionReplicaPtf.Trade | delta_hedge.py:217-232 | the object ends as `Replica.Trade` says |
| ReplicaPortfolio.CallOptionReplicaPtf.Rebalance | delta_hedge.py:213-232 | the object ends as `Replica.Rebalance` says |
| ReplicaPortfolio.CallOptionReplicaPtf.Simulate | delta_hedge.py:209-211 | the object ends as `Replica.Simulate` says |
| MonteCarlo.OptionTerms | delta_hedge.py:306-308 | each run's option has the command-line terms |
| MonteCarlo.DrawsPerRun | delta_hedge.py:316-321 | a run advances the stream by `freq * mty` draws |
| MonteCarlo.Run | delta_hedge.py:305-314 | a run raises what the path construction raises; a zero rebalancing frequency raises ZeroDivisionError |
| MonteCarlo.SaneRun | delta_hedge.py:305-314 | for positive spot, strike and volatility, a run that constructs never raises: it gives the statistic of a full ledger of max(`total_steps`, 1) rows |
| MonteCarlo.BatchResults | delta_hedge.py:316-321 | a batch succeeds exactly when every run does and then holds their results in order, or else fails with the first run's error |
| MonteCarlo.RunsResults | delta_hedge.py:316-321 | `run_mult` returns one statistic per run, run i reading its own stretch of the stream, or the first exception |
| MonteCarlo.Runs | delta_hedge.py:316-321 | a successful `run_mult(n)` has exactly max(n, 0) results |
| MonteCarlo.RunOnce | delta_hedge.py:305-314 | building the objects and simulating gives the functional run |
| MonteCarlo.RunMult | delta_hedge.py:316-321 | the counting loop gives the batch of runs |
| Brinson.IsCloseToOne | brinson.py:45 | `math.isclose(w, 1)` with the default relative tolerance, written out as two bounds |
| Brinson.Allocation | brinson.py:79-87 | one entry per asset, in order: (pw - bw)*br |
| Brinson.Selection | brinson.py:79-87 | one entry per asset, in order: (pr - br)*pw |
| Brinson.Minus | brinson.py:88 | subtraction in which NaN propagates |
| Brinson.Other | brinson.py:88 | finite exactly when both real returns are; then (ptf real - bmk real) - (ptf sum - bmk sum) |
| Brinson.Attribution | brinson.py:59-89 | ValueError with both lengths exactly when the positions differ in length, otherwise one allocation and one selection entry per asset |
| Brinson.AssetSplit | brinson.py:79-87 | one asset's allocation plus selection is its contribution minus the benchmark's |
| Brinson.AllocationSelection | brinson.py:79-87 | summed allocation plus summed selection is the difference of the summed returns |
| Brinson.Reconciliation | brinson.py:81-88 | allocation, selection and other add up to the excess real return |
| Brinson.OtherOfDefaults | brinson.py:88 | with both real returns defaulted, other is 0 |
| Brinson.Position.constructor | brinson.py:20-23 | the position holds the given assets and real return |
| Brinson.Position.SumWeight | brinson.py:25-29 | the loop sums the weights |
| Brinson.Position.SumRtn | brinson.py:31-35 | the loop sums weight*return |
| Brinson.Position.PostInit | brinson.py:43-49 | ValueError with the sum exactly when the weights do not sum to 1 within `isclose`; otherwise a NaN real return becomes the summed return and any other value is kept |
| Brinson.Position.New | brinson.py:20-49 | `Position(...)` raises exactly then, and otherwise has the given assets and the defaulted real return |
| Brinson.Breakdown | brinson.py:59-89 | the loop builds the attribution of the two positions |
| Brinson.RejectedWeights | tests/test_brinson.py:7-11 | weights 0.1, 0.5 and 0.5 are rejected |
| Brinson.WorkedExample | tests/test_brinson.py:13-33 | the test positions give allocation [0, -0.015, -0.003], selection [0.001, 0.035, 0.004], other 0 by default and -0.002 for real returns 0.05 and 0.03 |
| Strings.FirstCharAbsent | read_zhongbaodeng_report.py:30 | a substring whose first character is absent does not occur |
| Strings.ContainsConcat | read_zhongbaodeng_report.py:27-30 | a substring of one part of a concatenation is a substring of the whole |
| Strings.Count | read_zhongbaodeng_report.py:36 | `str.count` of one character is at most the length and 0 exactly when the character is absent |
| Strings.CountConcat | read_zhongbaodeng_report.py:27 | counts add over concatenation |
| Strings.Split | read_zhongbaodeng_report.py:82 | `split` on one character gives one more piece than separators and no piece contains the separator |
| Strings.JoinSplit | read_zhongbaodeng_report.py:82 | joining the pieces with the separator gives the string back |
| Strings.RemoveAllAbsent | read_zhongbaodeng_report.py:81 | `replace(pat, "")` leaves a string without the pattern unchanged |
| Strings.RemoveAllChar | read_zhongbaodeng_report.py:66 | removing one character removes all its occurrences and keeps every other character's count |
| Strings.StripLeft | read_zhongbaodeng_report.py:82 | `lstrip` removes exactly the leading whitespace |
| Strings.StripRight | read_zhongbaodeng_report.py:82 | `rstrip` removes exactly the trailing whitespace |
| Strings.Strip | read_zhongbaodeng_report.py:82 | `strip` gives a stretch of the input bounded by whitespace on both sides, not starting or ending with whitespace |
| NavReader.DateAt | read_nav_from_excel.py:56-58 | the three digit groups of a match, read as numbers |
| NavReader.DaysInMonth | read_nav_from_excel.py:59 | between 28 and 31; 29 exactly for February of a leap year |
| NavReader.Leftmost | read_nav_from_excel.py:56 | `re.search` finds the leftmost position where the date shape starts |
| NavReader.ParseDate | read_nav_from_excel.py:55-61 | None exactly when no position has the shape (4 digits, `-` or 年, 2 digits, `-` or 月, 2 digits); otherwise the leftmost match, which is a valid date or else a ValueError |
| NavReader.ParseDateDashed | tests/test_read_nav_from_excel.py:7-9 | "2021-12-31" parses to 31 December 2021 |
| NavReader.ParseDateBadMonth | read_nav_from_excel.py:58-59 | a leftmost match with month 13 raises even though a valid date follows |
| NavReader.Rows | read_nav_from_excel.py:43 | `zip` stops at the shorter of the two columns |
| NavReader.Candidates | read_nav_from_excel.py:50 | the candidate list holds every label containing 净值 and nothing else |
| NavReader.CandidatesInOrder | read_nav_from_excel.py:50 | the candidates are the labels containing 净值 in their order and multiplicity: those of a concatenation are those of its parts, one label is listed exactly when it contains 净值 |
| NavReader.LastHit | read_nav_from_excel.py:43-47 | the most recent row before k that matches a pattern |
| NavReader.FindNav | read_nav_from_excel.py:39-52 | the loop with its early return computes the scan of the rows |
| NavReader.FindNavReturns | read_nav_from_excel.py:41-49 | at the first row by which both patterns have matched, it returns the parsed values of the most recent matching rows |
| NavReader.FindNavMissing | read_nav_from_excel.py:50-52 | when the patterns are not both matched in the zipped rows, it raises LookupError listing the candidates |
| NavReader.FindNavBadValue | read_nav_from_excel.py:45-47 | a matching row whose value does not parse, reached before both are found, raises on that value |
| NavReader.NavLabel | read_nav_from_excel.py:147 | the default patterns take 今日单位净值： for the unit NAV only |
| NavReader.AccLabel | read_nav_from_excel.py:147 | and 累计单位净值： for the accumulated NAV only |
| NavReader.OtherLabel | read_nav_from_excel.py:147 | and not 当天单位净值：, which still names a candidate |
| NavReader.ShortLabels | read_nav_from_excel.py:147 | and neither ABC nor ZZZ |
| NavReader.FindNavReadsLabelledRows | tests/test_read_nav_from_excel.py:12-18 | the test rows give (1.3, 2.1) |
| NavReader.FindNavListsCandidates | tests/test_read_nav_from_excel.py:20-25 | the second test's rows raise LookupError listing 当天单位净值： and 累计单位净值： |
| ReportReader.LineEnd | read_zhongbaodeng_report.py:62 | the end of the current line: `.` does not cross a newline |
| ReportReader.LastAhead | read_zhongbaodeng_report.py:62 | the last position up to a bound followed by whitespace and 8 digits |
| ReportReader.MatchEnd | read_zhongbaodeng_report.py:62-63 | `(.+)(?=\s\d{8})` from a position: the greedy match ends at the last newline-free position followed by whitespace and 8 digits |
| ReportReader.FirstMatch | read_zhongbaodeng_report.py:67 | the first position from which `re.sub` finds a match |
| ReportReader.ParseTemplate | read_zhongbaodeng_report.py:67 | `re.sub`'s reading of a string replacement: at most one piece per character of the template |
| ReportReader.TemplateWithoutEscapes | read_zhongbaodeng_report.py:67 | a template without a backslash is inserted as it is |
| ReportReader.TemplateEscapes | read_zhongbaodeng_report.py:67 | `\n` becomes a newline; `\1` and `\g<0>` insert the matched text |
| ReportReader.TemplateErrors | read_zhongbaodeng_report.py:67 | `\d`, `\2` (a group the pattern lacks) and a trailing backslash are errors |
| ReportReader.RmSpace | read_zhongbaodeng_report.py:53-67 | a line without a match is returned unchanged; with one, `rm_space` raises `re.error` exactly when the repaired name is not a valid template |
| ReportReader.EscapedLineMatch | read_zhongbaodeng_report.py:62-63 | the match of `A\c 20150508` is its three-character name |
| ReportReader.RmSpaceEscapedNewline | read_zhongbaodeng_report.py:66-67 | the line `A\n 20150508` comes out as `A`, a newline and ` 20150508` |
| ReportReader.RmSpaceBadEscape | read_zhongbaodeng_report.py:66-67 | the line `A\d 20150508` raises `re.error` |
| ReportReader.NoLaterMatch | read_zhongbaodeng_report.py:67 | on one line, `re.sub` finds nothing after the first match |
| ReportReader.RmSpaceLine | read_zhongbaodeng_report.py:62-67 | on one line with a match, the matched prefix is replaced by the expansion of its space-free copy and everything from the whitespace before the date on is unchanged; without a backslash in the prefix, the result is the prefix without its spaces followed by the rest |
| ReportReader.RemoveEach | read_zhongbaodeng_report.py:80-81 | removing the garbage strings in turn never lengthens the text |
| ReportReader.RemoveEachAbsent | read_zhongbaodeng_report.py:80-81 | text without any garbage string is unchanged |
| ReportReader.RmGarbage | read_zhongbaodeng_report.py:70-82 | at least one line, none containing a newline, and joined with newlines they are the input with each garbage string removed in turn, then stripped |
| ReportReader.WithSpaces | read_zhongbaodeng_report.py:36 | the lines kept are exactly those with the given number of spaces |
| ReportReader.WithSpacesInOrder | read_zhongbaodeng_report.py:36 | the filter keeps lines in order and multiplicity: it filters a concatenation part by part and keeps one line exactly when it has that many spaces |
| ReportReader.NormalRow | read_zhongbaodeng_report.py:41 | a line with 6 spaces splits into the 7 fields, which join back to the line |
| ReportReader.MmpRow | read_zhongbaodeng_report.py:47-49 | a line with 4 spaces splits into 5 fields, which join back to the line; the two NAV columns are NA |
| ReportReader.ConvNormal | read_zhongbaodeng_report.py:35-41 | one row per kept line, in order |
| ReportReader.ConvMmp | read_zhongbaodeng_report.py:44-50 | one row per kept line, in order |
| ReportReader.ConvNormalInOrder | read_zhongbaodeng_report.py:35-41 | rows of a concatenation are those of its parts in order; one line gives its seven cells exactly when it has six spaces |
| ReportReader.ConvMmpInOrder | read_zhongbaodeng_report.py:44-50 | rows of a concatenation are those of its parts in order; one line gives its five cells exactly when it has four spaces |
| ReportReader.FirstOccurring | read_zhongbaodeng_report.py:28-32 | "N/A" exactly when no option occurs, otherwise the first option in priority order that occurs |
| ReportReader.NonRows | read_zhongbaodeng_report.py:27 | the lines with neither 6 nor 4 spaces |
| ReportReader.NonRowsInOrder | read_zhongbaodeng_report.py:27 | those lines in their order and multiplicity: part by part over a concatenation, one line kept exactly when it has neither 6 nor 4 spaces |
| ReportReader.FindProdTypeAsWritten | read_zhongbaodeng_report.py:26-32 | as written: the first type in priority order that occurs anywhere in the lines, table rows included, else "N/A" |
| ReportReader.FindProdType | read_zhongbaodeng_report.py:26-32 | as intended: the first type in priority order that occurs in the lines that are not table rows, else "N/A" |
| ReportReader.ProdTypeFromTableRow | read_zhongbaodeng_report.py:27 | as written, a lone table row with 4 spaces decides the type |
| ReportReader.ProdTypeIgnoresTableRow | read_zhongbaodeng_report.py:27 | as intended, that row is ignored and the result is "N/A" |
| ReportReader.RateCell | read_zhongbaodeng_report.py:17-22 | NA or "-" gives NA; with `%` the number of the text without any `%`, divided by 100; otherwise its number; ValueError when it does not parse |
| ReportReader.Rates | read_zhongbaodeng_report.py:15-23 | the converted column is as long as the input |
| ReportReader.RatesCells | read_zhongbaodeng_report.py:15-23 | the conversion succeeds exactly when every cell does and then converts cell by cell, or fails with the first cell's error |
| ReportReader.Rate2Num | read_zhongbaodeng_report.py:12-23 | a column that is not a string column is returned unchanged; otherwise the loop gives the converted cells |

## Left out

- `main`, argument parsing, seeding, spreadsheet output (`AccountBook.export`, `writexlsx`), `read_nav`, `read_tbl` and the file and PDF I/O around the modelled functions: they are I/O.
- Floating-point rounding: all arithmetic is on reals. The exact float outputs of tests/test_brinson.py:20-31 are stated as their real values.
- `log`, `exp`, `sqrt` and the normal CDF are parameters, and numeric accuracy is not modelled. numpy's random generator is a function of the stream position.
- `float()` and `pd.to_numeric` are parameters. Their acceptance of "nan" and "inf" and the values they give are not modelled beyond that.
- PyMath.Trunc: `int()` of a NaN or infinite maturity raises in Python; the model has no such values.
- Exception message texts are not reproduced. Each error carries its kind, plus the data the source puts into the message: the weight sum, both lengths, the candidate list or the unparsable value.
- `\d`, `int()` and `strptime` also accept non-ASCII decimal digits; the model reads ASCII digits only.
- `find_nav`'s field-name patterns are arbitrary regular expressions in the source; the model takes them as predicates and writes out only the two defaults.
- `pd.api.types.is_string_dtype`: the model treats a column as a string column when every cell is NA or a string.
- `parse_date`'s ranges: years 1 to 9999, as `datetime` allows; the optional trailing 日 does not affect the result and is not modelled.
- ReportReader.RmSpace: the contract is stated for single lines (`RmSpaceLine`); the full `re.sub` over several lines is defined but not characterised.
- ReportReader.ParseTemplate: group names in `\g<...>` follow Python 3.12 (ASCII digits only; a name made of other characters is an error). Python raises IndexError rather than `re.error` for a name that is an identifier; the model has one error for both.
- AccountBooks.TerminalStat: numpy's signed zero is not modelled; a zero benchmark value counts as +0.0. When `AccountBook` is used on its own with Python floats, Python raises ZeroDivisionError; the model describes the ledgers a run writes.
- tests/test_read_zhongbaodeng_report.py:4-10 is not restated as a lemma; `RmSpaceLine` states the property it checks.
- `fetch_rsc_api.py`, the crawlers, `simple_web_server.py`, `crudshiny.py`, `rotate_video.py` and `simplify_file_tree.py` are not part of this model: they are network, UI, database and filesystem code.

## Findings

| source | as written | input that shows it | evidently intended | confidence | as-written member | corrected member |
|---|---|---|---|---|---|---|
| read_zhongbaodeng_report.py:27 | the filter's lambda returns the tuple `(n, n != 6 and n != 4)`, which is always truthy, so every line, table rows included, is searched for the product type | the single line `权益类` followed by four spaces | lines with 6 or 4 spaces (table rows) are excluded from the search, so the result is "N/A" | high, not executed | ReportReader.FindProdTypeAsWritten, ReportReader.ProdTypeFromTableRow | ReportReader.FindProdType, ReportReader.ProdTypeIgnoresTableRow |
