# A verified model of the quant1 futures back-tester

quant1 is an event-driven back-tester for futures strategies. One engine loop takes
events off a queue:

- Market events go to the strategies. A strategy's `buy`, `sell` and `exit_all` build
  orders.
- Order events go to the broker. The broker checks the order against the account and
  turns it into a fill.
- Fill events go to the fill ledger (`BacktestFill`). The ledger keeps, per instrument, a
  position, margin, commission, average-price, realized and unrealized profit series.
  Account-wide, it keeps a balance and a cash series.
- The ledger also nets fills against the open trades. It keeps resting LIMIT/STOP orders
  and open trades with take-profit, stop-loss and trailing-stop levels. Once per bar it
  checks whether any of those trigger.
- When every feed is exhausted the run ends. The analysis modules then summarise the
  completed trades and the balance curve, and `dict_to_table` lays the summary out as a text table for the log.

This project models that core in Dafny and proves what the code promises about it:

- how an order's prices and type are derived;
- how a fill moves every ledger series;
- how fills are netted against open trades;
- when stops and resting orders trigger;
- how the engine dispatches events;
- what the summary statistics mean.

The modules follow the program's own layout:

| file | module | models |
|---|---|---|
| `wrappers.dfy` | `Wrappers`, `PySeq` | Option/Result, the Python exceptions, list indexing, `pop`, `insert`, `sum`, slicing |
| `series.dfy` | `DataSeries` | the data series (`quant/dataseries.py`, `dataseries.py`) as a class over a store of record lists |
| `orders.dfy` | `Orders` | `OrderData` and `Order` (`quant/order.py`); the store of order objects |
| `ledger.dfy` | `Ledger` | the per-fill formulas of `BacktestFill` (`update_position` … `update_cash`) |
| `account.dfy` | `Accounts` | `update_info` and `update_time_index` as functions on the eight series |
| `fill.dfy` | `Fill` | the `BacktestFill` class: `run_fill`, `update_info`, `update_time_index` |
| `netting.dfy` | `Netting` | `_update_trade_list` and `__to_list`: netting a fill against the open trades |
| `triggers.dfy` | `Triggers` | `check_trade_list` and `check_order_list` |
| `reads.dfy` | `SeriesReads` | reading a series through a fill ledger |
| `broker.dfy` | `Brokers` | `broker.py` |
| `strategy.dfy` | `Strategies` | `quant/strategy.py` |
| `feeds.dfy`, `bars.dfy` | `Feeds`, `Bars` | the feed state the engine reads, `quant/barbase.py` |
| `engine.dfy` | `Engine` | `quant/main.py` |
| `stats.dfy` | `Runs`, `Tallies` | `_subsequence`, and the win/loss counts and gross sums |
| `quant_analysis.dfy` | `QuantAnalysis` | `quant/analysis.py` |
| `trade_log.dfy` | `TradeLog` | `analysis.py` |
| `table.dfy` | `Table` | `dict_to_table.py` |

Modelling conventions:

- Prices, money and lots are `real`.
- Instruments are strings. Python object identity becomes integer references into a
  store.
- A raised exception is an `Err` of `Wrappers.Exc`.
- The queue, the feeds' data source and the clock are parameters of the model.

## Model

| member | source | states |
|---|---|---|
| `PySeq.Resolve` | quant/dataseries.py:15-22 | a Python index resolves exactly when `-n <= i < n`, to the position it names counted from the end when negative |
| `PySeq.At` | quant/dataseries.py:15-22 | `s[i]` exists exactly when `-len <= i < len`, and is `s[i]` or `s[len + i]` |
| `PySeq.RemoveAt` | quant/backtestfill.py:330-331 | `pop(k)` removes element `k` and shifts the later ones down, keeping the rest in order |
| `PySeq.InsertAt` | quant/backtestfill.py:337-339 | `insert(k, x)` puts `x` at `k` and shifts the later ones up |
| `PySeq.PopThenInsert` | quant/backtestfill.py:330-339 | popping element `k` and inserting it back at `k` restores the list |
| `PySeq.SumAppend` | quant/backtestfill.py:172 | `sum` of a list with one more element adds that element |
| `PySeq.SumConcat` | quant/backtestfill.py:255 | `sum` over two lists put together is the sum of the sums |
| `PySeq.ClampBound` | quant/barbase.py:105-124 | a slice bound is clamped into `[0, n]`, a negative one counted from the end |
| `PySeq.Slice` | quant/barbase.py:105-124 | `s[a:b]` is the plain slice for in-range bounds, counts negative bounds from the end, and is never longer than `s` |
| `DataSeries.Values` | quant/dataseries.py:56-58 | `.list` has one value per record, in record order |
| `DataSeries.Dates` | quant/dataseries.py:52-54 | `.date` has one date per record, in record order |
| `DataSeries.Added` | quant/dataseries.py:30-42 | the merging `add`: a write on the previous write's date overwrites the last record's values and keeps its date; a write on another date appends, first discarding the `'start'` placeholder |
| `DataSeries.DroppedPenultimate` | quant/dataseries.py:82-83 | `del_last` removes the second-to-last record and keeps the rest, the last record included |
| `DataSeries.CopiedLast` | quant/dataseries.py:85-88 | `copy_last` appends the last record object again; since it is the same object, both final entries carry the new date and the old values |
| `DataSeries.Column` | quant/dataseries.py:90-97 | the values `total` adds up: one per instrument, in instrument order |
| `DataSeries.ColumnSnoc` | quant/dataseries.py:95-96 | one more loop iteration of `total` adds the next instrument's value, provided its list can be indexed |
| `DataSeries.MergingFirstWriteHasNoPrevious` | quant/dataseries.py:30-42 | as written: the first merging write after `initialize` leaves a single record, so `position[-2]` raises IndexError (finding 1) |
| `DataSeries.AppendKeepsPrevious` | dataseries.py:22-23 | corrected: the appending `add` keeps the previous record, so `[-2]` reads the value before the write |
| `DataSeries.TotalIgnoresPenultimate` | quant/dataseries.py:90-97 | popping a second-to-last record never changes a `[-1]` total |
| `DataSeries.LastIndexable` | quant/dataseries.py:90-97 | a `[-1]` total over non-empty lists never raises |
| `DataSeries.Series.Model` | quant/dataseries.py:7-13 | the store's value is its instrument order and its record lists |
| `DataSeries.Series.Get` | quant/dataseries.py:15-22 | `series[key]`: KeyError for an unknown instrument, IndexError for an index out of range, otherwise the `key`-th value of the current instrument |
| `DataSeries.Series.constructor` | quant/dataseries.py:11-13 | a new series is empty and has no previous write date |
| `DataSeries.Series.Initialize` | quant/dataseries.py:24-25 | the instrument's list becomes a single `'start'` record holding the initial value in every field; other instruments are kept |
| `DataSeries.Series.SetInstrument` | quant/dataseries.py:27-28 | later reads and writes address the given instrument |
| `DataSeries.Series.Add` | quant/dataseries.py:30-42 | a merging store performs the merging write and remembers its date; an appending store appends the record; no other list changes |
| `DataSeries.Series.UpdateCur` | dataseries.py:110-112 | only the current instrument's last realized value is overwritten |
| `DataSeries.Series.DelLast` | quant/dataseries.py:82-83 | the current instrument's second-to-last record is removed, nothing else changes |
| `DataSeries.Series.CopyLast` | quant/dataseries.py:85-88 | the current instrument's list becomes `CopiedLast` of itself |
| `DataSeries.Series.Total` | quant/dataseries.py:90-97 | `total` is the sum over every instrument's `key`-th record, or the first IndexError; with `key == -1` it never fails |
| `Orders.Direction` | quant/order.py:239-241 | `set_order_type` records +1 exactly for `'BUY'` and -1 for anything else |
| `Orders.DataDirection` | quant/order.py:37-42 | `OrderData` records a direction only for `'BUY'` and `'SELL'`, the same one `set_order_type` would |
| `Orders.ResolvePrice` | quant/order.py:44-66 | `'open'`, `'close'` or no price take the bar's close; a points or percent price is applied to the close; any other kind raises SyntaxError |
| `Orders.ModePrice` | quant/order.py:50-54 | in either execution mode the reference price is the current bar's close |
| `Orders.TakeProfit` | quant/order.py:68-82 | no offset gives no level; a negative or unknown offset raises SyntaxError; otherwise the level is on the profitable side of the price (above for a buy, below for a sell) |
| `Orders.StopLoss` | quant/order.py:84-98 | as `TakeProfit`, with the level on the losing side of the price |
| `Orders.InitialTrailingStop` | quant/order.py:100-114 | no trailing offset gives no level, a rejected one raises SyntaxError |
| `Orders.InitialTrailingIsStopLoss` | quant/order.py:100-114 | the initial trailing stop is exactly the stop-loss level for the same offset |
| `Orders.ZeroOffsetAccepted` | quant/order.py:70-96 | a zero offset is accepted and puts take-profit and stop-loss at the order price |
| `Orders.Classify` | quant/order.py:297-306 | CLOSE_ALL keeps its type; otherwise MARKET exactly at the reference price, STOP for a buy above or a sell below it, LIMIT for a buy below or a sell above it |
| `Orders.ClassifySidesMirror` | quant/order.py:301-304 | a buy and a sell at the same price get opposite resting types |
| `Orders.NoDirectionError` | quant/order.py:24-31 | without a direction the first offset given decides: a rejected one raises SyntaxError, an accepted one raises AttributeError when it reads the direction |
| `Orders.Execute` | quant/order.py:266-306 | `execute` keeps the order's id, status, parent and side; it copies the units and the resolved price, takes the given or the order's instrument and the current bar's date, keeps the trailing-stop offset for later updates, sets the take-profit, stop-loss and initial trailing-stop levels from the offsets at that price and side, and classifies against the close; a price that cannot be resolved raises its error; a side other than BUY/SELL raises `NoDirectionError`; for BUY/SELL it raises SyntaxError exactly when one of the three offsets is rejected |
| `Orders.TrailingPrice` | quant/order.py:308-313 | the larger of the two candidates for a buy and the smaller for a sell; nothing for another side |
| `Orders.UpdateTrailingStop` | quant/order.py:315-329 | with no spec the stop is kept; a points spec moves it to `TrailingPrice` of the new candidate; a percent spec raises TypeError, because it multiplies the spec object |
| `Orders.TrailingNeverLoosens` | quant/order.py:308-327 | a trailing stop only tightens: never down for a buy, never up for a sell |
| `Orders.Blank` | quant/order.py:127-151 | a new order has the given id, status CREATED, no parent, and the given side and execute type |
| `Orders.Book.constructor` | quant/order.py:125 | the order store is empty and ids start at 1 |
| `Orders.Book.NextId` | quant/order.py:125-128 | order ids start at 1 and strictly increase |
| `Orders.Book.Alloc` | quant/order.py:127-151 | a new order object gets a reference no existing object has |
| `Orders.Book.NewEvent` | quant/backtestfill.py:418-420 | a copied event gets an identity no earlier event has, and wraps the given order |
| `Orders.Book.Put` | quant/order.py:229-262 | a setter overwrites exactly the one order object it is called on |
| `Ledger.Abs` | quant/backtestfill.py:140 | `abs`: non-negative, and equal to `x` or `-x` |
| `Ledger.NextPosition` | quant/backtestfill.py:60-71 | a LIMIT/STOP fill keeps the position; any other moves it by units × direction |
| `Ledger.BuyThenSellRestores` | quant/backtestfill.py:66-70 | a buy and then a sell of the same units return to the starting position |
| `Ledger.NextMargin` | quant/backtestfill.py:73-87 | a LIMIT/STOP fill keeps the margin; any other recomputes it from the new position at the fill price |
| `Ledger.MarginSign` | quant/backtestfill.py:73-87 | with a positive rate, multiplier and price, the margin has the sign of the position, so long is positive and short negative |
| `Ledger.NextCommission` | quant/backtestfill.py:89-101 | a LIMIT/STOP fill keeps the commission; any other adds units × price × rate × multiplier |
| `Ledger.CommissionGrows` | quant/backtestfill.py:89-101 | with non-negative inputs the running commission never decreases |
| `Ledger.NextAvg` | quant/backtestfill.py:103-140 | the stored average is non-negative; it is 0 when flat, kept for LIMIT/STOP, and the fill price when opening from flat or flipping sides |
| `Accounts.NewAvg` | quant/backtestfill.py:103-140 | the average price a fill records is non-negative: 0 when the new position is flat, the old average for a LIMIT/STOP fill, the fill price when opening from flat |
| `Ledger.MeanBetween` | quant/backtestfill.py:124 | a weighted mean with non-negative weights lies between its two values |
| `Ledger.AddingAveragesBetween` | quant/backtestfill.py:122-139 | adding to a long with a buy, or to a short with a sell, gives an average between the previous average and the fill price |
| `Ledger.ReducingKeepsBasis` | quant/backtestfill.py:125-127 | reducing a long with a sell that stays long keeps the cost of the open units: new average × position = previous cost less the sale proceeds |
| `Ledger.Unrealized` | quant/backtestfill.py:152-160 | the mark is 0 when the average is 0; otherwise it is (price − average) × position × multiplier |
| `Ledger.MarkSign` | quant/backtestfill.py:152-160 | the mark is 0 at the average; a long gains exactly when the price is above the average, a short exactly when it is below |
| `Ledger.MarksBracket` | quant/backtestfill.py:155-160 | a long's high mark ≥ close mark ≥ low mark, and a short's the other way round |
| `Ledger.MarkFactors` | quant/backtestfill.py:158 | the mark is the price difference times position × multiplier |
| `Ledger.ScaleKeepsOrder` | quant/backtestfill.py:158-160 | scaling by a non-negative factor keeps an order, and by a non-positive one reverses it |
| `Ledger.Balance` | quant/backtestfill.py:168-182 | balance − initial cash = realized + unrealized − commission |
| `Ledger.BalanceMonotone` | quant/backtestfill.py:178-180 | a higher unrealized profit never gives a lower balance (why `balance_high >= balance_low` for a long book) |
| `Ledger.Cash` | quant/backtestfill.py:184-191 | cash + total margin = balance |
| `Ledger.RuinByCash` | quant/backtestfill.py:277 | with non-negative margin held, the ruin test `balance <= 0 or cash <= 0` is decided by cash alone |
| `Accounts.Point` | quant/backtestfill.py:71 | the one-value `add` writes the value into the value, high and low fields |
| `Accounts.Replaced` | quant/backtestfill.py:207-213 | an append followed by `del_last` keeps the length and the earlier records and replaces the last one |
| `Accounts.AddThenDelLast` | quant/backtestfill.py:199-213 | appending and then popping the second-to-last record replaces the last record |
| `Accounts.MarkRec` | quant/backtestfill.py:142-166 | a fill's unrealized record marks the new position at the bar's close, high and low |
| `Accounts.Info` | quant/backtestfill.py:193-213 | corrected store (finding 1): `update_info` rewrites the filled instrument's records; it keeps the realized series and keeps the series coupled to one instrument set |
| `Accounts.InfoRewritesLastOnly` | quant/backtestfill.py:199-213 | a fill changes no list's length and no other instrument's list |
| `Accounts.InfoBalances` | quant/backtestfill.py:168-191 | after a fill, cash + total margin = balance, and balance − initial cash = total realized + total unrealized − total commission |
| `Accounts.InfoRestingKeeps` | quant/backtestfill.py:67-115 | a LIMIT/STOP fill keeps position, margin, commission and average price |
| `Accounts.InfoTradeMoves` | quant/backtestfill.py:60-101 | any other fill moves the position by units × direction, sets the margin from the new position and adds the fee to the commission |
| `Accounts.SingleTotal` | quant/dataseries.py:90-97 | over a single instrument, a `[-1]` total is that instrument's last value |
| `Accounts.InfoSingleInstrument` | quant/backtestfill.py:168-182 | with one instrument, the balance after a fill is initial cash + its realized sum + its mark − its commission |
| `Accounts.InfoKeepsOneRecord` | quant/backtestfill.py:193-213 | corrected store (finding 1): every list starts with one record and a fill keeps it at one, so `position[-2]` never exists when the trade list is updated |
| `Accounts.PreviousPosition` | quant/backtestfill.py:295-298 | `position[-2]` is the previous position, or 0 where the index raises IndexError |
| `Accounts.PutRealizedCoupled` | quant/backtestfill.py:303-311 | rewriting a known instrument's realized list keeps the series coupled |
| `Accounts.PutSame` | quant/backtestfill.py:303-311 | writing an instrument's own list back changes nothing |
| `Accounts.Placeholder` | quant/main.py:76-83 | `initialize(inst, v)` makes `inst`'s list the single `'start'` record holding `v`, keeps every other instrument, and adds `inst` to the order |
| `Accounts.InitAll` | quant/main.py:73-83 | `initialize` over the instruments keeps every instrument already in the order and adds every listed one, with a list |
| `Accounts.InitAllPlaceholders` | quant/main.py:73-83 | after initialization every listed instrument holds exactly its placeholder, and other instruments keep their lists |
| `Accounts.InitInst` | quant/main.py:76-81 | the six per-instrument series get `inst`'s zero placeholder, and cash and balance are untouched |
| `Accounts.InitEach` | quant/main.py:73-81 | initializing each instrument in turn keeps the series coupled and leaves cash and balance alone |
| `Accounts.InitEachStep` | quant/main.py:73-81 | one more loop iteration extends the initialized ledger by that instrument |
| `Accounts.Funded` | quant/main.py:82-83 | cash and balance get the initial cash as their `'all'` placeholder |
| `Accounts.AddPosition` | quant/backtestfill.py:60-71 | `update_position` appends one record to the instrument's position list |
| `Accounts.AddMargin` | quant/backtestfill.py:73-87 | `update_margin` appends a margin record and leaves the position alone |
| `Accounts.AddCommission` | quant/backtestfill.py:89-101 | `update_commission` appends a commission record and leaves the position alone |
| `Accounts.AddAvgPrice` | quant/backtestfill.py:103-140 | corrected store (finding 1): `update_avg_price` appends to the average-price list and keeps the ledger shape |
| `Accounts.AddUnrealized` | quant/backtestfill.py:142-166 | `update_unrealized_gain_and_loss` appends to the unrealized list and keeps the ledger shape |
| `Accounts.AddBalance` | quant/backtestfill.py:168-182 | `update_balance` appends a balance under `'all'` and keeps the ledger shape |
| `Accounts.AddCash` | quant/backtestfill.py:184-191 | `update_cash` appends a cash record under `'all'` and keeps the ledger shape |
| `Accounts.Appended` | quant/backtestfill.py:199-205 | corrected store (finding 1): the seven appends of `update_info`, each computed from the series written before it |
| `Accounts.Dropped` | quant/backtestfill.py:207-213 | the seven `del_last` calls of `update_info` |
| `Accounts.PushThenPop` | quant/backtestfill.py:199-213 | appending and then popping the second-to-last record rewrites the last record |
| `Accounts.PushedTotal` | quant/backtestfill.py:173-189 | a total over last records sees an appended record exactly as it sees the rewritten one |
| `Accounts.AppendThenDropIsInfo` | quant/backtestfill.py:193-213 | corrected store (finding 1): the seven appends followed by the seven pops can always be performed, and give exactly `Info` |
| `Accounts.SameKeysCoupled` | quant/backtestfill.py:215-273 | a ledger whose series keep their instruments stays coupled |
| `Accounts.MarkFeed` | quant/backtestfill.py:222-251 | one iteration of `update_time_index`'s loop keeps every series' instruments, and keeps cash, balance and realized |
| `Accounts.MarkFeedFits` | quant/backtestfill.py:222-251 | marking a feed keeps every feed instrument known to the ledger |
| `Accounts.MarkAll` | quant/backtestfill.py:222-251 | the feed loop keeps every series' instruments, and keeps cash, balance and realized |
| `Accounts.MarksFitGrow` | quant/backtestfill.py:222 | a known feed extends a known prefix of the feed list |
| `Accounts.MarkAllSnoc` | quant/backtestfill.py:222-251 | the loop over a prefix plus one feed is the loop over the prefix followed by marking that feed |
| `Accounts.TimeIndex` | quant/backtestfill.py:215-273 | `update_time_index` keeps every series' instruments |
| `Accounts.TimeIndexCoupled` | quant/backtestfill.py:215-273 | a bar update keeps the series coupled and leaves a balance and a cash to read |
| `Accounts.BalanceBooked` | quant/backtestfill.py:253-273 | the tail of `update_time_index` appends balance and cash under `'all'` and keeps every series' instruments |
| `Accounts.TimeIndexBalances` | quant/backtestfill.py:253-273 | after a bar update, cash + total margin = balance, and balance − initial cash = the last feed's realized sum + every mark − that feed's commission |
| `Accounts.MarkFeedEffect` | quant/backtestfill.py:228-251 | marking a feed changes only its own instrument's lists |
| `Accounts.MarkAllUntouched` | quant/backtestfill.py:222-251 | an instrument that no feed trades keeps its lists through the loop |
| `Accounts.MarkAllEffect` | quant/backtestfill.py:222-251 | for feeds of distinct instruments, each instrument's lists end up as marking it at its own feed prescribes |
| `Accounts.TimeIndexKeepsPositions` | quant/backtestfill.py:229-235 | a bar update keeps every instrument's last position and average price |
| `Accounts.MarksStopped` | quant/backtestfill.py:228 | a feed the ledger was not initialized for spoils the whole feed list |
| `Accounts.MarksWhole` | quant/backtestfill.py:222 | the loop over the whole feed list is the loop over its full prefix |
| `Fill.BacktestFill.constructor` | quant/backtestfill.py:10-27 | a new ledger has empty series, 100000 of initial cash, and empty pending, trade and completed lists |
| `Fill.BacktestFill.SetCash` | quant/backtestfill.py:33-34 | `set_cash` replaces the initial cash |
| `Fill.BacktestFill.SetInstrument` | quant/backtestfill.py:36-42 | `set_dataseries_instrument` addresses every per-instrument series to the given instrument |
| `Fill.BacktestFill.InitInstrument` | quant/main.py:76-81 | the six per-instrument series get the instrument's zero placeholder |
| `Fill.BacktestFill.Fund` | quant/main.py:82-83 | cash and balance start at the initial cash under `'all'` |
| `Fill.BacktestFill.UpdatePosition` | quant/backtestfill.py:60-71 | the ledger becomes `AddPosition` of itself |
| `Fill.BacktestFill.UpdateMargin` | quant/backtestfill.py:73-87 | the ledger becomes `AddMargin` of itself |
| `Fill.BacktestFill.UpdateCommission` | quant/backtestfill.py:89-101 | the ledger becomes `AddCommission` of itself |
| `Fill.BacktestFill.UpdateAvgPrice` | quant/backtestfill.py:103-140 | corrected store (finding 1): the ledger becomes `AddAvgPrice` of itself |
| `Fill.BacktestFill.UpdateUnrealized` | quant/backtestfill.py:142-166 | the ledger becomes `AddUnrealized` of itself, marked at the fill's bar |
| `Fill.BacktestFill.UpdateBalance` | quant/backtestfill.py:168-182 | the ledger becomes `AddBalance` of itself |
| `Fill.BacktestFill.UpdateCash` | quant/backtestfill.py:184-191 | the ledger becomes `AddCash` of itself |
| `Fill.BacktestFill.AppendAll` | quant/backtestfill.py:199-205 | corrected store (finding 1): the seven appends give `Appended`, after which the seven pops are possible |
| `Fill.BacktestFill.DelLastAll` | quant/backtestfill.py:207-213 | the seven `del_last` calls give `Dropped` |
| `Fill.BacktestFill.UpdateInfo` | quant/backtestfill.py:193-213 | corrected store (finding 1): `update_info` leaves the ledger at `Info`, so every property proved of `Info` holds of it |
| `Fill.BacktestFill.Record` | quant/backtestfill.py:282-370 | a finished netting walk is written back: trades, orders, completed pairs and the instrument's realized list |
| `Fill.BacktestFill.UpdateTradeList` | quant/backtestfill.py:282-370 | corrected netting walk (finding 2): `_update_trade_list` leaves the trades, orders, completed pairs and realized list at `Settle` of the fill, with the previous position read as `position[-2]` or 0 |
| `Fill.BacktestFill.ToList` | quant/backtestfill.py:372-382 | corrected netting walk (finding 2): `__to_list` parks a LIMIT/STOP fill as pending; any other fill settles the trade list and then rests as a trade while it still has units |
| `Fill.BacktestFill.FileFill` | quant/backtestfill.py:384-388 | corrected store and netting walk (findings 1 and 2): `update_info` and then `__to_list`: the ledger is `Info` of the old one, and the lists are `Listed` with the previous position read after the update |
| `Fill.BacktestFill.RunFill` | quant/backtestfill.py:384-388 | corrected store and netting walk (findings 1 and 2): `run_fill` on an instrument the ledger was not initialized for raises KeyError and changes nothing; otherwise it performs `FileFill`, changing only order units |
| `Fill.BacktestFill.CheckTradeList` | quant/backtestfill.py:390-487 | corrected trailing stop (finding 6): `check_trade_list` leaves orders and the queue as `ScanTradesKept` prescribes for the bar's trailing-stop column, and keeps the trade list |
| `Fill.BacktestFill.CheckOrderList` | quant/backtestfill.py:489-529 | corrected pending scan (findings 3 and 4): `check_order_list` removes every triggered pending order of the instrument, re-prices, dates and tags it, and queues it, as `ScanPendingCorrected` prescribes |
| `Fill.BacktestFill.MarkStep` | quant/backtestfill.py:228-251 | one feed iteration leaves the ledger at `MarkFeed` and the series addressed to the feed |
| `Fill.BacktestFill.MarkNext` | quant/backtestfill.py:222-251 | one loop turn either marks the `j`-th feed, extending `MarkAll`, or stops on an unknown instrument and changes nothing |
| `Fill.BacktestFill.MarkFeeds` | quant/backtestfill.py:222-251 | the feed loop marks a prefix of the feeds; it stops with KeyError exactly at the first feed of an unknown instrument |
| `Fill.BacktestFill.BookBalance` | quant/backtestfill.py:253-280 | the balance and cash are appended, and the account is ruined exactly when the last balance or cash is not positive |
| `Fill.BacktestFill.CloseBar` | quant/backtestfill.py:253-280 | after all feeds are marked the ledger is `TimeIndex`, and ruin is the balance/cash test |
| `Fill.BacktestFill.MarkAndClose` | quant/backtestfill.py:222-280 | with every feed known the ledger is `TimeIndex` and ruin is decided by the new balance and cash; otherwise KeyError and no ruin |
| `Fill.BacktestFill.UpdateTimeIndex` | quant/backtestfill.py:215-280 | no feeds raise IndexError and change nothing; every feed known gives `TimeIndex` with the ruin test; an unknown feed raises KeyError |
| `Netting.Booked` | quant/backtestfill.py:303-311 | `get_re_profit` appends the profit under the fill's date; when the record before carries the same date the two merge into one record holding their sum |
| `Netting.Profit` | quant/backtestfill.py:303-304 | the realized profit of a closed lot is 0 at the trade price; for positive units and multiplier it is a gain exactly when a long trade is closed higher or a short one lower |
| `Netting.BookedSum` | quant/backtestfill.py:303-311 | every booking raises the realized total by exactly the booked profit |
| `Netting.ReduceTrade` | quant/backtestfill.py:329-339 | a resting trade larger than the fill is reduced by the fill's units and kept at its index; one pair is recorded and the fill's units drop to 0 |
| `Netting.RemoveTrade` | quant/backtestfill.py:341-345 | a resting trade no larger than the fill is removed and its units are taken off the fill; one pair is recorded |
| `Netting.Net` | quant/backtestfill.py:324-345 | as written, the walk advances its index after a removal; it keeps the walk well formed |
| `Netting.NetAppendsPairs` | quant/backtestfill.py:332-343 | the walk only appends completed pairs, each carrying the fill |
| `Netting.NetSkipsAfterRemoval` | quant/backtestfill.py:324-345 | as written: a BUY of 2 against two SELL trades of 1 removes the first, steps over the second, and leaves 1 unit of the fill and the second trade open (finding 2) |
| `Netting.NetCorrected` | quant/backtestfill.py:324-345 | corrected: the walk holds its index after a removal and keeps the walk well formed |
| `Netting.NetCorrectedSettles` | quant/backtestfill.py:324-370 | corrected: netting ends with the fill used up, or with no resting trade left that it could net against |
| `Netting.RemoveKeepsSettled` | quant/backtestfill.py:341-345 | removing a matching trade at a held index keeps the trades before it settled |
| `Netting.NetCorrectedUnfold` | quant/backtestfill.py:324-345 | one step of the corrected walk: skip a non-matching trade, stop on a used-up fill, otherwise reduce or remove |
| `Netting.NetCorrectedRemoves` | quant/backtestfill.py:341-345 | a removing step of the corrected walk continues at the same index |
| `Netting.NetCorrectedVisitsAll` | quant/backtestfill.py:324-345 | corrected: the example that shows finding 2 nets the fill against both trades and uses it up |
| `Netting.NetCorrectedFirstTrade` | quant/backtestfill.py:341-345 | in that example the first step removes the first trade and leaves the fill one unit |
| `Netting.NetCorrectedLastTrade` | quant/backtestfill.py:341-345 | in that example the second step removes the last trade and uses the fill up |
| `Netting.NetCorrectedAppendsPairs` | quant/backtestfill.py:332-343 | the corrected walk also only appends pairs carrying the fill |
| `Netting.ReduceTradeSpelled` | quant/backtestfill.py:329-339 | `ReduceTrade` is the loop body's pop, reduce, book, zero and re-insert |
| `Netting.ReduceStep` | quant/backtestfill.py:329-339 | the loop body for a larger trade performs exactly `ReduceTrade` |
| `Netting.RemoveStep` | quant/backtestfill.py:341-345 | the loop body for a smaller trade performs exactly `RemoveTrade` |
| `Netting.NetWalk` | quant/backtestfill.py:324-370 | the netting loop, step by step on the lists, ends at `NetCorrected` |
| `Netting.CloseParent` | quant/backtestfill.py:314-319 | an exit fill's loop keeps the walk well formed and books no realized profit |
| `Netting.CloseWalk` | quant/backtestfill.py:314-319 | the parent-closing loop, step by step, ends at `CloseParent` |
| `Netting.CloseParentExact` | quant/backtestfill.py:314-319 | with distinct events, closing removes exactly the parent trade, records exactly one pair and zeroes the fill |
| `Netting.CloseParentAbsent` | quant/backtestfill.py:314-319 | with no parent trade from the index on, nothing but the index changes |
| `Netting.Settle` | quant/backtestfill.py:282-370 | corrected netting walk (finding 2): `_update_trade_list` closes an exit's parent, nets a BUY while short or a SELL while long, and keeps the walk well formed |
| `Netting.StepOnlyUnits` | quant/backtestfill.py:333-345 | one step of either walk changes orders only in their units |
| `Netting.ReduceOnlyUnits` | quant/backtestfill.py:333-335 | reducing a trade changes orders only in their units |
| `Netting.NetCorrectedOnlyUnits` | quant/backtestfill.py:324-370 | the corrected walk changes orders only in their units |
| `Netting.CloseParentOnlyUnits` | quant/backtestfill.py:314-319 | closing a parent changes orders only in their units |
| `Netting.SettleOnlyUnits` | quant/backtestfill.py:282-370 | settling changes no order's identity, id, price or side, only its units |
| `Netting.SettleFlatKeeps` | quant/backtestfill.py:321-348 | a non-exit fill made while flat nets nothing and books nothing |
| `Netting.Listed` | quant/backtestfill.py:372-382 | corrected netting walk (finding 2): `__to_list` keeps the walk well formed |
| `Netting.ListedOnlyUnits` | quant/backtestfill.py:372-382 | filing a fill changes orders only in their units |
| `Netting.ListedKeepsOrders` | quant/backtestfill.py:372-382 | filing keeps every order's reference and id, and every listed event still refers to a stored order |
| `Netting.ListedParks` | quant/backtestfill.py:376-377 | a LIMIT/STOP fill goes to the pending list and changes nothing else |
| `Netting.ListedClosesParent` | quant/backtestfill.py:314-319 | an exit fill whose parent rests removes exactly that trade, records one pair and, with 0 units, is not appended |
| `Netting.ListedFlatAppends` | quant/backtestfill.py:379-382 | a non-resting, non-exit fill made while flat is appended to the trades when it has units |
| `Triggers.TradeTrigger` | quant/backtestfill.py:435-487 | LIMIT/STOP trades never trigger; any trigger is an armed take-profit, stop-loss or trailing stop at its own level; nothing triggers exactly when no armed level is hit |
| `Triggers.TakeProfitHit` | quant/backtestfill.py:451-454 | on a bar with low <= high, a buy's take-profit is hit exactly when it is below the high and not at the low, a sell's exactly when it is above the low and not at the high; other sides only strictly inside the bar |
| `Triggers.StopLossHit` | quant/backtestfill.py:464-467 | a buy's stop-loss is hit exactly when it is below the high, a sell's exactly when it is above the low; other sides only strictly inside the bar |
| `Triggers.TrailingHit` | quant/backtestfill.py:477-480 | on a bar with low <= high, a buy's trailing stop is hit exactly when it is above the low and not at the high, a sell's exactly when it is below the high and not at the low; other sides only strictly inside the bar |
| `Triggers.StopLossWinsConflict` | quant/backtestfill.py:439-446 | with both levels inside the bar the stop-loss is chosen, and a take-profit fires only when that conflict is absent |
| `Triggers.Opposite` | quant/backtestfill.py:402-405 | a closing order takes the other side: SELL for a BUY trade and BUY for anything else |
| `Triggers.Closing` | quant/backtestfill.py:399-410 | `set_take_stop`: the closing copy takes the other side and direction, drops all three levels, is dated today, priced and typed by the trigger, and keeps units, parent, instrument and id |
| `Triggers.ClosingReversesDirection` | quant/backtestfill.py:399-405 | a closing order runs in the opposite direction to its trade |
| `Triggers.CheckTrade` | quant/backtestfill.py:417-487 | trades of another instrument, with no levels, or dated today are skipped; an unarmed trailing stop is kept; a closing order is parented to the trade and dated today |
| `Triggers.CheckTradeNeverLoosens` | quant/backtestfill.py:429-432 | for a buy with a points trailing spec, the updated stop is never below the old one |
| `Triggers.ScanTrades` | quant/backtestfill.py:417-487 | as written, each trade is tested on a copy, so the updated trailing stop is dropped; at most one closing order per trade |
| `Triggers.KeepStep` | quant/backtestfill.py:417-487 | corrected step: the updated trailing stop is written back, and a closing order is stored and queued; no stored order is dropped |
| `Triggers.ScanTradesKept` | quant/backtestfill.py:417-487 | corrected scan: once a trailing-stop update has raised, the scan stays stopped |
| `Triggers.KeepStepBooks` | quant/backtestfill.py:418-420 | a step keeps every reference below the next one and every id in range; a closing order carries its trade's id |
| `Triggers.ScanTradesKeptBooks` | quant/backtestfill.py:417-487 | the kept scan drops no order and keeps references and ids in range |
| `Triggers.ScanTradesKeptQueued` | quant/backtestfill.py:410 | every event the kept scan queues wraps a stored order |
| `Triggers.Ratchet` | quant/order.py:315-322 | a buy's running trailing stop is at least its start and at least every price less the offset |
| `Triggers.Trail95` | quant/backtestfill.py:430-432 | the example order is a buy with a trailing stop at 95 |
| `Triggers.TrailingDroppedAsWritten` | quant/backtestfill.py:418-432 | as written: after the price reaches 120 the stop is 115, but the next bar at 110 computes 105 from the stale 95 (finding 6) |
| `Triggers.TrailingKeptCorrected` | quant/backtestfill.py:418-432 | corrected: with the stop written back, the second bar keeps 115, the running ratchet |
| `Triggers.PendingCorrected` | quant/backtestfill.py:503-529 | corrected test chain: a buy-stop or buy-limit fills at the open when the open has passed its price, sells mirrored; otherwise an order fills at its own price strictly inside the bar; no fill means the price is outside the bar |
| `Triggers.PendingAgree` | quant/backtestfill.py:507-529 | the as-written test keeps exactly what the chain keeps, and fires at the chain's price; the only difference is the second firing |
| `Triggers.PendingAsWritten` | quant/backtestfill.py:507-529 | as written (finding 3): a pending order fires twice exactly when it is a buy-STOP below an open that lies strictly inside the bar, at the open; a single firing is at the open or at its own price strictly inside the bar; other sides never fire, and an order kept has its price outside the bar |
| `Triggers.BuyStopFiresTwice` | quant/backtestfill.py:508-517 | as written: a buy-stop at 100 on a bar opening at 101 inside (99, 103) is triggered twice, so the second removal raises ValueError (finding 3) |
| `Triggers.Fired` | quant/backtestfill.py:493-501 | `set_event`: the order keeps its side, direction, units, instrument and id, and is priced, dated today and tagged as triggered |
| `Triggers.FireAt` | quant/backtestfill.py:493-501 | a triggered order is removed at its index, updated and queued |
| `Triggers.ScanPending` | quant/backtestfill.py:503-529 | as written, the scan over the shrinking list keeps the scan well formed |
| `Triggers.ScanPendingCorrected` | quant/backtestfill.py:503-529 | corrected: every order is tested once with the corrected chain; the scan stays well formed |
| `Triggers.ScanPendingCorrectedBooks` | quant/backtestfill.py:493-501 | the corrected scan adds and drops no order and keeps every id |
| `Triggers.ScanPendingCorrectedQueued` | quant/backtestfill.py:501 | every queued event wraps a stored order |
| `Triggers.ScanPendingCorrectedComplete` | quant/backtestfill.py:503-529 | corrected: after the scan no pending order of the instrument would trigger on this bar |
| `Triggers.FireKeepsUntriggered` | quant/backtestfill.py:493-494 | firing at the index keeps the orders before it untriggered and the list's objects distinct |
| `Triggers.ScanPendingSkips` | quant/backtestfill.py:503-517 | as written: two buy-limits at 100 on a bar opening at 99 trigger only the first; the corrected scan triggers both (finding 4) |
| `SeriesReads.Read` | quant/dataseries.py:15-22 | `series[k]` on a ledger store: KeyError for an unknown instrument, IndexError out of range, otherwise the `k`-th record's value counted from the end when negative |
| `Brokers.CheckBefore` | broker.py:67-80 | the cash read is the left operand, so its failure raises first, then a failing margin read; an exempt execute type passes; any other passes exactly when the last cash exceeds the requirement |
| `Brokers.CheckAfter` | broker.py:82-84 | `check_after` always passes |
| `Brokers.Settled` | broker.py:111-115 | an accepted order becomes PENDING exactly for LIMIT and STOP, and FILLED otherwise |
| `Brokers.ExecutedIsExempt` | broker.py:72-80 | every type `execute` assigns is in the exempt list, so the broker never tests cash for such an order |
| `Brokers.ExemptIgnoresCash` | broker.py:77-80 | an exempt order passes on any two readable ledgers, whatever their cash |
| `Brokers.MoreCashStillPasses` | broker.py:78-79 | a non-exempt order that passes with some cash still passes with more |
| `Brokers.Broker.constructor` | broker.py:9-12 | a new broker has the given ledger, no order event and notification off |
| `Brokers.Broker.Check` | broker.py:67-80 | the check on the current order succeeds exactly when the cash and the instrument's margin can be read |
| `Brokers.Broker.ChangeStatus` | broker.py:86-92 | only the status of the wrapped order object changes |
| `Brokers.Broker.SubmitOrder` | broker.py:62-65 | a new fill event wraps the same order object |
| `Brokers.Broker.Start` | broker.py:94-100 | a read failure raises; a passing order becomes SUBMITTED; a failing one is left as it was |
| `Brokers.Broker.Next` | broker.py:105-117 | an order that passes is settled by `Settled` and exactly one fill event is queued for it; otherwise nothing is queued and no order changes |
| `Brokers.Broker.RunBroker` | broker.py:46-50 | `start`, `prenext`, `next`: an accepted order ends PENDING or FILLED with one fill event queued; a rejected one queues nothing and changes no order |
| `Feeds.Feed.constructor` | quant/feedbase.py:14-33 | a new feed has an empty current bar and history, nothing loaded, continues the back-test, and has not skipped |
| `Feeds.Feed.LoadOnce` | quant/feedbase.py:135-136 | the reader's rows become the bars still to deliver |
| `Feeds.Feed.GetNewBar` | quant/feedbase.py:185-224 | the next row replaces the current bar; once the rows are exhausted the feed stops the back-test and the current bar stays |
| `Feeds.Feed.Next` | quant/feedbase.py:148-153 | the first call only records the skip; a later one appends the current bar to the history and emits a market event, or raises TypeError before any bar arrived |
| `Feeds.Feed.Load` | quant/main.py:97-100 | `start`, `prenext` and `next` in turn: the bar advances or the feed stops, and a market event is emitted exactly when a bar was there to record |
| `Feeds.Feed.SetPerComm` | quant/feedbase.py:35-36 | the commission rate is set |
| `Feeds.Feed.SetPerMargin` | quant/feedbase.py:38-39 | the margin rate is set |
| `Feeds.Feed.SetUnits` | quant/feedbase.py:41-42 | the contract size is set |
| `Feeds.Feed.SetLots` | quant/main.py:204 | the lots are set |
| `Feeds.Feed.SetExecuteMode` | quant/feedbase.py:53-54 | the execute mode is set |
| `Feeds.Feed.SetTrailingMode` | quant/feedbase.py:56-57 | the trailing-stop column is set |
| `Feeds.Feed.SetBufferDays` | quant/feedbase.py:50-51 | the buffer days are set |
| `Bars.CurrentBar.constructor` | quant/barbase.py:16-17 | the current-bar list starts as the single slot 0 |
| `Bars.CurrentBar.AddNewBar` | quant/barbase.py:19-33 | the new bar replaces slot 0; the list never grows |
| `Bars.CurrentBar.CurData` | quant/barbase.py:35-37 | the current bar, or TypeError while the slot still holds 0 |
| `Bars.CurrentBar.Cur` | quant/barbase.py:47-61 | `cur_open` … `cur_close` read one column of the current bar, failing exactly when `cur_data` does |
| `Bars.CurrentBar.CurDate` | quant/barbase.py:43-45 | `cur_date` is the current bar's date, failing exactly when `cur_data` does |
| `Bars.NormalisedBounds` | quant/barbase.py:106-119 | unless both bounds are truthy the slice is the whole history; two negative bounds are shifted by the length; otherwise the bounds are used as given |
| `Bars.Project` | quant/barbase.py:121 | one value of the selected column per bar, in order |
| `Bars.BarStore.constructor` | quant/barbase.py:89-92 | a new bar store has an empty history for its instrument and no column selected |
| `Bars.BarStore.Initialize` | quant/barbase.py:97-99 | every history is forgotten |
| `Bars.BarStore.Combine` | quant/barbase.py:101-103 | `dict.update`: the other store's histories are merged in and win on shared instruments; the rest are kept |
| `Bars.BarStore.SetInstrument` | quant/barbase.py:133-134 | later reads and appends address the given instrument |
| `Bars.BarStore.AddNewBar` | quant/barbase.py:136-137 | the bar is appended to the current instrument's history only |
| `Bars.BarStore.Select` | quant/barbase.py:155-177 | `open`/`high`/`low`/`close` select the column a view returns |
| `Bars.BarStore.GetSlice` | quant/barbase.py:105-122 | a slice succeeds exactly for a known instrument with a column selected, and is the projected normalised slice of its history |
| `Bars.BarStore.GetIndex` | quant/barbase.py:123-124 | an index reads the close of that bar, whatever column was selected: KeyError for an unknown instrument, and failure exactly out of range |
| `Engine.Histories` | quant/main.py:91-93 | the feeds' histories, one per feed, in list order |
| `Engine.MergedKeys` | quant/main.py:87-93 | the combined bar holds exactly the instruments of the feeds' histories |
| `Engine.MergedLast` | quant/main.py:91-93 | an instrument's combined history is that of the last feed holding it |
| `Engine.Merged` | quant/main.py:87-93 | combining the histories keeps every instrument of every history, and the last history's bars win for its instruments |
| `Engine.Repeated` | quant/main.py:111 | `feed_list.count(feed) > 1` holds exactly when the feed also stands at another position |
| `Engine.FileOn` | quant/main.py:63-64 | corrected store and netting walk (findings 1 and 2): `run_fill` as the loop sees it: KeyError exactly for an unknown instrument, leaving the ledger; otherwise the ledger is `Info` of the old one with the realized records `Listed` files for the fill (`Ledgered`) |
| `Engine.Consult` | quant/main.py:54-55 | corrected exit_all sides (finding 5): `strategy(event).run_strategy()` keeps the ledger consistent and only adds orders; the queued signals, the exception, the book and the ledger's current instrument are exactly `TurnOf` of the book and instrument before; an exception queues nothing, and every queued signal wraps a stored order |
| `Engine.CheckFeed` | quant/main.py:116-118 | corrected pending scan (findings 3 and 4): checking one feed's trades and then its pending orders keeps the ledger consistent and only adds orders; the events queued, the exception, the book and the pending list left are exactly `FeedChecked` of the ones before, and every queued event wraps a stored order |
| `Engine.FeedChecked` | quant/main.py:116-118 | corrected pending scan (findings 3 and 4): the trade check and then, unless it raised, the pending check on the book it left; the trade and pending lists still refer to stored orders, the book only gains orders, and a raising trade check leaves the pending list as it was |
| `Engine.FeedCheckedQueued` | quant/main.py:116-118 | every event one feed's checks queue wraps an order of the book they leave |
| `Engine.FeedPass` | quant/main.py:116-118 | a feed whose current bar cannot be read raises and changes nothing; otherwise its checks run and keep the lists filed, and the book only gains orders |
| `Engine.Pass` | quant/main.py:114-118 | corrected pending scan (findings 3 and 4): the feeds in list order, each on the book the one before left, until one raises; the book only gains orders, and a pass that does not raise read a bar from every feed |
| `Engine.PassQueued` | quant/main.py:114-118 | every event a pass queues is an order event of a feed whose bar was read, wrapping an order the final book holds |
| `Engine.PassStops` | quant/main.py:114-118 | once a feed's turn has raised, the later feeds change nothing |
| `Engine.PassLoaded` | quant/main.py:114-118 | on the feeds themselves: every queued event belongs to a feed whose bar has arrived, and a pass that does not raise means every feed is loaded |
| `Engine.Probes` | quant/main.py:116-118 | one probe per feed, in list order: its current bar or the error reading it, its instrument and its trailing-stop column |
| `Engine.Plans` | quant/main.py:54-55 | one list of calls per strategy class, in list order, each that class's calls on the event |
| `Engine.ConsultAll` | quant/main.py:54-55 | corrected exit_all sides (finding 5): the strategy classes in turn keep the ledger consistent and only add orders; the signals queued, the exception, the book and the ledger's current instrument are exactly those of `Turns` |
| `Engine.CheckProbe` | quant/main.py:116-118 | corrected pending scan (findings 3 and 4): one feed's turn keeps the ledger consistent; its events, exception, book and pending list are exactly those of `FeedPass` |
| `Engine.CheckFeeds` | quant/main.py:116-118 | corrected pending scan (findings 3 and 4): the loop over the feeds keeps the ledger consistent; its events, exception, book and pending list are exactly those of `Pass` |
| `Engine.WiredGrown` | quant/main.py:114-118 | the engine's wiring, with every queued event dispatchable, survives a book that only gains orders |
| `Engine.LoadRows` | quant/main.py:73-74 | `load_once` gives each feed its reader's rows |
| `Engine.Prepare` | quant/main.py:73-83 | the ledger part of `__initialization`: zero placeholders for every instrument in list order, then cash and equity at the initial cash |
| `Engine.Combined` | quant/main.py:87-93 | a new bar store holding the merged histories of the feeds |
| `Engine.CollectMarks` | quant/backtestfill.py:222-226 | the per-feed reads of `update_time_index`: each feed's current bar and contract parameters, or TypeError exactly when some feed has no bar yet |
| `Engine.TimeOn` | quant/main.py:104 | the ledger's bar update: IndexError without feeds, KeyError for an unknown feed, otherwise a consistent ledger and the ruin test |
| `Engine.StopEach` | quant/backtestfill.py:278-279 | a ruined account stops every feed |
| `Engine.BookBar` | quant/backtestfill.py:276-280 | after the bar update, a ruined account has stopped every feed |
| `Engine.CountIn` | quant/main.py:111 | `feed_list.count(f)` is the number of times the feed object is listed |
| `Engine.CheckRepeats` | quant/main.py:108-112 | with more than one feed, SyntaxError is raised exactly when a feed object is listed twice |
| `Engine.ExecuteEach` | quant/main.py:153-159 | every feed gets the execute mode |
| `Engine.TrailEach` | quant/main.py:161-167 | every feed gets the trailing-stop column |
| `Engine.BufferEach` | quant/main.py:169-172 | every feed gets the buffer days |
| `Engine.ContractEach` | quant/main.py:199-204 | the feeds the instrument applies to get the four contract parameters; the others keep theirs |
| `Engine.Quant.constructor` | quant/main.py:19-25 | a new engine has no feeds or strategies and an empty queue |
| `Engine.Quant.CheckFinished` | quant/main.py:126-129 | the run is finished exactly when no feed continues |
| `Engine.Quant.Push` | quant/main.py:31-33 | events go to the back of the queue |
| `Engine.Quant.Pop` | quant/main.py:33 | `events.get` takes the front event |
| `Engine.Quant.LoadFeed` | quant/main.py:97-100 | loading one feed adds at most its market event to the queue |
| `Engine.Quant.LoadAllFeeds` | quant/main.py:95-100 | every feed loads in list order, and the market events are queued in feed order |
| `Engine.Quant.DispatchMarket` | quant/main.py:51-55 | corrected exit_all sides (finding 5): the strategy classes run in turn until one raises; the queue before is kept and gains exactly the signals of `Turns` as signal events of the event's feed, and the exception, the book and the ledger's current instrument are those of `Turns` |
| `Engine.Quant.DispatchSignal` | quant/portfolio.py:10-16 | a signal becomes an order event wrapping the same order, at the back of the queue |
| `Engine.Quant.DispatchOrder` | quant/main.py:60-61 | an order the broker accepts queues one fill event of the same feed; a rejected one queues nothing; a read failure raises |
| `Engine.Quant.DispatchFill` | quant/main.py:63-64 | corrected store and netting walk (findings 1 and 2): a fill event is filed by `run_fill` against its feed's current bar: KeyError exactly for an unknown instrument, leaving the ledger; otherwise the ledger becomes `Ledgered` of the old state, and the engine stays consistent |
| `Engine.Quant.Refill` | quant/main.py:35-48 | on an empty queue every feed loads and only market events are queued |
| `Engine.Quant.Dispatch` | quant/main.py:50-64 | the front event is taken and dispatched by its type; the rest of the queue is kept in front of the new events |
| `Engine.Quant.Turn` | quant/main.py:31-68 | one pass of the loop: the end of the run is tested only after a dispatched event, and an end means no feed continues |
| `Engine.Quant.Initialization` | quant/main.py:70-85 | each feed loads its rows, the ledger gets its placeholders and the initial cash, and a new bar merges the feeds' histories |
| `Engine.Quant.Setup` | quant/main.py:75-85 | the ledger placeholders and the combined bar, once the feeds have loaded |
| `Engine.Quant.CombineAllFeeds` | quant/main.py:87-93 | a new bar store holding the feeds' histories merged in list order |
| `Engine.Quant.SetExecuteMode` | quant/main.py:153-159 | every feed gets the execute mode |
| `Engine.Quant.SetTrailingStopPrice` | quant/main.py:161-167 | every feed gets the trailing-stop column |
| `Engine.Quant.SetBuffer` | quant/main.py:169-172 | every feed gets the buffer days |
| `Engine.Quant.SetBacktest` | quant/main.py:174-189 | feeds and strategies are appended, a new broker and ledger are made, and every feed executes and trails at the open with 10 buffer days |
| `Engine.Quant.Attach` | quant/main.py:176-186 | the list part of `set_backtest`: single items become lists of one, and the ledger starts empty with 100000 of cash |
| `Engine.Quant.SetCommission` | quant/main.py:191-204 | the feeds of the instrument, or all feeds when none is named, get the four parameters; the others keep theirs |
| `Engine.Quant.SetCash` | quant/main.py:206-208 | the ledger's initial cash is set |
| `Engine.Quant.UpdateTimeIndex` | quant/main.py:102-112 | TypeError before any bar; IndexError without feeds; KeyError for an unknown feed; otherwise a consistent ledger, every feed stopped on ruin, and SyntaxError for a repeated feed |
| `Engine.Quant.CheckPendingOrder` | quant/main.py:114-118 | corrected pending scan (findings 3 and 4): each feed's trades and then pending orders are checked; the queue before is kept and gains exactly the order events of `Pass` over what the feeds show, and the exception, the book and the pending list are those of `Pass`; it raises whenever a feed has no bar yet |
| `Engine.Quant.Run` | quant/main.py:27-68 | `__initialization`, then passes of the loop; an ended run has no feed left continuing |
| `Engine.Quant.Passes` | quant/main.py:31-68 | at most `fuel` passes of the loop; an ended run has no feed left continuing |
| `Strategies.Signal` | quant/strategy.py:90 | the order is stored under a fresh reference and exactly one signal event wrapping it, of the order's side and units, is appended; the order id counter is untouched |
| `Strategies.PlaceStep` | quant/strategy.py:74-108 | a placement always consumes one order id; it raises exactly when executing the fresh order with the arguments fails or `position[-1]` cannot be read; otherwise one signal of the given side for the lots asked is appended, and on an error nothing but the id changes |
| `Strategies.TwiceStep` | quant/strategy.py:263-265 | two placements append two signals of the side when neither raised, use at most two order ids, only ever extend the signal list, and leave at most the first signal when the second raises |
| `Strategies.BuyStep` | quant/strategy.py:300-309 | `buy` raises the error of an unreadable `position[-1]` before building an order; it only ever extends the signal list, uses at most one order id, and an exception leaves the signal list as it was |
| `Strategies.SellStep` | quant/strategy.py:311-320 | `sell` raises the error of an unreadable `position[-1]` before building an order; it only ever extends the signal list, uses at most one order id, and an exception leaves the signal list as it was |
| `Strategies.BuyEvenStep` | quant/strategy.py:257-276 | `buy_even_and_open` raises the error of an unreadable `position[-1]` before building an order; it only ever extends the signal list, uses at most two order ids, and keeps at most one new signal when it raises |
| `Strategies.SellEvenStep` | quant/strategy.py:278-298 | `sell_even_and_open` raises the error of an unreadable `position[-1]`, and then of an unreadable `position[-2]`, before building an order; it only ever extends the signal list, uses at most two order ids, and keeps at most one new signal when it raises |
| `Strategies.ExitAllAsWritten` | quant/strategy.py:173-194 | as written (finding 5): `exit_all` always uses one order id, even when flat or raising; it appends at most one signal, none when it raises, and an unreadable `position[-1]` raises its error |
| `Strategies.ExitAllStep` | quant/strategy.py:173-194 | corrected sides (finding 5): `exit_all` always uses one order id, even when flat or raising; it appends at most one signal, none when it raises, and an unreadable `position[-1]` raises its error |
| `Strategies.CallStep` | quant/strategy.py:206-211 | corrected exit_all sides (finding 5): one call of the user's `next` only ever extends the signal list |
| `Strategies.ProcessStep` | quant/strategy.py:228-242 | corrected exit_all sides (finding 5): `__process` keeps the signals the calls made; it raises exactly when a call raised something other than `Warning` or `IndexError`, and then that exception |
| `Strategies.BuyGate` | quant/strategy.py:300-309 | `buy` does nothing when long, and otherwise appends exactly one buy signal for the lots asked |
| `Strategies.SellGate` | quant/strategy.py:311-320 | `sell` does nothing when short, and otherwise appends exactly one sell signal for the lots asked |
| `Strategies.BuySellOverlapOnlyFlat` | quant/strategy.py:300-320 | flat, both `buy` and `sell` emit; long or short, exactly one of them does |
| `Strategies.BuyEvenGate` | quant/strategy.py:257-276 | `buy_even_and_open` does nothing when long, appends two buy signals when short and one when flat |
| `Strategies.SellEvenGate` | quant/strategy.py:278-298 | `sell_even_and_open` raises when `position[-2]` cannot be read, does nothing when short, and otherwise emits the mirror image of `buy_even_and_open` |
| `Strategies.ExitAllAsWrittenRaises` | quant/strategy.py:173-194 | with a non-flat position, `exit_all` as written raises `AttributeError` and appends no signal, having consumed one order id |
| `Strategies.ExitAllCloses` | quant/strategy.py:173-194 | `exit_all` with the intended sides emits nothing when flat; otherwise exactly one CLOSE_ALL signal for the absolute position, on the side opposite to the position |
| `Strategies.RunStops` | quant/strategy.py:228-242 | once a call of `next` raised, the later calls change nothing |
| `Strategies.RunExtends` | quant/strategy.py:206-211 | the calls of `next` only ever append to the signal list |
| `Strategies.ProcessKeepsEarlier` | quant/strategy.py:228-242 | the signals appended before an exception survive it: the list after the first calls that raised nothing is a prefix of the list `__process` leaves |
| `Strategies.FirstCloseAll` | quant/strategy.py:217-220 | finds the first CLOSE_ALL signal, with none before it, or reports that there is none |
| `Strategies.Survivors` | quant/strategy.py:217-220 | without a CLOSE_ALL signal the list is unchanged; with one, at most that signal survives, and only when it is for a non-zero number of units |
| `Strategies.ForInstrument` | quant/strategy.py:221-223 | the queued signals are no more than the list holds |
| `Strategies.ForInstrumentMembers` | quant/strategy.py:221-223 | a signal is queued exactly when it is in the list and for the strategy's instrument |
| `Strategies.ForInstrumentConcat` | quant/strategy.py:221-223 | queuing keeps list order: the queue of a concatenation is the queues of its parts in turn |
| `Strategies.CallStepStored` | quant/strategy.py:206-211 | one call of `next` keeps every signal wrapping a stored order |
| `Strategies.RunStored` | quant/strategy.py:228-242 | the calls of `next` together keep every signal wrapping a stored order |
| `Strategies.TurnOf` | quant/strategy.py:244-255 | corrected exit_all sides (finding 5): `strategy(event).run_strategy()` on values: a failing `position[-1]` read in `__init__` raises with nothing queued and the book as it was; otherwise the ledger's instrument becomes the market's; an exception queues nothing; the book only gains orders and every kept signal wraps one of them |
| `Strategies.TurnQueued` | quant/strategy.py:221-223 | a turn queues a signal exactly when nothing escaped, the signal survived `__prestop`, and its order is for the market's instrument |
| `Strategies.Turns` | quant/main.py:54-55 | corrected exit_all sides (finding 5): the strategies of one market event, each on the book the one before left, stop at the first exception; the book only gains orders |
| `Strategies.TurnsQueued` | quant/main.py:54-55 | every signal the strategies of an event queue wraps an order the book holds at the end |
| `Strategies.TurnsStop` | quant/main.py:54-55 | once a strategy has raised, the later strategies of the event change nothing |
| `Strategies.Strategy.constructor` | quant/strategy.py:12-27 | a strategy starts with an empty signal list on the given ledger and market event |
| `Strategies.Strategy.Place` | quant/strategy.py:74-108 | `buy_base` / `sell_base` on the book and signal list are exactly `PlaceStep`, and keep the book consistent |
| `Strategies.Strategy.PlaceTwice` | quant/strategy.py:263-265 | two placements on the book are exactly `TwiceStep` |
| `Strategies.Strategy.Buy` | quant/strategy.py:300-309 | `buy` on the book is exactly the step `BuyGate` is about |
| `Strategies.Strategy.Sell` | quant/strategy.py:311-320 | `sell` on the book is exactly the step `SellGate` is about |
| `Strategies.Strategy.BuyEvenAndOpen` | quant/strategy.py:257-276 | `buy_even_and_open` on the book is exactly the step `BuyEvenGate` is about |
| `Strategies.Strategy.SellEvenAndOpen` | quant/strategy.py:278-298 | `sell_even_and_open` on the book is exactly the step `SellEvenGate` is about |
| `Strategies.Strategy.ExitAll` | quant/strategy.py:173-194 | corrected exit_all sides (finding 5): `exit_all` (intended sides) on the book is exactly the step `ExitAllCloses` is about |
| `Strategies.Strategy.PlaceExit` | quant/strategy.py:184-194 | the closing order of `exit_all` is executed and signalled as `ExitOrder` says |
| `Strategies.Strategy.Perform` | quant/strategy.py:206-211 | corrected exit_all sides (finding 5): one call of `next` on the book is exactly `CallStep` |
| `Strategies.Strategy.Process` | quant/strategy.py:228-242 | corrected exit_all sides (finding 5): `__process` on the book is exactly `ProcessStep` |
| `Strategies.Strategy.Prestop` | quant/strategy.py:213-223 | the signal list is cut down as `Survivors` says and the queue is the survivors for the strategy's instrument, in order |
| `Strategies.Strategy.RunStrategy` | quant/strategy.py:244-255 | corrected exit_all sides (finding 5): a failing `position[-1]` read in the constructor raises before anything changes; otherwise the ledger points at the strategy's instrument, an exception let through by `__process` queues nothing, and a clean run queues the `__prestop` survivors |
| `Runs.TrailingRun` | quant/analysis.py:686-705 | the run of the symbol that ends the sequence is a run, and the element before it is a different symbol |
| `Runs.TrailingRunMaximal` | quant/analysis.py:686-705 | no run reaching the end is longer than the trailing run |
| `Runs.LongestRunBounds` | quant/analysis.py:686-705 | no run of the symbol anywhere is longer than the longest run |
| `Runs.LongestRunAttained` | quant/analysis.py:686-705 | some run of the symbol is exactly as long as the longest run |
| `Runs.LongestRunZero` | quant/analysis.py:686-705 | the longest run is 0 exactly when the symbol does not occur |
| `Runs.Subsequence` | quant/analysis.py:686-705 | `_subsequence`'s one-pass loop returns the length of the longest run of the symbol, at most the length of the input and 0 exactly when the symbol is absent |
| `Tallies.SignOf` | quant/analysis.py:396-447 | a result is a win, a loss or even exactly when it is positive, negative or zero |
| `Tallies.CountOf` | analysis.py:171-183 | a count of results of one sign is at most the number of results, and 0 exactly when no result has that sign |
| `Tallies.CountsPartition` | analysis.py:166-183 | the winning, losing and even counts add up to the number of trades |
| `Tallies.CountConcat` | quant/analysis.py:396-447 | counting over two lists put together is counting over each and adding (the long and the short counts make the total) |
| `Tallies.GrossGain` | quant/analysis.py:270-279 | the sum of the positive results is never negative, and 0 exactly when no result is positive |
| `Tallies.GrossDrain` | quant/analysis.py:288-297 | the sum of the negative results is never positive, and 0 exactly when no result is negative |
| `Tallies.NetIsGainPlusDrain` | analysis.py:106-118 | the net of all results is the gross gain plus the gross loss |
| `Tallies.Fractions` | quant/analysis.py:450-483 | two counts out of a positive number of trades give ordered fractions in [0, 1] |
| `Tallies.Share` | analysis.py:186-190 | a count out of a positive number of trades is a fraction in [0, 1], equal to 1 exactly when every trade counted |
| `Tallies.PositiveRatio` | quant/analysis.py:300-306 | a positive gross profit over a positive gross loss is a positive factor that scales the loss back to the profit |
| `Tallies.NegatedRatio` | analysis.py:121-127 | a positive gross profit over a negative gross loss, negated, is a positive factor that scales the loss's magnitude back to the profit |
| `QuantAnalysis.Int` | quant/analysis.py:302-304 | `int` truncates toward zero: 0 exactly on (-1, 1), and the result lies within 1 of the value on the side of 0 |
| `QuantAnalysis.Peak` | quant/analysis.py:54-58 | the peak is one of the values and no value exceeds it |
| `QuantAnalysis.HighWaterMarks` | quant/analysis.py:54-58 | an empty curve raises KeyError at `equity[0]`; otherwise one mark per point, each the peak of the equity so far, never below the equity and never falling |
| `QuantAnalysis.PeakGrows` | quant/analysis.py:54-58 | the peak of a longer prefix is at least the peak of a shorter one |
| `QuantAnalysis.Quotient` | quant/analysis.py:921 | a float quotient is finite exactly when the divisor is non-zero, and then scales the divisor back to the dividend |
| `QuantAnalysis.Lowest` | quant/analysis.py:918 | the lowest value is one of the values and no value is below it |
| `QuantAnalysis.RiskRate` | quant/analysis.py:912-922 | an empty curve raises IndexError; otherwise the rate is finite exactly when the first equity is non-zero, and then it scales the first equity to the shortfall of the lowest equity below it |
| `QuantAnalysis.RiskRateFraction` | quant/analysis.py:912-922 | with a positive first equity and no negative equity the risk rate is in [0, 1], and 0 exactly when the equity never falls below its start |
| `QuantAnalysis.ScaledBelow` | quant/analysis.py:921 | a factor scaling a positive amount to a part of it lies in [0, 1] and is 0 exactly when the part is |
| `QuantAnalysis.Count` | quant/analysis.py:396-447 | a count of trades of one sign is at most the long and the short trades together |
| `QuantAnalysis.ProfitTradesRate` | quant/analysis.py:450-455 | 0 with no trade, and never negative |
| `QuantAnalysis.SideRate` | quant/analysis.py:458-471 | 0 with no trade on the side; otherwise a fraction in [0, 1], equal to 1 exactly when every trade of the side won |
| `QuantAnalysis.AtMostWhole` | quant/analysis.py:474-483 | a part no larger than a positive whole is at most 1 of it |
| `QuantAnalysis.WinningRate` | quant/analysis.py:474-483 | 0 with no trade, and otherwise at most 1 |
| `QuantAnalysis.RatesOfSplitTrades` | quant/analysis.py:450-483 | when every trade is long or short, the winning rate counts the winners and the even trades, and 0 <= profit rate <= winning rate <= 1 |
| `QuantAnalysis.GrossProfit` | quant/analysis.py:264-279 | the gross profit is never negative |
| `QuantAnalysis.GrossLoss` | quant/analysis.py:282-297 | the gross loss, as a positive amount, is never negative |
| `QuantAnalysis.ProfitFactor` | quant/analysis.py:300-306 | 0 exactly when the gross profit truncates to 0, `'+0'` exactly when it does not but the gross loss does, and otherwise a positive factor scaling the loss back to the profit |
| `QuantAnalysis.ProfitFactorByOutcomes` | quant/analysis.py:300-306 | no winning trade gives 0; winners with no losing trade give `'+0'` |
| `QuantAnalysis.NewHighs` | quant/analysis.py:216-219 | the days recorded are exactly the days whose equity is a new strict high above 0 |
| `QuantAnalysis.HighDays` | quant/analysis.py:216-219 | at most one day per point, and every day listed is the day of a new strict high above 0 |
| `QuantAnalysis.WidestGap` | quant/analysis.py:221-228 | `max` raises ValueError exactly when no gap between consecutive highs is positive; otherwise the result is the first pair with the widest gap |
| `QuantAnalysis.NotReachingHigh` | quant/analysis.py:208-233 | fewer than two highs raise ValueError; otherwise the first and last day of the first widest stretch between consecutive new highs |
| `QuantAnalysis.BarsBetween` | quant/analysis.py:173 | the bars between two days are no more than all the bars |
| `QuantAnalysis.TradeBars` | quant/analysis.py:142-176 | the loop over the trade log computes exactly the round-trip walk `Walk` |
| `QuantAnalysis.RoundTripBars` | quant/analysis.py:142-176 | on alternating open and flat rows every pair is one round trip, giving one length per pair |
| `QuantAnalysis.FilteredOpensNeverCount` | quant/analysis.py:158-166 | with the winning or losing filter, open rows carrying no realized profit never open a trade, so no length is ever recorded |
| `QuantAnalysis.TestLog` | tests/test_analysis.py:12-18 | the test's trade log has twelve rows of alternating opens and closes |
| `QuantAnalysis.TestSecondCallAsWritten` | tests/test_analysis.py:21-23 | with the frame unchanged by the discarded `drop`, the second call returns six lengths, never the expected five |
| `QuantAnalysis.TestSecondCallCorrected` | tests/test_analysis.py:21-23 | with the first two rows really dropped, the second call returns the first call's lengths without the first: five of them |
| `TradeLog.Units` | analysis.py:60 | the traded units are the smaller of the two orders' units, and one of them |
| `TradeLog.RowOf` | analysis.py:53-68 | a trade-log row carries the entry's date, price and side and the exit's date, price and type; its units are the smaller of the two orders' units; a pair closed at its entry price gains no points and no profit |
| `TradeLog.Nets` | analysis.py:72 | one net result per row |
| `TradeLog.Profits` | analysis.py:65 | one realized profit per row |
| `TradeLog.Commissions` | analysis.py:67-68 | one commission per row |
| `TradeLog.Totals` | analysis.py:72 | one running total per row |
| `TradeLog.ColumnsAt` | analysis.py:56-72 | entry `i` of each column is that field of row `i` |
| `TradeLog.Cumul` | analysis.py:72 | one running sum per value |
| `TradeLog.CumulAt` | analysis.py:72 | running sum `i` is the sum of the first `i + 1` values |
| `TradeLog.CumulSteps` | analysis.py:72 | each running sum is the previous one plus the next value |
| `TradeLog.CreateTradeLog` | analysis.py:47-75 | an empty list of completed pairs raises KeyError (the frame has no `re_profit` column); otherwise one row per completed pair, each the pair's row up to its running total, and the running totals are the running sums of the net results |
| `TradeLog.CumulTotals` | analysis.py:72 | stamping the running totals changes nothing else in the rows, and the totals are the running sums of the net results |
| `TradeLog.CumulStep` | analysis.py:72 | stamping one more row with the total so far plus its own net keeps the totals the running sums |
| `TradeLog.NetsStep` | analysis.py:72 | the net results of one row more are those before plus its own |
| `TradeLog.Snoc` | analysis.py:72 | one row more adds its net result and its running total at the end of the columns |
| `TradeLog.CumulSnoc` | analysis.py:72 | one value more adds its running sum at the end |
| `TradeLog.NetsIgnoreTotals` | analysis.py:72 | rows differing only in their running totals have the same net results |
| `TradeLog.NetsSplit` | analysis.py:65-72 | the sum of the net results is all realized profits less all commissions |
| `TradeLog.TotalNetProfit` | analysis.py:106-108 | an empty log raises IndexError; otherwise the last row's running total |
| `TradeLog.TotalNetProfitOfLog` | analysis.py:106-108 | on a log `create_trade_log` built, the total net profit is all realized profits less all commissions |
| `TradeLog.ProfitSign` | analysis.py:65 | with positive units and multiplier, a trade's realized profit is positive exactly when the price moved the way the entry bet |
| `TradeLog.MarkIsPeak` | analysis.py:34-41 | the high-water mark at `t` is at least 0 and every equity from index 1 to `t`, and is 0 or one of them |
| `TradeLog.Drop` | analysis.py:42 | a drawdown is never negative |
| `TradeLog.DurationMeaning` | analysis.py:43 | the duration at `t` counts the bars since the last zero drawdown, and is NaN exactly when no drawdown since index 1 was zero |
| `TradeLog.Highest` | analysis.py:44 | the largest present entry of a column, skipping NaN; none exactly when every entry is NaN |
| `TradeLog.Drawdowns` | analysis.py:36-42 | one drawdown cell per point, each the drawdown at that point |
| `TradeLog.Durations` | analysis.py:37-43 | one duration cell per point, each the duration at that point |
| `TradeLog.DurationStep` | analysis.py:43 | a duration is 0 at a zero drawdown and otherwise the previous one plus 1, NaN staying NaN |
| `TradeLog.FillColumns` | analysis.py:34-43 | the loop fills the two fresh columns in place with exactly the drawdown and duration columns |
| `TradeLog.CreateDrawdowns` | analysis.py:26-44 | the largest drawdown and longest duration of the columns; both NaN with fewer than two points, and the largest drawdown is otherwise never negative |
| `TradeLog.Mark` | analysis.py:34-40 | the high-water mark is never negative and, from index 1 on, at least the equity at that point |
| `TradeLog.DrawdownAt` | analysis.py:36-41 | the drawdown column is NaN exactly at index 0; elsewhere it is non-negative and at least the fall from every earlier equity since index 1 |
| `TradeLog.DurationAt` | analysis.py:36-42 | the duration column is NaN at index 0, 0 wherever the drawdown is 0, and always fewer than the index |
| `TradeLog.PctProfitable` | analysis.py:186-190 | 0 with no trade, always between 0 and 100, and 100 exactly when every trade won |
| `TradeLog.Factor` | analysis.py:121-127 | 0 with no profit, 1000 with profit and no loss, otherwise a positive factor scaling the loss's magnitude to the profit |
| `TradeLog.ProfitFactor` | analysis.py:121-127 | 0 with no winning trade, 1000 with winners and no losing trade, otherwise a positive factor scaling the gross loss's magnitude to the gross profit |
| `Table.Repeat` | dict_to_table.py:12 | `n` copies of the character |
| `Table.PadRight` | dict_to_table.py:16 | the padded text starts with the text, and is exactly the width when the text fits |
| `Table.PadLeft` | dict_to_table.py:17 | the padded text ends with the text, and is exactly the width when the text fits |
| `Table.KeyWidth` | dict_to_table.py:7 | an empty dictionary raises ValueError; otherwise the length of the longest key, which every key fits |
| `Table.ValueWidth` | dict_to_table.py:9 | an empty dictionary raises ValueError; otherwise the length of the longest value text, which every value fits |
| `Table.Border` | dict_to_table.py:11-12 | the border is six characters wider than the two columns, `#` at both ends and dashes between |
| `Table.Cell` | dict_to_table.py:16-17 | formatting raises TypeError exactly for a value that refuses a width; otherwise a value that fits is padded to the width |
| `Table.Row` | dict_to_table.py:15-18 | a row raises TypeError exactly for a value that refuses a width |
| `Table.RowLayout` | dict_to_table.py:15-18 | a row of fitting key and value is one character wider than the border, with the key after `'| '`, the second `'| '` after the key's column, a string left- and a number right-aligned in its column, and `' |'` and the newline last |
| `Table.JoinLength` | dict_to_table.py:20 | joining strings of one width gives their number times that width |
| `Table.JoinConcat` | dict_to_table.py:20 | joining two lists of strings one after the other is joining their concatenation |
| `Table.JoinSplit` | dict_to_table.py:20 | a join is the join of the first parts followed by the join of the rest |
| `Table.JoinFirst` | dict_to_table.py:20 | a join starts with its first part |
| `Table.JoinAround` | dict_to_table.py:20 | a join is the parts before `j`, part `j` and the parts after it, in order |
| `Table.Rows` | dict_to_table.py:13-18 | the loop yields one row per entry, in order, exactly when every value accepts a width, and raises TypeError otherwise |
| `Table.RowTexts` | dict_to_table.py:13-18 | the row texts of a dictionary whose values all accept a width: one per entry, each the formatted row of that entry |
| `Table.TableSizeIs` | dict_to_table.py:20-21 | a table of `n` rows under a border `w` wide is `(n + 2) * (w + 1) - 1` characters |
| `Table.RowWidths` | dict_to_table.py:15-18 | rows of fitting entries are all one character wider than the border |
| `Table.Assembled` | dict_to_table.py:20-21 | border, newline, the rows and the border again make a framed table: the right length, the border first and last, a newline after the first |
| `Table.TableLine` | dict_to_table.py:20-21 | line `j + 1` of the table is row `j`, starting after the border line and the `j` rows before it |
| `Table.Laid` | dict_to_table.py:7-21 | the rows of a non-empty dictionary between two borders make a framed table: the right length, the border first and last |
| `Table.DictToTable` | dict_to_table.py:5-22 | an empty dictionary raises ValueError and a value refusing a width raises TypeError; otherwise the table is exactly the border, a newline, the entries' rows in order and the border, so it is framed by the border with two lines more than entries |

## Left out

- Engine.Quant.UpdateTimeIndex: states the error cases, a consistent ledger, the ruin stop and the repeated-feed check, but not the new ledger as a function of the old one; `Fill.BacktestFill.UpdateTimeIndex` states that equation (`TimeIndex`), and restating it at the engine level makes every later step of the engine's proofs too costly to check.
- Engine.TimeOn: weaker in the same way: consistency, the error cases and the ruin test, without the ledger equation.
- Engine.BookBar: states only that a ruined account has stopped every feed, not the records the bar update adds.
- Accounts.Info, Accounts.InfoKeepsOneRecord, Accounts.AddAvgPrice, Accounts.Appended, Accounts.AppendThenDropIsInfo: the ledger's series append a record per write (finding 1's corrected store, `DataSeries.AppendKeepsPrevious`) instead of merging a write into a record of the same date as quant/dataseries.py:30-42 does; the merging store itself is modelled (`DataSeries.Series`) but the ledger does not use it.
- Fill.BacktestFill.UpdateAvgPrice, Fill.BacktestFill.AppendAll, Fill.BacktestFill.UpdateInfo: run on that appending store (finding 1), not on the merging one.
- Netting.Settle, Netting.Listed: net the fill with the walk that holds its index after removing a trade (finding 2's `Netting.NetCorrected`); the skipping walk of quant/backtestfill.py:324-345 is `Netting.Net`.
- Fill.BacktestFill.UpdateTradeList, Fill.BacktestFill.ToList: settle with that corrected walk (finding 2).
- Fill.BacktestFill.FileFill, Fill.BacktestFill.RunFill, Engine.FileOn, Engine.Quant.DispatchFill: file fills on the appending store with the corrected walk (findings 1 and 2).
- Fill.BacktestFill.CheckTradeList: writes the moved trailing stop back to the trade's order (finding 6's correction); as written the stop is moved on a copy and lost.
- Strategies.Survivors: the source tests `signal.lots == 0` (quant/strategy.py:219), and the event's `lots` property reads `Order.lots` (quant/event.py:34-35), which `Order` does not define, so as written a CLOSE_ALL signal makes `__prestop` raise AttributeError; the model tests the order's units.
- Engine.Quant.SetCommission: the feed class in quant/feedbase.py defines no `set_lots`, so as written the call raises AttributeError on the first matching feed, after its commission, margin and units are set; the model's feed stores the lots (`Feeds.Feed.SetLots`).
- Strategies.PlaceStep: `buy_base`, `sell_base` and `exit_all` pass `lots=` to `Order.execute`, whose parameter is named `units` (quant/strategy.py:82-88, quant/order.py:266), which Python rejects with TypeError; the model passes the lots as the units.
- Multiplier: only `update_time_index` reads the feed's `mult` (quant/backtestfill.py:232, 241-243), which only `set_mult` sets and `set_commission` never calls; the fill-time formulas read `fill_event.mult` (quant/backtestfill.py:86, 99, 158-160, 304), which the event classes (quant/event.py:8-160) do not define; the model takes the contract size `units` that `set_commission` does set as the multiplier everywhere, the intended flow.
- Orders.Blank, Orders.Book.Alloc: `Order.__init__` reads `market_event.mult` (quant/order.py:138), which `MarketEvent` (quant/event.py:167-179) does not set, so as written every order construction raises AttributeError; the model builds the order, the intended flow.
- Feeds.Feed.Next, Feeds.Feed.Load: `MarketEvent.__init__` reads `feed.slippage` (quant/event.py:178), which no feed defines (quant/feedbase.py:14-33), so as written every market event raises AttributeError; the model emits the market event without a slippage, the intended flow.
- Fill.BacktestFill.constructor: quant/backtestfill.py:23 builds `dataseries.BalanceSeries()`, which quant/dataseries.py does not define, so as written the ledger's constructor raises AttributeError; the model builds the balance series like the other series, the intended flow.
- Strategies.Strategy.constructor: quant/strategy.py:27 reads `market_event.fill.equity`, which the ledger does not have, so as written every strategy construction raises AttributeError; the model leaves that series out, the intended flow.
- DataSeries.CopiedLast, DataSeries.Series.CopyLast: `copy_last` appends the same record object again (quant/dataseries.py:85-88), so a later `copy_last` re-dates every alias of it (on `[A]` and the dates d1 then d2 the source holds three records dated d2); the value model re-dates only the last two entries. Its only caller, `update_time_index`, is unreachable from the loop (see Engine.Quant.Refill).
- Fill.BacktestFill.CheckOrderList, Engine.CheckFeed, Engine.FeedChecked, Engine.Pass, Engine.CheckProbe, Engine.CheckFeeds, Engine.Quant.CheckPendingOrder: run the corrected pending scan `Triggers.ScanPendingCorrected` (findings 3 and 4); as written (quant/backtestfill.py:503-529, `Triggers.ScanPending`) the scan skips the order after a triggered one, and a buy-STOP whose open lies strictly inside the bar raises ValueError.
- Strategies.Strategy.ExitAll, Strategies.CallStep, Strategies.ProcessStep, Strategies.Strategy.Perform, Strategies.Strategy.Process, Strategies.Strategy.RunStrategy, Strategies.TurnOf, Strategies.Turns, Engine.Consult, Engine.ConsultAll, Engine.Quant.DispatchMarket: run `exit_all` with the intended sides `Strategies.ExitAllStep` (finding 5); as written (quant/strategy.py:176-183, `Strategies.ExitAllAsWritten`) the sides give the order no direction, so `exit_all` on a non-flat position raises AttributeError.
- Equity: `__initialization` initialises an `equity` series the ledger does not have (quant/main.py:83); the model initialises the account-wide `balance` series, the one `update_balance` writes.
- Engine.Quant.SetCash: only the initial cash is modelled; calling `set_cash` after `__initialization` does not re-fund the cash and balance series, here as in the source.
- Engine.Quant.Run: the `while True` loop is bounded by a `fuel` number of passes and reports `OutOfFuel` when it runs out; whether a run ends depends on the feeds' data, which the model does not bound.
- Engine.Quant.SetBacktest: requires an empty event queue and feeds whose current bars and histories are distinct objects; the source's queue is a module-level global that a fresh process starts empty.
- Engine.Quant.LoadAllFeeds: requires an empty queue, the only state in which the loop calls `__load_all_feed`.
- Engine.Quant.Refill: `__update_time_index` and `__check_pending_order` are unreachable from the loop, because `Current_bar` holds exactly one bar and the loop needs two; the two operations are modelled and proved on their own.
- Engine.Quant.DispatchMarket: the market event carries the index of its feed; `__pass_to_market` hands the ledger to the portfolio, broker and event, which the model's objects already share.
- Engine.Quant.DispatchSignal: `quant/portfolio.py` is not part of this model beyond its pass-through of the signal's order.
- Strategies.Strategy.RunStrategy: a strategy's `next` is a list of calls (`buy`, `sell`, `buy_even_and_open`, `sell_even_and_open`, `exit_all`, or raising an exception) chosen from the market event; arbitrary user code is not modelled.
- Indicators: `__set_indicator` and `quant/indicator.py` (talib and `eval`) are not part of this model.
- Object identity: `signal.instrument is self.instrument` and the ledger's `is` date tests are modelled as equality of instrument strings and dates.
- Broker notification: `notify` only prints, so the model keeps the flag and not the output.
- Feeds: reading the CSV files, parsing dates and the start/end date window of `get_new_bar` are file I/O; a feed is given the rows it delivers, already cut to the window, as a map from feed to bars. The buffer days are stored but the preloading they drive is not modelled.
- Fill.BacktestFill.CheckTradeList: the bare `except:` that turns any exception inside the trigger tests into SyntaxError (quant/backtestfill.py:486-487) is not modelled, because those tests only compare prices and build the closing order, which cannot fail in the model; a failing trailing-stop update, which comes before the `try`, raises its own error.
- Logging: every `logger` call is left out.
- Rounding: `round` of the trade-log units (3 places), of the drawdown and duration maxima (5 and 3 places) and of the drawdown columns (2 and 4 places) is not modelled; values are exact reals.
- QuantAnalysis: the percentage column `pct` and the CSV file of `create_drawdowns`, and the date strings `strftime` makes for `duration_of_equity_not_reaching_high`, are left out; days are integers.
- QuantAnalysis.Count: the realized series' `.df` is taken to hold the same values as its `.list`.
- QuantAnalysis.TradeBars: `int(position)` is taken to be 0 exactly for a flat position, and `ohlc_data[open_date:close_date]` is the bars whose day lies between the two dates.
- Runs.Subsequence: `max_consecutive_winning_trades` and `max_consecutive_losing_trades` only call `_subsequence` on the `re_profit > 0` flags with `True` and `False`; the losing streak as written counts even trades too.
- Float statistics: Sharpe and Sortino ratios, annualised and compound return rates, averages, largest trades, time in the market, the trading period and the other figures of `quant/analysis.py` and `analysis.py` use square roots, powers, standard deviations, timestamps and rolling windows, and are not part of this model.
- Outputs: `__output_summary`, `get_analysis`, plotting and the `stats()` assembly are file writing and UI.
- Table.DictToTable: the source logs the table and returns None; the model returns the table text.
- Table.Cell: values are classified by how `format` pads them (numbers right, strings left, anything else raising TypeError); Python's `bool`, which formats as an integer but prints as `True`, is not singled out, and a zero width, which Python reads as a zero-padding flag, pads nothing.
- Concurrency: the threaded event engine of `backtest_demo.py` is not part of this model.

## Findings

| source | as written | input that shows it | evidently intended | confidence | as-written member | corrected member |
|---|---|---|---|---|---|---|
| quant/dataseries.py:30-42 | the first write of a new date discards the `'start'` placeholder, so after the first fill the position list holds one record and `position[-2]` (quant/backtestfill.py:109) raises IndexError | a ledger initialised with position 0 and one fill dated day 1 | the previous position is readable on every fill, as with the appending store of `dataseries.py` | not executed | `DataSeries.MergingFirstWriteHasNoPrevious` | `DataSeries.AppendKeepsPrevious` |
| quant/backtestfill.py:324-345 | removing a fully netted trade while the `for` loop iterates over `_trade_list` skips the trade after it | a BUY of 2 lots against two resting SELL trades of 1 lot each: the second trade stays open and the fill keeps 1 lot | every resting opposite trade is netted until the fill is used up | not executed | `Netting.NetSkipsAfterRemoval` | `Netting.NetCorrectedVisitsAll` |
| quant/backtestfill.py:508-517 | a triggered buy-STOP falls through to the `elif` of the LIMIT test, which tests the (now open) price against the bar and removes the order a second time, raising ValueError | a buy-STOP at 100 on a bar opening at 101 with low 99 and high 103 | the three buy tests are exclusive, so the order triggers once at the open | not executed | `Triggers.BuyStopFiresTwice` | `Triggers.PendingCorrected` |
| quant/backtestfill.py:503-529 | removing a triggered order while the `for` loop iterates over `_order_list` skips the order after it | two buy-LIMIT orders at 100 on a bar opening at 99: only the first triggers | every pending order is tested against the bar | not executed | `Triggers.ScanPendingSkips` | `Triggers.ScanPendingCorrectedComplete` |
| quant/strategy.py:176-183 | `exit_all` sets the sides `'Buy'` and `'Sell'`, which give the order no direction, so executing it raises AttributeError | any non-zero position | the sides `'BUY'` and `'SELL'`, closing the position | not executed | `Strategies.ExitAllAsWrittenRaises` | `Strategies.ExitAllCloses` |
| quant/backtestfill.py:418-432 | the trailing stop is moved on a copy of the trade's order and never written back, so each bar starts again from the original stop | a BUY at 100 with a 5-point trailing stop (95): close 120 moves it to 115, then close 110 gives 105 | the stop ratchets across bars: 115 after both bars | not executed | `Triggers.TrailingDroppedAsWritten` | `Triggers.TrailingKeptCorrected` |
| tests/test_analysis.py:21-23 | `trade_log.drop([0, 1])` returns a new frame that is discarded, so the second call sees all twelve rows and returns six lengths, not the five asserted | the test's own trade log | the first two rows removed (and the frame renumbered), giving the first call's lengths without the first | not executed | `QuantAnalysis.TestSecondCallAsWritten` | `QuantAnalysis.TestSecondCallCorrected` |
