# Backtest ledger and strategies, modelled in Dafny

This project models the core of a single-instrument trading backtest engine written in Rust. There are three parts:

- **The account ledger** (`src/account.rs`). It holds spendable cash, a map from instrument code to position, and an append-only list of transactions. `buy` checks the cash and then moves a volume-weighted cost basis. `sell` checks the sellable (settled) volume and resets the cost basis to 0 when the position empties. `on_price_change` marks one position to market.
- **The bar-driven strategy** (`src/strategy/k_strategy.rs`). Once per bar it refreshes the sellable volume at a new session (a gap of more than 12 hours). When flat it buys into a price range. When holding it averages down by buying twice the holding, then liquidates above a price or trims at a profit target. Every bar ends by marking to market.
- **The tick-driven strategy** (`src/strategy/tick_strategy.rs`). Each quote passes a cooldown gate and a depth gate. A flat strategy opens on a tight spread. A holding strategy closes on stop-loss or take-profit.

Each part is written twice, and the two are proved to agree:

- **On values.** The state is a datatype: `AccountState`, `KState` or `TState`. Each operation of the source is a function (`Bought`, `Sold`, `Marked`, `Refreshed`, `Entered`, `Reentered`, `ProfitChecked`, `BarProcessed`, `OpenedLong`, `OpenedShort`, `Closed`, `CloseChecked`, `TickProcessed`). The contracts of these functions state what the source promises.
- **Imperatively.** Classes `Account`, `KStrategy` and `TickStrategy` have the source's fields and one method per source function. Each method ends with the same state as its function.

Replay functions (`BarReplay`, `TickReplay`) define the states a sequence of market events reaches, which is what the driving loop in the tests does. Lemmas by induction carry the invariants across any such sequence.

Behaviour of the code that a reader may not expect:

- `on_price_change` **overwrites** `shi_zhi` with the market value of the one position being marked. It does not keep a sum over positions. After two instruments are bought and marked, `balance` is 999,900 (`SecondMarkOverwritesShiZhi`). The program's own test, tests/AccountTest.rs:55-57, expects a portfolio value of 300 and a balance of 1,000,000 at that point; src/account.rs:118 does not produce that.
- The cost basis is not kept non-negative. A partial sell whose turnover exceeds the position's volume × cost drives it below zero (`NegativeCostIff`, `CostBasisCanTurnNegative`).
- The tick strategy's "short" entry issues a **buy** at the best bid and records a position of minus one lot. Its close is always a sell. This asymmetry is modelled as written.
- The tick strategy never makes shares sellable: buys do not raise `available_vol`, and only the bar strategy's session refresh does. So a position the tick strategy opens on an account with less than one lot sellable can never be closed (`NoCloseWithoutAvailability`).

Files: `model.dfy` (module `Model`, the records), `account.dfy` (module `Ledger`), `k_strategy.dfy` (module `BarDriven`), `tick_strategy.dfy` (module `TickDriven`).

## Model

| member | source | states |
|---|---|---|
| `Ledger.WithPosition` | src/strategy/k_strategy.rs:69 | lookup-or-insert: afterwards the code is held, its position is the old one or a zeroed one, no other position or field changes, consistency is kept |
| `Ledger.WithPositionIdempotent` | src/strategy/k_strategy.rs:69 | a second lookup-or-insert of the same code changes nothing |
| `Ledger.BuyPosition` | src/account.rs:49-55 | volume grows by the order volume, availability untouched, and new volume × new cost = old volume × old cost + turnover |
| `Ledger.Bought` | src/account.rs:37-69 | fills iff turnover ≤ available balance; a rejected buy changes nothing; a fill lowers the available balance by exactly the turnover, changes only that code's position, keeps its availability, appends one transaction with the positive volume and the post-trade volume and cost, and conserves available balance + volume × cost; consistency is kept |
| `Ledger.SellPosition` | src/account.rs:89-99 | volume and availability both drop by the order volume; the cost becomes exactly 0 when nothing is left, otherwise new volume × new cost = old volume × old cost − turnover |
| `Ledger.Sold` | src/account.rs:72-112 | fills iff the code is held and 0 < volume ≤ available volume; a rejection changes nothing; a fill raises the available balance by the turnover, appends one transaction with the negated volume, resets the cost to 0 on an emptied position and otherwise conserves available balance + volume × cost; 0 ≤ available ≤ volume is kept |
| `Ledger.Marked` | src/account.rs:115-121 | unknown code: no change; held code: only its current price changes, `shiZhi` becomes that one position's market value, and balance = available + shiZhi + frozen |
| `Ledger.NegativeCostIff` | src/account.rs:90-95 | a partial sell leaves a negative cost basis if and only if its turnover exceeds the position's volume × cost |
| `Ledger.CostBasisCanTurnNegative` | src/account.rs:90-95 | holding 100 at cost 1, selling 90 at 2 fills and leaves a cost basis of −8 |
| `Ledger.SecondMarkOverwritesShiZhi` | src/account.rs:115-121 | buying 100 and then 200 of two codes at 1.0 from 1,000,000, marking each: the second mark gives shiZhi 200 and balance 999,900 |
| `Ledger.Account.constructor` | src/account.rs:5-32 | a new account has the given balances, zero frozen cash and market value, no positions and no transactions, and is consistent |
| `Ledger.Account.GetPosition` | src/strategy/k_strategy.rs:69 | moves the fields as `WithPosition` and returns the held position |
| `Ledger.Account.Buy` | src/account.rs:37-69 | reports and moves the fields exactly as `Bought`; keeps consistency |
| `Ledger.Account.Sell` | src/account.rs:72-112 | reports and moves the fields exactly as `Sold`; keeps consistency |
| `Ledger.Account.OnPriceChange` | src/account.rs:115-121 | moves the fields exactly as `Marked` |
| `Ledger.Account.CancelOrder` | src/account.rs:124-127 | returns no transaction and modifies nothing |
| `BarDriven.Refreshed` | src/strategy/k_strategy.rs:67-75 | afterwards the code is held; in a new session (gap > 43,200 s) its available volume becomes its volume, otherwise it is unchanged; nothing else changes; returns the held volume |
| `BarDriven.Entered` | src/strategy/k_strategy.rs:77-93 | outside the entry range nothing happens; inside it the account is that of a buy of `baseVolume` at the close, and `basePosition` becomes `baseVolume` exactly when that buy filled |
| `BarDriven.Reentered` | src/strategy/k_strategy.rs:95-116 | no change unless close ≤ cost × (1 − pct); then the account is that of a buy of exactly twice the holding, which triples it on a fill; `buyTimes` grows by 1 iff a transaction was appended |
| `BarDriven.ProfitChecked` | src/strategy/k_strategy.rs:118-163 | no position: no change; above the liquidation price: a sell of all of `available_vol`, resetting `tStopProfit` only on a fill and leaving nothing sellable; else at the profit target with sellable > base position: a trim sell of sellable − base − buyTimes × baseVolume, setting `basePosition` to the remaining volume only on a fill; else no change; `buyTimes` untouched |
| `BarDriven.Traded` | src/strategy/k_strategy.rs:52-57 | the flat branch or the re-entry and profit branch: at most two transactions, only appended; a strategy counter changes only together with a new transaction; when flat, no re-entry is counted and at most one order fills |
| `BarDriven.BarProcessed` | src/strategy/k_strategy.rs:49-65 | one bar keeps consistency and the parameters, sets `lastBarTime` to the bar's time, raises `buyTimes` by at most 1, keeps `tStopProfit` at its initial value, marks the code at the close with balance = available + shiZhi + frozen, leaves the other instruments alone and only appends to the log; counters change only with a fill; within a session the code's sellable volume never grows, and in a new session a liquidating bar without re-entry sells the whole holding, because the session refresh settles it first |
| `BarDriven.BarReplayInvariant` | src/strategy/k_strategy.rs:49-65 | over any sequence of bars: consistency, fixed parameters, non-decreasing `buyTimes` (at most one per bar), `tStopProfit` equal to its initial value, other instruments untouched, an append-only log of at most two transactions per bar |
| `BarDriven.EntryThenReentry` | src/strategy/k_strategy.rs:77-111 | range [4.1, 4.46], base 2000: a close of 4.2 buys 2000; a close of 4.116 in the next session buys 4000 more, leaving 6000 shares and `buyTimes` = 1 |
| `BarDriven.KStrategy.constructor` | src/strategy/k_strategy.rs:35-47 | zero counters and `lastBarTime`, with `initTStopProfit` = `tStopProfit` = the given stop profit |
| `BarDriven.KStrategy.ProcessBar` | src/strategy/k_strategy.rs:49-65 | moves strategy and account exactly as `BarProcessed` and keeps both invariants |
| `BarDriven.KStrategy.GetVol` | src/strategy/k_strategy.rs:67-75 | moves the account and returns the volume exactly as `Refreshed` |
| `BarDriven.KStrategy.InitialEntry` | src/strategy/k_strategy.rs:77-93 | moves strategy and account exactly as `Entered` |
| `BarDriven.KStrategy.CheckReentry` | src/strategy/k_strategy.rs:95-116 | moves strategy and account exactly as `Reentered` |
| `BarDriven.KStrategy.CheckProfit` | src/strategy/k_strategy.rs:118-163 | moves strategy and account exactly as `ProfitChecked` |
| `TickDriven.OpenedLong` | src/strategy/tick_strategy.rs:82-97 | the account is that of a buy of one lot at the best ask; the strategy is unchanged unless it filled, and then holds +1 lot at the ask price and time |
| `TickDriven.OpenedShort` | src/strategy/tick_strategy.rs:99-114 | the account is that of a BUY of one lot at the best bid; the strategy is unchanged unless it filled, and then records −1 lot at the bid price and time |
| `TickDriven.Closed` | src/strategy/tick_strategy.rs:138-152 | the account is that of a sell of the absolute position at the bid when long and at the ask otherwise; a fill makes the strategy flat and updates the time but keeps the last trade price; otherwise nothing changes |
| `TickDriven.CloseChecked` | src/strategy/tick_strategy.rs:116-136 | closes exactly when a long's bid is at or beyond last − stop-loss or last + take-profit, or a short's ask is at or beyond last + stop-loss or last − take-profit; otherwise no change |
| `TickDriven.Traded` | src/strategy/tick_strategy.rs:63-79 | when flat and the spread is tight: long on its signal, else short on its signal, else nothing; when holding: only the close check |
| `TickDriven.TickProcessed` | src/strategy/tick_strategy.rs:49-80 | no change while cooling down or with a thin book; settings and consistency kept; the position stays in {0, +lot, −lot}; the strategy changes iff the ledger filled an order, and then by one appended transaction and the tick's time; a holding strategy only closes, by a sell of its whole position; availability never grows; with less than one lot sellable a held position is frozen |
| `TickDriven.TickReplayInvariant` | src/strategy/tick_strategy.rs:49-80 | over any sequence of ticks: consistency, fixed settings, the position in range, other instruments untouched, non-increasing availability, an append-only log of at most one transaction per tick |
| `TickDriven.NoCloseWithoutAvailability` | src/strategy/tick_strategy.rs:138-152 | starting with less than one lot sellable, over any sequence of ticks availability is unchanged, a held position never changes, and every appended transaction is a buy |
| `TickDriven.TickStrategy.constructor` | src/strategy/tick_strategy.rs:28-47 | the given settings, flat, with zero last trade price and time |
| `TickDriven.TickStrategy.ProcessTick` | src/strategy/tick_strategy.rs:49-80 | moves strategy and account exactly as `TickProcessed` and keeps both invariants |
| `TickDriven.TickStrategy.OpenLong` | src/strategy/tick_strategy.rs:82-97 | moves strategy and account exactly as `OpenedLong` |
| `TickDriven.TickStrategy.OpenShort` | src/strategy/tick_strategy.rs:99-114 | moves strategy and account exactly as `OpenedShort` |
| `TickDriven.TickStrategy.CheckClosePosition` | src/strategy/tick_strategy.rs:116-136 | moves strategy and account exactly as `CloseChecked` |
| `TickDriven.TickStrategy.ClosePosition` | src/strategy/tick_strategy.rs:138-152 | moves strategy and account exactly as `Closed` |

## Left out

- `src/ui/mod.rs` (parameter panel, plotting, CSV reading), `src/main.rs` (startup) and the CSV and JSON ingestion in the tests: user interface and I/O. The loop that feeds bars or ticks one at a time is modelled only as the replay functions.
- `KStrategy::print_results`: time-zone formatting and console output.
- `src/model.rs` types and the `Order`, `Position` and `Transaction` records: reproduced as datatypes. The last three are imported from `crate::model` (src/account.rs:2), but src/model.rs defines only `KLine` and `TickData`, so their fields are reconstructed from how they are used. `get_position` is likewise not defined in `src/account.rs`; it is modelled as lookup-or-insert of a zeroed position.
- The `name`, `profit` and `orders` fields of `Account`: nothing writes them.
- Floating-point rounding and fixed-width integers: prices and cash are `real`, volumes and times are unbounded `int`. There is no wrap-around of `i32` products such as `volume * 2` or `buy_times * base_volume`.
- The order-type flag is kept as the source's character ('B' or 'S').
- Panics are not modelled; the calls that would panic are excluded by preconditions instead.
- `Ledger.Bought` requires `order.volume > 0` and a non-negative held volume, which the source does not check. Without them the division by the new total volume can be by zero, which gives NaN or infinity in `f64` and has no `real` counterpart.
- `Ledger.Account.Buy` has the same preconditions as `Bought`, including the held code that the source's `unwrap` panics without.
- `BarDriven.KStrategy.constructor` requires `base_volume > 0`, so that the initial entry's buy meets `Bought`'s precondition.
- `BarDriven.Reentered` requires a positive held volume. The source calls `check_reentry` only when the volume is non-zero, and consistency rules out a negative one.
- `TickDriven.TickStrategy.constructor` requires `trade_volume > 0`, for the same reason as the bar strategy's constructor.
- `TickDriven.TickProcessed` requires the code to be held already. The tick strategy never calls `get_position`, so in the source an opening buy for an unheld code panics in `buy`. The model asks for the position up front instead, even on ticks that would not reach a buy.
- `TickDriven.TickStrategy.ProcessTick` has the same precondition as `TickProcessed`, for the same reason.
