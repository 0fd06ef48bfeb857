/**
 * The tick-driven strategy of src/strategy/tick_strategy.rs: on each quote it
 * applies a cooldown gate and a depth gate, opens a trade when flat and the
 * spread is tight, and closes it on a stop-loss or take-profit level.
 *
 * The "short" entry issues a BUY at the best bid and records a negative
 * position, exactly as the source does; closing is always a sell.
 *
 * One tick's step is stated on values by `TickProcessed` and its parts; the
 * class `TickStrategy` is the imperative strategy, each method proved to move
 * the strategy and the account exactly as the corresponding function says.
 */
module TickDriven {
  import opened Model
  import opened Ledger

  /** The fields of a `TickStrategy`. */
  datatype TState = TState(
    minSpread: real,
    minVolume: int,
    tradeVolume: int,
    stopLossPoints: real,
    takeProfitPoints: real,
    lastTradePrice: real,
    lastTradeTime: int,
    position: int,
    cooldownPeriod: int)

  /** The strategy and the account after a step. */
  datatype TStep = TStep(strategy: TState, account: AccountState)

  /** The fields no step writes. */
  predicate SameSettings(t: TState, t': TState) {
    && t'.minSpread == t.minSpread
    && t'.minVolume == t.minVolume
    && t'.tradeVolume == t.tradeVolume
    && t'.stopLossPoints == t.stopLossPoints
    && t'.takeProfitPoints == t.takeProfitPoints
    && t'.cooldownPeriod == t.cooldownPeriod
  }

  /** The signed position is flat, one lot long, or one lot "short". */
  predicate PositionInRange(t: TState) {
    t.position == 0 || t.position == t.tradeVolume || t.position == -t.tradeVolume
  }

  function Abs(x: int): int {
    if x < 0 then -x else x
  }

  function TickOrder(tick: TickData, code: string, orderType: char, price: real, volume: int): Order {
    Order(NoMarket, code, tick.time, orderType, price, volume)
  }

  /** Too soon after the last trade. */
  predicate Cooling(t: TState, tick: TickData) {
    tick.time - t.lastTradeTime < t.cooldownPeriod
  }

  /** Too little depth at the best bid or the best ask. */
  predicate ThinBook(t: TState, tick: TickData) {
    tick.bid1Volume < t.minVolume || tick.ask1Volume < t.minVolume
  }

  function Spread(tick: TickData): real {
    tick.ask1Price - tick.bid1Price
  }

  predicate LongSignal(t: TState, tick: TickData) {
    tick.bid1Price > tick.lastPrice && tick.ask1Volume > t.minVolume
  }

  predicate ShortSignal(t: TState, tick: TickData) {
    tick.ask1Price < tick.lastPrice && tick.bid1Volume > t.minVolume
  }

  /** Stop-loss or take-profit reached, on the bid for a long and on the ask for a short. */
  predicate CloseSignal(t: TState, tick: TickData) {
    || (t.position > 0 && (tick.bid1Price <= t.lastTradePrice - t.stopLossPoints
                           || tick.bid1Price >= t.lastTradePrice + t.takeProfitPoints))
    || (t.position < 0 && (tick.ask1Price >= t.lastTradePrice + t.stopLossPoints
                           || tick.ask1Price <= t.lastTradePrice - t.takeProfitPoints))
  }

  /** `open_long`: a buy of one lot at the best ask; on a fill the strategy is long at that price. */
  function OpenedLong(t: TState, a: AccountState, tick: TickData, code: string): (r: TStep)
    requires Consistent(a) && code in a.hold && t.tradeVolume > 0
    ensures r.account == Bought(a, TickOrder(tick, code, BuyFlag, tick.ask1Price, t.tradeVolume)).account
    ensures r.account == a ==> r.strategy == t
    ensures r.account != a ==>
      r.strategy == t.(position := t.tradeVolume, lastTradePrice := tick.ask1Price, lastTradeTime := tick.time)
    ensures Consistent(r.account)
  {
    var f := Bought(a, TickOrder(tick, code, BuyFlag, tick.ask1Price, t.tradeVolume));
    if f.ok then
      TStep(t.(position := t.tradeVolume, lastTradePrice := tick.ask1Price, lastTradeTime := tick.time), f.account)
    else
      TStep(t, a)
  }

  /** `open_short`: a BUY of one lot at the best bid; on a fill the strategy records minus one lot. */
  function OpenedShort(t: TState, a: AccountState, tick: TickData, code: string): (r: TStep)
    requires Consistent(a) && code in a.hold && t.tradeVolume > 0
    ensures r.account == Bought(a, TickOrder(tick, code, BuyFlag, tick.bid1Price, t.tradeVolume)).account
    ensures r.account == a ==> r.strategy == t
    ensures r.account != a ==>
      r.strategy == t.(position := -t.tradeVolume, lastTradePrice := tick.bid1Price, lastTradeTime := tick.time)
    ensures Consistent(r.account)
  {
    var f := Bought(a, TickOrder(tick, code, BuyFlag, tick.bid1Price, t.tradeVolume));
    if f.ok then
      TStep(t.(position := -t.tradeVolume, lastTradePrice := tick.bid1Price, lastTradeTime := tick.time), f.account)
    else
      TStep(t, a)
  }

  /**
   * `close_position`: a sell of the whole position, at the bid when long and
   * at the ask otherwise; on a fill the strategy is flat and the last trade
   * price is kept.
   */
  function Closed(t: TState, a: AccountState, tick: TickData, code: string): (r: TStep)
    ensures r.account == Sold(a, TickOrder(tick, code, SellFlag,
                                          if t.position > 0 then tick.bid1Price else tick.ask1Price,
                                          Abs(t.position))).account
    ensures r.account == a ==> r.strategy == t
    ensures r.account != a ==> r.strategy == t.(position := 0, lastTradeTime := tick.time)
    ensures Consistent(a) ==> Consistent(r.account)
  {
    var price := if t.position > 0 then tick.bid1Price else tick.ask1Price;
    var f := Sold(a, TickOrder(tick, code, SellFlag, price, Abs(t.position)));
    if f.ok then
      TStep(t.(position := 0, lastTradeTime := tick.time), f.account)
    else
      TStep(t, a)
  }

  /** `check_close_position`: closes exactly when the stop-loss or take-profit level is reached. */
  function CloseChecked(t: TState, a: AccountState, tick: TickData, code: string): (r: TStep)
    ensures !CloseSignal(t, tick) ==> r == TStep(t, a)
    ensures CloseSignal(t, tick) ==> r == Closed(t, a, tick, code)
  {
    if t.position > 0 then
      if tick.bid1Price <= t.lastTradePrice - t.stopLossPoints then
        Closed(t, a, tick, code)
      else if tick.bid1Price >= t.lastTradePrice + t.takeProfitPoints then
        Closed(t, a, tick, code)
      else
        TStep(t, a)
    else if t.position < 0 then
      if tick.ask1Price >= t.lastTradePrice + t.stopLossPoints then
        Closed(t, a, tick, code)
      else if tick.ask1Price <= t.lastTradePrice - t.takeProfitPoints then
        Closed(t, a, tick, code)
      else
        TStep(t, a)
    else
      TStep(t, a)
  }

  /** The decision part of a tick, once both gates have passed. */
  function Traded(t: TState, a: AccountState, tick: TickData, code: string): (r: TStep)
    requires Consistent(a) && code in a.hold && t.tradeVolume > 0
    ensures t.position == 0 && Spread(tick) <= t.minSpread && LongSignal(t, tick) ==>
              r == OpenedLong(t, a, tick, code)
    ensures t.position == 0 && Spread(tick) <= t.minSpread && !LongSignal(t, tick) && ShortSignal(t, tick) ==>
              r == OpenedShort(t, a, tick, code)
    ensures t.position == 0 && !(Spread(tick) <= t.minSpread && (LongSignal(t, tick) || ShortSignal(t, tick))) ==>
              r == TStep(t, a)
    ensures t.position != 0 ==> r == CloseChecked(t, a, tick, code)
  {
    if t.position == 0 then
      if Spread(tick) <= t.minSpread then
        if LongSignal(t, tick) then
          OpenedLong(t, a, tick, code)
        else if ShortSignal(t, tick) then
          OpenedShort(t, a, tick, code)
        else
          TStep(t, a)
      else
        TStep(t, a)
    else
      CloseChecked(t, a, tick, code)
  }

  /**
   * `process_tick`: nothing changes while cooling down or when the book is
   * thin; a flat strategy may open, a holding one may only close; the strategy
   * changes exactly when the ledger fills an order.
   */
  function TickProcessed(t: TState, a: AccountState, tick: TickData, code: string): (r: TStep)
    requires Consistent(a) && code in a.hold && t.tradeVolume > 0
    ensures Cooling(t, tick) ==> r == TStep(t, a)
    ensures ThinBook(t, tick) ==> r == TStep(t, a)
    ensures SameSettings(t, r.strategy) && Consistent(r.account)
    ensures PositionInRange(t) ==> PositionInRange(r.strategy)
    ensures r.strategy == t <==> r.account == a
    ensures r.account != a ==>
      && r.strategy.lastTradeTime == tick.time
      && |r.account.transactions| == |a.transactions| + 1
      && r.account.transactions[..|a.transactions|] == a.transactions
    ensures t.position != 0 ==>
      && r.strategy.lastTradePrice == t.lastTradePrice
      && (r.strategy == t || r.strategy.position == 0)
      && (r.account == a || r.account.transactions[|a.transactions|].volume == -Abs(t.position))
    ensures t.position == 0 && r.account != a ==>
      r.strategy.position != 0 && r.account.transactions[|a.transactions|].volume == t.tradeVolume
    ensures code in r.account.hold && r.account.hold - {code} == a.hold - {code}
    ensures r.account.hold[code].availableVol <= a.hold[code].availableVol
    ensures PositionInRange(t) && t.position != 0 && a.hold[code].availableVol < t.tradeVolume ==>
      r == TStep(t, a)
    ensures PositionInRange(t) && a.hold[code].availableVol < t.tradeVolume ==>
      r.account.hold[code].availableVol == a.hold[code].availableVol
  {
    if Cooling(t, tick) || ThinBook(t, tick) then
      TStep(t, a)
    else
      Traded(t, a, tick, code)
  }
  /** The states a sequence of ticks drives the strategy and the account through. */
  ghost function TickReplay(t: TState, a: AccountState, ticks: seq<TickData>, code: string): TStep
    requires Consistent(a) && code in a.hold && t.tradeVolume > 0
    decreases |ticks|
  {
    if ticks == [] then
      TStep(t, a)
    else
      var s := TickProcessed(t, a, ticks[0], code);
      TickReplay(s.strategy, s.account, ticks[1..], code)
  }

  /**
   * Over any sequence of ticks: the ledger stays consistent, the settings and
   * the other instruments are untouched, the position stays flat or one lot
   * either way, availability never grows and the log only grows, by at most
   * one transaction per tick.
   */
  lemma {:induction false} TickReplayInvariant(t: TState, a: AccountState, ticks: seq<TickData>, code: string)
    requires Consistent(a) && code in a.hold && t.tradeVolume > 0
    decreases |ticks|
    ensures var r := TickReplay(t, a, ticks, code);
      && Consistent(r.account)
      && SameSettings(t, r.strategy)
      && (PositionInRange(t) ==> PositionInRange(r.strategy))
      && code in r.account.hold
      && r.account.hold - {code} == a.hold - {code}
      && r.account.hold[code].availableVol <= a.hold[code].availableVol
      && |a.transactions| <= |r.account.transactions| <= |a.transactions| + |ticks|
      && r.account.transactions[..|a.transactions|] == a.transactions
  {
    if ticks != [] {
      var s := TickProcessed(t, a, ticks[0], code);
      TickReplayInvariant(s.strategy, s.account, ticks[1..], code);
      var r := TickReplay(s.strategy, s.account, ticks[1..], code);
      assert r.account.transactions[..|a.transactions|]
          == r.account.transactions[..|s.account.transactions|][..|a.transactions|];
    }
  }

  /**
   * The tick strategy never makes shares sellable.  When fewer than one lot
   * is sellable at the start, no close can ever fill: availability stays as
   * it was, a held position stays exactly as it is, and every transaction the
   * run appends is a buy.
   */
  lemma {:induction false} NoCloseWithoutAvailability(t: TState, a: AccountState, ticks: seq<TickData>, code: string)
    requires Consistent(a) && code in a.hold && t.tradeVolume > 0
    requires PositionInRange(t) && a.hold[code].availableVol < t.tradeVolume
    decreases |ticks|
    ensures var r := TickReplay(t, a, ticks, code);
      && code in r.account.hold
      && r.account.hold[code].availableVol == a.hold[code].availableVol
      && (t.position != 0 ==> r == TStep(t, a))
      && forall i :: |a.transactions| <= i < |r.account.transactions| ==> r.account.transactions[i].volume > 0
  {
    if ticks != [] {
      var s := TickProcessed(t, a, ticks[0], code);
      NoCloseWithoutAvailability(s.strategy, s.account, ticks[1..], code);
      TickReplayInvariant(s.strategy, s.account, ticks[1..], code);
      var r := TickReplay(s.strategy, s.account, ticks[1..], code);
      forall i | |a.transactions| <= i < |r.account.transactions|
        ensures r.account.transactions[i].volume > 0
      {
        if i < |s.account.transactions| {
          assert r.account.transactions[i] == r.account.transactions[..|s.account.transactions|][i];
        }
      }
    }
  }

  /** The imperative strategy. */
  class TickStrategy {
    var minSpread: real
    var minVolume: int
    var tradeVolume: int
    var stopLossPoints: real
    var takeProfitPoints: real
    var lastTradePrice: real
    var lastTradeTime: int
    var position: int
    var cooldownPeriod: int

    /** The strategy's fields as a value. */
    function State(): TState
      reads this
    {
      TState(minSpread, minVolume, tradeVolume, stopLossPoints, takeProfitPoints,
             lastTradePrice, lastTradeTime, position, cooldownPeriod)
    }

    ghost predicate Valid()
      reads this
    {
      tradeVolume > 0 && PositionInRange(State())
    }

    constructor (minSpread: real, minVolume: int, tradeVolume: int, stopLossPoints: real,
                 takeProfitPoints: real, cooldownPeriod: int)
      requires tradeVolume > 0
      ensures Valid()
      ensures State() == TState(minSpread, minVolume, tradeVolume, stopLossPoints, takeProfitPoints,
                                0.0, 0, 0, cooldownPeriod)
    {
      this.minSpread := minSpread;
      this.minVolume := minVolume;
      this.tradeVolume := tradeVolume;
      this.stopLossPoints := stopLossPoints;
      this.takeProfitPoints := takeProfitPoints;
      this.cooldownPeriod := cooldownPeriod;
      this.lastTradePrice := 0.0;
      this.lastTradeTime := 0;
      this.position := 0;
    }

    method ProcessTick(tick: TickData, code: string, account: Account)
      requires Valid() && account.Valid() && code in account.hold
      modifies this, account
      ensures Valid() && account.Valid()
      ensures TStep(State(), account.State()) == TickProcessed(old(State()), old(account.State()), tick, code)
    {
      if tick.time - lastTradeTime < cooldownPeriod {
        return;
      }
      var spread := tick.ask1Price - tick.bid1Price;
      if tick.bid1Volume < minVolume || tick.ask1Volume < minVolume {
        return;
      }
      if position == 0 {
        if spread <= minSpread {
          if tick.bid1Price > tick.lastPrice && tick.ask1Volume > minVolume {
            OpenLong(tick, code, account);
          } else if tick.ask1Price < tick.lastPrice && tick.bid1Volume > minVolume {
            OpenShort(tick, code, account);
          }
        }
      } else {
        CheckClosePosition(tick, code, account);
      }
    }

    method OpenLong(tick: TickData, code: string, account: Account)
      requires account.Valid() && code in account.hold && tradeVolume > 0
      modifies this, account
      ensures TStep(State(), account.State()) == OpenedLong(old(State()), old(account.State()), tick, code)
    {
      var order := Order(NoMarket, code, tick.time, BuyFlag, tick.ask1Price, tradeVolume);
      assert Settled(account.State().hold[code]);
      var ok := account.Buy(order);
      if ok {
        position := tradeVolume;
        lastTradePrice := tick.ask1Price;
        lastTradeTime := tick.time;
      }
    }

    method OpenShort(tick: TickData, code: string, account: Account)
      requires account.Valid() && code in account.hold && tradeVolume > 0
      modifies this, account
      ensures TStep(State(), account.State()) == OpenedShort(old(State()), old(account.State()), tick, code)
    {
      var order := Order(NoMarket, code, tick.time, BuyFlag, tick.bid1Price, tradeVolume);
      assert Settled(account.State().hold[code]);
      var ok := account.Buy(order);
      if ok {
        position := -tradeVolume;
        lastTradePrice := tick.bid1Price;
        lastTradeTime := tick.time;
      }
    }

    method CheckClosePosition(tick: TickData, code: string, account: Account)
      modifies this, account
      ensures TStep(State(), account.State()) == CloseChecked(old(State()), old(account.State()), tick, code)
    {
      if position > 0 {
        if tick.bid1Price <= lastTradePrice - stopLossPoints {
          ClosePosition(tick, code, account);
        } else if tick.bid1Price >= lastTradePrice + takeProfitPoints {
          ClosePosition(tick, code, account);
        }
      } else if position < 0 {
        if tick.ask1Price >= lastTradePrice + stopLossPoints {
          ClosePosition(tick, code, account);
        } else if tick.ask1Price <= lastTradePrice - takeProfitPoints {
          ClosePosition(tick, code, account);
        }
      }
    }

    method ClosePosition(tick: TickData, code: string, account: Account)
      modifies this, account
      ensures TStep(State(), account.State()) == Closed(old(State()), old(account.State()), tick, code)
    {
      var order := Order(NoMarket, code, tick.time, SellFlag,
                         if position > 0 then tick.bid1Price else tick.ask1Price, Abs(position));
      var ok := account.Sell(order);
      if ok {
        position := 0;
        lastTradeTime := tick.time;
      }
    }
  }
}
