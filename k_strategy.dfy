/**
 * The bar-driven strategy of src/strategy/k_strategy.rs: a state machine over
 * one instrument that buys into a price range, averages down by doubling the
 * holding, and sells on a liquidation price or a profit target.
 *
 * One bar's step is stated on values by `BarProcessed` and its parts; the
 * class `KStrategy` is the imperative strategy, each method proved to move
 * the strategy and the account exactly as the corresponding function says.
 */
module BarDriven {
  import opened Model
  import opened Ledger

  /** Bars further apart than twelve hours belong to different trading sessions. */
  const SessionGap: int := 12 * 60 * 60

  /** The fields of a `KStrategy`. */
  datatype KState = KState(
    basePosition: int,
    buyTimes: int,
    baseVolume: int,
    entryRange: (real, real),
    tStopLossPct: real,
    initTStopProfit: real,
    tStopProfit: real,
    liquidationPrice: real,
    lastBarTime: int)

  /** The strategy and the account after a step. */
  datatype KStep = KStep(strategy: KState, account: AccountState)

  /** The fields no step writes. */
  predicate SameParameters(k: KState, k': KState) {
    && k'.baseVolume == k.baseVolume
    && k'.entryRange == k.entryRange
    && k'.tStopLossPct == k.tStopLossPct
    && k'.initTStopProfit == k.initTStopProfit
    && k'.liquidationPrice == k.liquidationPrice
  }

  /** Every order of the strategy is placed at the bar's close. */
  function BarOrder(bar: KLine, code: string, orderType: char, volume: int): Order {
    Order(NoMarket, code, bar.time, orderType, bar.close, volume)
  }

  predicate NewSession(k: KState, bar: KLine) {
    bar.time - k.lastBarTime > SessionGap
  }

  predicate InEntryRange(k: KState, price: real) {
    k.entryRange.0 <= price <= k.entryRange.1
  }

  predicate ReentryTriggered(k: KState, p: Position, price: real) {
    price <= p.costPrice * (1.0 - k.tStopLossPct)
  }

  predicate Liquidating(k: KState, price: real) {
    price > k.liquidationPrice
  }

  predicate TakingProfit(k: KState, p: Position, price: real) {
    price >= p.costPrice + k.tStopProfit + 0.02 * k.buyTimes as real
  }

  /** The trim sell: what is sellable beyond the base position and the shares bought on re-entries. */
  function TrimVolume(k: KState, sellable: int): int {
    sellable - k.basePosition - k.buyTimes * k.baseVolume
  }

  /**
   * `get_vol`: looks the position up (inserting a zeroed one), makes all of it
   * sellable when the bar opens a new session, and returns the held volume.
   */
  function Refreshed(k: KState, a: AccountState, bar: KLine, code: string): (r: (AccountState, int))
    ensures code in r.0.hold && r.1 == r.0.hold[code].volume
    ensures var held := if code in a.hold then a.hold[code] else ZeroPosition;
            r.0.hold[code] == if NewSession(k, bar) then held.(availableVol := held.volume) else held
    ensures r.0.hold - {code} == a.hold - {code}
    ensures r.0.(hold := a.hold) == a
    ensures Consistent(a) ==> Consistent(r.0)
  {
    var a1 := WithPosition(a, code);
    var p := a1.hold[code];
    var a2 := if NewSession(k, bar) then a1.(hold := a1.hold[code := p.(availableVol := p.volume)]) else a1;
    (a2, a2.hold[code].volume)
  }

  /** `initial_entry`: a buy of `baseVolume` at the close when it lies in the entry range. */
  function Entered(k: KState, a: AccountState, bar: KLine, code: string): (r: KStep)
    requires Consistent(a) && code in a.hold && k.baseVolume > 0
    ensures !InEntryRange(k, bar.close) ==> r == KStep(k, a)
    ensures InEntryRange(k, bar.close) ==>
      var f := Bought(a, BarOrder(bar, code, BuyFlag, k.baseVolume));
      r.account == f.account && r.strategy == if f.ok then k.(basePosition := k.baseVolume) else k
    ensures Consistent(r.account)
    ensures r.account.transactions == a.transactions || r.strategy.basePosition == k.baseVolume
  {
    if InEntryRange(k, bar.close) then
      var f := Bought(a, BarOrder(bar, code, BuyFlag, k.baseVolume));
      KStep(if f.ok then k.(basePosition := k.baseVolume) else k, f.account)
    else
      KStep(k, a)
  }

  /**
   * `check_reentry`: when the close has dropped far enough below the cost
   * basis, a buy of twice the held volume; `buyTimes` counts the fills.
   */
  function Reentered(k: KState, a: AccountState, bar: KLine, code: string): (r: KStep)
    requires Consistent(a) && (code in a.hold ==> a.hold[code].volume > 0)
    ensures code !in a.hold || !ReentryTriggered(k, a.hold[code], bar.close) ==> r == KStep(k, a)
    ensures code in a.hold && ReentryTriggered(k, a.hold[code], bar.close) ==>
      r.account == Bought(a, BarOrder(bar, code, BuyFlag, 2 * a.hold[code].volume)).account
    ensures r.strategy == k.(buyTimes := k.buyTimes + |r.account.transactions| - |a.transactions|)
    ensures |a.transactions| <= |r.account.transactions| <= |a.transactions| + 1
    ensures r.account != a ==> code in a.hold && r.account.hold[code].volume == 3 * a.hold[code].volume
    ensures Consistent(r.account)
  {
    if code in a.hold && ReentryTriggered(k, a.hold[code], bar.close) then
      var f := Bought(a, BarOrder(bar, code, BuyFlag, a.hold[code].volume * 2));
      KStep(if f.ok then k.(buyTimes := k.buyTimes + 1) else k, f.account)
    else
      KStep(k, a)
  }

  /**
   * `check_profit`: above the liquidation price, a sell of everything
   * sellable; otherwise, at the profit target and with more sellable than the
   * base position, a trim sell.  It reads the position as left by the re-entry.
   */
  function ProfitChecked(k: KState, a: AccountState, bar: KLine, code: string): (r: KStep)
    ensures code !in a.hold ==> r == KStep(k, a)
    ensures code in a.hold && Liquidating(k, bar.close) ==>
      var f := Sold(a, BarOrder(bar, code, SellFlag, a.hold[code].availableVol));
      && r.account == f.account
      && r.strategy == (if f.ok then k.(tStopProfit := k.initTStopProfit) else k)
      && (f.ok ==> r.account.hold[code].availableVol == 0)
    ensures code in a.hold && !Liquidating(k, bar.close) && TakingProfit(k, a.hold[code], bar.close)
              && a.hold[code].availableVol > k.basePosition ==>
      var f := Sold(a, BarOrder(bar, code, SellFlag, TrimVolume(k, a.hold[code].availableVol)));
      && r.account == f.account
      && r.strategy == (if f.ok then k.(basePosition := f.account.hold[code].volume) else k)
    ensures code in a.hold && !Liquidating(k, bar.close)
              && !(TakingProfit(k, a.hold[code], bar.close) && a.hold[code].availableVol > k.basePosition) ==>
      r == KStep(k, a)
    ensures r.strategy.buyTimes == k.buyTimes && SameParameters(k, r.strategy)
    ensures |a.transactions| <= |r.account.transactions| <= |a.transactions| + 1
    ensures r.strategy.basePosition != k.basePosition ==> |r.account.transactions| == |a.transactions| + 1
    ensures Consistent(a) ==> Consistent(r.account)
  {
    if code !in a.hold then
      KStep(k, a)
    else
      var sellable := a.hold[code].availableVol;
      if Liquidating(k, bar.close) then
        var f := Sold(a, BarOrder(bar, code, SellFlag, sellable));
        KStep(if f.ok then k.(tStopProfit := k.initTStopProfit) else k, f.account)
      else if TakingProfit(k, a.hold[code], bar.close) && sellable > k.basePosition then
        var f := Sold(a, BarOrder(bar, code, SellFlag, TrimVolume(k, sellable)));
        KStep(if f.ok then k.(basePosition := f.account.hold[code].volume) else k, f.account)
      else
        KStep(k, a)
  }

  /** The trading part of a bar: the initial entry when flat, else the re-entry and then the profit check. */
  function Traded(k: KState, a: AccountState, bar: KLine, code: string): (r: KStep)
    requires Consistent(a) && code in a.hold && k.baseVolume > 0
    ensures Consistent(r.account)
    ensures SameParameters(k, r.strategy) && r.strategy.lastBarTime == k.lastBarTime
    ensures k.buyTimes <= r.strategy.buyTimes <= k.buyTimes + 1
    ensures k.tStopProfit == k.initTStopProfit ==> r.strategy.tStopProfit == k.initTStopProfit
    ensures code in r.account.hold && r.account.hold - {code} == a.hold - {code}
    ensures |a.transactions| <= |r.account.transactions| <= |a.transactions| + 2
    ensures r.account.transactions[..|a.transactions|] == a.transactions
    ensures r.strategy.basePosition != k.basePosition || r.strategy.buyTimes != k.buyTimes ==>
              |r.account.transactions| > |a.transactions|
    ensures a.hold[code].volume == 0 ==>
              r.strategy.buyTimes == k.buyTimes && |r.account.transactions| <= |a.transactions| + 1
  {
    if a.hold[code].volume == 0 then
      Entered(k, a, bar, code)
    else
      var s := Reentered(k, a, bar, code);
      ProfitChecked(s.strategy, s.account, bar, code)
  }

  /**
   * `process_bar`: refresh availability, then trade, then mark to market at
   * the close and remember the bar's time.
   */
  function BarProcessed(k: KState, a: AccountState, bar: KLine, code: string): (r: KStep)
    requires Consistent(a) && k.baseVolume > 0
    ensures Consistent(r.account)
    ensures SameParameters(k, r.strategy)
    ensures r.strategy.lastBarTime == bar.time
    ensures k.buyTimes <= r.strategy.buyTimes <= k.buyTimes + 1
    ensures k.tStopProfit == k.initTStopProfit ==> r.strategy.tStopProfit == k.initTStopProfit
    ensures code in r.account.hold && r.account.hold[code].currentPrice == bar.close
    ensures r.account.shiZhi == MarketValue(r.account.hold[code])
    ensures r.account.balance == r.account.availableBalance + r.account.shiZhi + r.account.freezeBalance
    ensures r.account.hold - {code} == a.hold - {code}
    ensures |a.transactions| <= |r.account.transactions| <= |a.transactions| + 2
    ensures r.account.transactions[..|a.transactions|] == a.transactions
    ensures r.strategy.basePosition != k.basePosition || r.strategy.buyTimes != k.buyTimes ==>
              |r.account.transactions| > |a.transactions|
    ensures (code !in a.hold || a.hold[code].volume == 0) ==>
              r.strategy.buyTimes == k.buyTimes && |r.account.transactions| <= |a.transactions| + 1
    // within a session no share becomes sellable: what is bought stays frozen until the next session
    ensures !NewSession(k, bar) && code in a.hold ==>
              r.account.hold[code].availableVol <= a.hold[code].availableVol
    // a new session settles the previous session's purchases, so liquidation sells the whole holding
    ensures NewSession(k, bar) && code in a.hold && a.hold[code].volume > 0
              && Liquidating(k, bar.close) && !ReentryTriggered(k, a.hold[code], bar.close) ==>
              r.account.hold[code].volume == 0
  {
    var a1 := Refreshed(k, a, bar, code).0;
    var s := Traded(k, a1, bar, code);
    var m := Marked(s.account, code, bar.close);
    assert m.transactions == s.account.transactions;
    assert a1.transactions == a.transactions;
    KStep(s.strategy.(lastBarTime := bar.time), m)
  }

  /** The states a sequence of bars drives the strategy and the account through. */
  ghost function BarReplay(k: KState, a: AccountState, bars: seq<KLine>, code: string): KStep
    requires Consistent(a) && k.baseVolume > 0
    decreases |bars|
  {
    if bars == [] then
      KStep(k, a)
    else
      var s := BarProcessed(k, a, bars[0], code);
      BarReplay(s.strategy, s.account, bars[1..], code)
  }

  /**
   * Over any sequence of bars: the ledger stays consistent, the parameters and
   * the other instruments are untouched, `buyTimes` never decreases,
   * `tStopProfit` keeps its initial value and the transaction log only grows.
   */
  lemma {:induction false} BarReplayInvariant(k: KState, a: AccountState, bars: seq<KLine>, code: string)
    requires Consistent(a) && k.baseVolume > 0
    decreases |bars|
    ensures var r := BarReplay(k, a, bars, code);
      && Consistent(r.account)
      && SameParameters(k, r.strategy)
      && k.buyTimes <= r.strategy.buyTimes <= k.buyTimes + |bars|
      && (k.tStopProfit == k.initTStopProfit ==> r.strategy.tStopProfit == k.initTStopProfit)
      && r.account.hold - {code} == a.hold - {code}
      && |a.transactions| <= |r.account.transactions| <= |a.transactions| + 2 * |bars|
      && r.account.transactions[..|a.transactions|] == a.transactions
  {
    if bars != [] {
      var s := BarProcessed(k, a, bars[0], code);
      BarReplayInvariant(s.strategy, s.account, bars[1..], code);
      var r := BarReplay(s.strategy, s.account, bars[1..], code);
      assert r.account.transactions[..|a.transactions|]
          == r.account.transactions[..|s.account.transactions|][..|a.transactions|];
    }
  }

  /**
   * Entry range [4.1, 4.46] and base volume 2000: a first close of 4.2 buys
   * 2000 shares; a close of 4.116 in the next session (2% below the cost) buys
   * twice the holding, leaving 6000 shares and one counted re-entry.
   */
  lemma EntryThenReentry()
    ensures
      var k0 := KState(0, 0, 2000, (4.1, 4.46), 0.02, 0.04, 0.04, 6.0, 0);
      var a0 := AccountState(1000000.0, 0.0, 1000000.0, 0.0, map[], []);
      var s1 := BarProcessed(k0, a0, KLine(86400, 4.2, 4.2, 4.2, 4.2, 0), "600795");
      var s2 := BarProcessed(s1.strategy, s1.account, KLine(172800, 4.116, 4.116, 4.116, 4.116, 0), "600795");
      && s1.strategy.basePosition == 2000 && s1.account.hold["600795"].volume == 2000
      && s2.strategy.buyTimes == 1 && s2.account.hold["600795"].volume == 6000
      && |s2.account.transactions| == 2 && s2.account.transactions[1].volume == 4000
  {
  }

  /** The imperative strategy. */
  class KStrategy {
    var basePosition: int
    var buyTimes: int
    var baseVolume: int
    var entryRange: (real, real)
    var tStopLossPct: real
    var initTStopProfit: real
    var tStopProfit: real
    var liquidationPrice: real
    var lastBarTime: int

    /** The strategy's fields as a value. */
    function State(): KState
      reads this
    {
      KState(basePosition, buyTimes, baseVolume, entryRange, tStopLossPct,
             initTStopProfit, tStopProfit, liquidationPrice, lastBarTime)
    }

    ghost predicate Valid()
      reads this
    {
      baseVolume > 0 && tStopProfit == initTStopProfit
    }

    constructor (entryRange: (real, real), baseVolume: int, tStopLossPct: real, tStopProfit: real, liquidationPrice: real)
      requires baseVolume > 0
      ensures Valid()
      ensures State() == KState(0, 0, baseVolume, entryRange, tStopLossPct, tStopProfit, tStopProfit, liquidationPrice, 0)
    {
      this.basePosition := 0;
      this.lastBarTime := 0;
      this.buyTimes := 0;
      this.entryRange := entryRange;
      this.baseVolume := baseVolume;
      this.tStopLossPct := tStopLossPct;
      this.tStopProfit := tStopProfit;
      this.initTStopProfit := tStopProfit;
      this.liquidationPrice := liquidationPrice;
    }

    method ProcessBar(bar: KLine, code: string, account: Account)
      requires Valid() && account.Valid()
      modifies this, account
      ensures Valid() && account.Valid()
      ensures KStep(State(), account.State()) == BarProcessed(old(State()), old(account.State()), bar, code)
    {
      var volume := GetVol(bar, code, account);
      if volume == 0 {
        InitialEntry(bar, code, account);
      } else {
        CheckReentry(bar, code, account);
        CheckProfit(bar, code, account);
      }
      account.OnPriceChange(code, bar.close);
      lastBarTime := bar.time;
    }

    method GetVol(bar: KLine, code: string, account: Account) returns (volume: int)
      modifies account
      ensures (account.State(), volume) == Refreshed(State(), old(account.State()), bar, code)
    {
      var position := account.GetPosition(code);
      if bar.time - lastBarTime > SessionGap {
        position := position.(availableVol := position.volume);
        account.hold := account.hold[code := position];
      }
      volume := position.volume;
    }

    method InitialEntry(bar: KLine, code: string, account: Account)
      requires account.Valid() && code in account.hold && baseVolume > 0
      modifies this, account
      ensures KStep(State(), account.State()) == Entered(old(State()), old(account.State()), bar, code)
    {
      var price := bar.close;
      if entryRange.0 <= price <= entryRange.1 {
        var order := Order(NoMarket, code, bar.time, BuyFlag, price, baseVolume);
        assert Settled(account.State().hold[code]);
        var ok := account.Buy(order);
        if ok {
          basePosition := baseVolume;
        }
      }
    }

    method CheckReentry(bar: KLine, code: string, account: Account)
      requires account.Valid() && (code in account.hold ==> account.hold[code].volume > 0)
      modifies this, account
      ensures KStep(State(), account.State()) == Reentered(old(State()), old(account.State()), bar, code)
    {
      var price := bar.close;
      if code in account.hold {
        var position := account.hold[code];
        if price <= position.costPrice * (1.0 - tStopLossPct) {
          var buyVolume := position.volume * 2;
          var order := Order(NoMarket, code, bar.time, BuyFlag, price, buyVolume);
          var ok := account.Buy(order);
          if ok {
            buyTimes := buyTimes + 1;
          }
        }
      }
    }

    method CheckProfit(bar: KLine, code: string, account: Account)
      modifies this, account
      ensures KStep(State(), account.State()) == ProfitChecked(old(State()), old(account.State()), bar, code)
    {
      var price := bar.close;
      if code !in account.hold {
        return;
      }
      var sellable, costPrice := account.hold[code].availableVol, account.hold[code].costPrice;
      if price > liquidationPrice {
        var order := Order(NoMarket, code, bar.time, SellFlag, price, sellable);
        var ok := account.Sell(order);
        if ok {
          tStopProfit := initTStopProfit;
        }
      } else if price >= costPrice + tStopProfit + 0.02 * buyTimes as real {
        if sellable > basePosition {
          var sellVolume := sellable - basePosition - buyTimes * baseVolume;
          var order := Order(NoMarket, code, bar.time, SellFlag, price, sellVolume);
          var ok := account.Sell(order);
          if ok {
            if code in account.hold {
              basePosition := account.hold[code].volume;
            }
          }
        }
      }
    }
  }
}
