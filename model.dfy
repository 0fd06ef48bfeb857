/**
 * Plain records shared by the ledger and the strategies: the market data of
 * src/model.rs and the order, position and transaction records that
 * src/account.rs uses.  Prices and balances are `real` (floating-point
 * rounding is not modelled); volumes and timestamps are unbounded `int`.
 */
module Model {

  /** The order-type flags the strategies put on their orders. */
  const BuyFlag: char := 'B'
  const SellFlag: char := 'S'

  /** The market-type tag every strategy order carries. */
  const NoMarket: char := ' '

  /** One bar of a chart: timestamp in seconds and OHLC prices. */
  datatype KLine = KLine(time: int, open: real, high: real, low: real, close: real, volume: int)

  /** One quote snapshot with five levels of asks and bids. */
  datatype TickData = TickData(
    time: int, lastPrice: real, volume: int,
    ask1Price: real, ask1Volume: int, ask2Price: real, ask2Volume: int,
    ask3Price: real, ask3Volume: int, ask4Price: real, ask4Volume: int,
    ask5Price: real, ask5Volume: int,
    bid1Price: real, bid1Volume: int, bid2Price: real, bid2Volume: int,
    bid3Price: real, bid3Volume: int, bid4Price: real, bid4Volume: int,
    bid5Price: real, bid5Volume: int)

  /** An execution request, consumed by one call of the ledger. */
  datatype Order = Order(marketType: char, code: string, time: int, orderType: char, price: real, volume: int)

  /** The holding of one instrument. */
  datatype Position = Position(volume: int, availableVol: int, costPrice: real, currentPrice: real)

  /** The record of one filled order: signed volume, and the position after the fill. */
  datatype Transaction = Transaction(time: int, price: real, volume: int, orderType: char, remainVol: int, remainCost: real)

  datatype Option<T> = None | Some(value: T)
}
