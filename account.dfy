/**
 * The account ledger of src/account.rs: cash balances, a map from
 * instrument code to position, and the append-only transaction log.
 *
 * The ledger's behaviour is first stated on values (`AccountState` and the
 * functions `Bought`, `Sold`, `Marked`, `WithPosition`), whose contracts
 * carry the properties the source promises.  The class `Account` is the
 * imperative ledger the strategies mutate; each of its methods is proved to
 * move its fields exactly as the corresponding function says.
 */
module Ledger {
  import opened Model

  /** The fields of an account.  `name`, `profit` and `orders` are never written and are left out. */
  datatype AccountState = AccountState(
    balance: real,
    freezeBalance: real,
    availableBalance: real,
    shiZhi: real,
    hold: map<string, Position>,
    transactions: seq<Transaction>)

  /** What a buy or a sell reports: whether it filled, and the account afterwards. */
  datatype Fill = Fill(ok: bool, account: AccountState)

  /** The position a code gets when it is first looked up. */
  const ZeroPosition: Position := Position(0, 0, 0.0, 0.0)

  /** Sellable volume never exceeds the held volume, and neither is negative. */
  predicate Settled(p: Position) {
    0 <= p.availableVol <= p.volume
  }

  /** The invariant every operation of the ledger keeps. */
  predicate Consistent(s: AccountState) {
    forall code :: code in s.hold ==> Settled(s.hold[code])
  }

  /** The cash an order moves. */
  function Turnover(o: Order): real {
    o.price * o.volume as real
  }

  /** The capital a position stands for at its cost basis. */
  function Invested(p: Position): real {
    p.volume as real * p.costPrice
  }

  /** The market value of a position at its last marked price. */
  function MarketValue(p: Position): real {
    p.currentPrice * p.volume as real
  }

  /** The transaction a fill of `o` records, with signed `volume` and the position `p` after the fill. */
  function Receipt(o: Order, volume: int, p: Position): Transaction {
    Transaction(o.time, o.price, volume, o.orderType, p.volume, p.costPrice)
  }

  /** Lookup-or-insert of a zeroed position (the `get_position` the bar strategy calls). */
  function WithPosition(s: AccountState, code: string): (r: AccountState)
    ensures code in r.hold
    ensures r.hold[code] == if code in s.hold then s.hold[code] else ZeroPosition
    ensures r.hold - {code} == s.hold - {code}
    ensures r.(hold := s.hold) == s
    ensures Consistent(s) ==> Consistent(r)
  {
    if code in s.hold then s else s.(hold := s.hold[code := ZeroPosition])
  }

  lemma WithPositionIdempotent(s: AccountState, code: string)
    ensures WithPosition(WithPosition(s, code), code) == WithPosition(s, code)
  {
  }

  /** The position after buying `o`: volume-weighted cost basis, availability untouched. */
  function BuyPosition(p: Position, o: Order): (q: Position)
    requires p.volume >= 0 && o.volume > 0
    ensures q.volume == p.volume + o.volume
    ensures q.availableVol == p.availableVol && q.currentPrice == p.currentPrice
    ensures Invested(q) == Invested(p) + Turnover(o)
    ensures Settled(p) ==> Settled(q)
  {
    var totalVolume := p.volume + o.volume;
    p.(costPrice := (Invested(p) + Turnover(o)) / totalVolume as real, volume := totalVolume)
  }

  /** `buy`: rejected with no change when the turnover exceeds the spendable cash. */
  function Bought(s: AccountState, o: Order): (r: Fill)
    requires o.code in s.hold && s.hold[o.code].volume >= 0 && o.volume > 0
    ensures r.ok <==> Turnover(o) <= s.availableBalance
    ensures !r.ok ==> r.account == s
    ensures r.ok ==> o.code in r.account.hold
    ensures r.ok ==>
      var p, q := s.hold[o.code], r.account.hold[o.code];
      && r.account.availableBalance == s.availableBalance - Turnover(o)
      && r.account.hold == s.hold[o.code := q]
      && q.volume == p.volume + o.volume
      && q.availableVol == p.availableVol
      && q.currentPrice == p.currentPrice
      && r.account.availableBalance + Invested(q) == s.availableBalance + Invested(p)
      && r.account.transactions == s.transactions + [Receipt(o, o.volume, q)]
      && r.account.(availableBalance := s.availableBalance, hold := s.hold, transactions := s.transactions) == s
    ensures Consistent(s) ==> Consistent(r.account)
  {
    if s.availableBalance < Turnover(o) then
      Fill(false, s)
    else
      var q := BuyPosition(s.hold[o.code], o);
      Fill(true, s.(availableBalance := s.availableBalance - Turnover(o),
                    hold := s.hold[o.code := q],
                    transactions := s.transactions + [Receipt(o, o.volume, q)]))
  }

  /** The position after selling `o`: the cost basis is reset to 0 when nothing is left. */
  function SellPosition(p: Position, o: Order): (q: Position)
    ensures q.volume == p.volume - o.volume
    ensures q.availableVol == p.availableVol - o.volume
    ensures q.currentPrice == p.currentPrice
    ensures q.volume == 0 ==> q.costPrice == 0.0
    ensures q.volume != 0 ==> Invested(q) == Invested(p) - Turnover(o)
    ensures Settled(p) && 0 < o.volume <= p.availableVol ==> Settled(q)
  {
    var totalVolume := p.volume - o.volume;
    p.(costPrice := if totalVolume != 0 then (Invested(p) - Turnover(o)) / totalVolume as real else 0.0,
       volume := totalVolume,
       availableVol := p.availableVol - o.volume)
  }

  /** `sell`: rejected with no change for an unknown code, a non-positive volume or more than is sellable. */
  function Sold(s: AccountState, o: Order): (r: Fill)
    ensures r.ok <==> o.code in s.hold && 0 < o.volume <= s.hold[o.code].availableVol
    ensures !r.ok ==> r.account == s
    ensures r.ok ==> o.code in r.account.hold
    ensures r.ok ==>
      var p, q := s.hold[o.code], r.account.hold[o.code];
      && r.account.availableBalance == s.availableBalance + Turnover(o)
      && r.account.hold == s.hold[o.code := q]
      && q.volume == p.volume - o.volume
      && q.availableVol == p.availableVol - o.volume
      && q.currentPrice == p.currentPrice
      && (q.volume == 0 ==> q.costPrice == 0.0)
      && (q.volume != 0 ==> r.account.availableBalance + Invested(q) == s.availableBalance + Invested(p))
      && r.account.transactions == s.transactions + [Receipt(o, -o.volume, q)]
      && r.account.(availableBalance := s.availableBalance, hold := s.hold, transactions := s.transactions) == s
    ensures Consistent(s) ==> Consistent(r.account)
  {
    if o.code !in s.hold || o.volume <= 0 || o.volume > s.hold[o.code].availableVol then
      Fill(false, s)
    else
      var q := SellPosition(s.hold[o.code], o);
      Fill(true, s.(availableBalance := s.availableBalance + Turnover(o),
                    hold := s.hold[o.code := q],
                    transactions := s.transactions + [Receipt(o, -o.volume, q)]))
  }

  /**
   * `on_price_change`: marks one held position to market.  `shiZhi` becomes
   * the market value of THAT position alone, not a sum over positions.
   */
  function Marked(s: AccountState, code: string, price: real): (r: AccountState)
    ensures code !in s.hold ==> r == s
    ensures code in s.hold ==>
      && r.hold == s.hold[code := s.hold[code].(currentPrice := price)]
      && r.shiZhi == MarketValue(r.hold[code])
      && r.balance == r.availableBalance + r.shiZhi + r.freezeBalance
      && r.(balance := s.balance, shiZhi := s.shiZhi, hold := s.hold) == s
    ensures Consistent(s) ==> Consistent(r)
  {
    if code !in s.hold then
      s
    else
      var p := s.hold[code].(currentPrice := price);
      var shiZhi := MarketValue(p);
      s.(hold := s.hold[code := p], shiZhi := shiZhi, balance := s.availableBalance + shiZhi + s.freezeBalance)
  }

  /**
   * The cost basis is not kept non-negative: a partial sell turns it negative
   * exactly when its turnover exceeds the capital the position holds
   * (volume times cost).
   */
  lemma NegativeCostIff(p: Position, o: Order)
    requires Settled(p) && 0 < o.volume < p.volume
    ensures SellPosition(p, o).costPrice < 0.0 <==> Turnover(o) > Invested(p)
  {
  }

  /** A partial sell whose turnover (180) exceeds the capital held (100) leaves a cost basis of -8. */
  lemma CostBasisCanTurnNegative()
    ensures var s := AccountState(0.0, 0.0, 0.0, 0.0, map["600795" := Position(100, 100, 1.0, 1.0)], []);
            var r := Sold(s, Order(NoMarket, "600795", 1, SellFlag, 2.0, 90));
            r.ok && r.account.hold["600795"].costPrice == -8.0
  {
  }

  /**
   * Two instruments bought and marked in turn: the second mark leaves `shiZhi`
   * at the second position's value (200) and `balance` at 999,900, because the
   * first position's value is overwritten rather than added.
   */
  lemma SecondMarkOverwritesShiZhi()
    ensures
      var s0 := AccountState(1000000.0, 0.0, 1000000.0, 0.0, map["600795" := ZeroPosition, "601111" := ZeroPosition], []);
      var f1 := Bought(s0, Order('0', "600795", 1, BuyFlag, 1.0, 100));
      var s1 := Marked(f1.account, "600795", 1.0);
      var f2 := Bought(s1, Order('0', "601111", 1, BuyFlag, 1.0, 200));
      var s2 := Marked(f2.account, "601111", 1.0);
      && f1.ok && s1.availableBalance == 999900.0 && s1.shiZhi == 100.0 && s1.balance == 1000000.0
      && f2.ok && s2.availableBalance == 999700.0 && s2.shiZhi == 200.0 && s2.balance == 999900.0
  {
  }

  /** The imperative ledger: the fields of the source's `Account` that its methods write. */
  class Account {
    var balance: real
    var freezeBalance: real
    var availableBalance: real
    var shiZhi: real
    var hold: map<string, Position>
    var transactions: seq<Transaction>

    /** The account's fields as a value. */
    function State(): AccountState
      reads this
    {
      AccountState(balance, freezeBalance, availableBalance, shiZhi, hold, transactions)
    }

    ghost predicate Valid()
      reads this
    {
      Consistent(State())
    }

    /** An account opened with the given balances and otherwise default (zero) fields. */
    constructor (balance: real, availableBalance: real)
      ensures State() == AccountState(balance, 0.0, availableBalance, 0.0, map[], [])
      ensures Valid()
    {
      this.balance := balance;
      this.freezeBalance := 0.0;
      this.availableBalance := availableBalance;
      this.shiZhi := 0.0;
      this.hold := map[];
      this.transactions := [];
    }

    method GetPosition(code: string) returns (p: Position)
      modifies this
      ensures State() == WithPosition(old(State()), code)
      ensures code in hold && p == hold[code]
    {
      if code !in hold {
        hold := hold[code := ZeroPosition];
      }
      p := hold[code];
    }

    method Buy(order: Order) returns (ok: bool)
      requires order.code in hold && hold[order.code].volume >= 0 && order.volume > 0
      modifies this
      ensures Fill(ok, State()) == Bought(old(State()), order)
      ensures old(Valid()) ==> Valid()
    {
      var position := hold[order.code];
      var turnover := order.price * order.volume as real;
      if availableBalance < turnover {
        return false;
      }
      availableBalance := availableBalance - turnover;
      var totalCost := position.volume as real * position.costPrice + turnover;
      var totalVolume := position.volume + order.volume;
      position := position.(costPrice := totalCost / totalVolume as real);
      position := position.(volume := totalVolume);
      hold := hold[order.code := position];
      transactions := transactions + [Transaction(order.time, order.price, order.volume, order.orderType, totalVolume, position.costPrice)];
      assert position == BuyPosition(old(hold)[order.code], order);
      return true;
    }

    method Sell(order: Order) returns (ok: bool)
      modifies this
      ensures Fill(ok, State()) == Sold(old(State()), order)
      ensures old(Valid()) ==> Valid()
    {
      if order.code !in hold {
        return false;
      }
      var position := hold[order.code];
      if order.volume <= 0 || order.volume > position.availableVol {
        return false;
      }
      var turnover := order.price * order.volume as real;
      availableBalance := availableBalance + turnover;
      var totalVolume := position.volume - order.volume;
      position := position.(costPrice :=
        if totalVolume != 0 then (position.volume as real * position.costPrice - turnover) / totalVolume as real
        else 0.0);
      position := position.(volume := totalVolume);
      position := position.(availableVol := position.availableVol - order.volume);
      hold := hold[order.code := position];
      transactions := transactions + [Transaction(order.time, order.price, -order.volume, order.orderType, totalVolume, position.costPrice)];
      assert position == SellPosition(old(hold)[order.code], order);
      return true;
    }

    method OnPriceChange(code: string, price: real)
      modifies this
      ensures State() == Marked(old(State()), code, price)
      ensures old(Valid()) ==> Valid()
    {
      if code in hold {
        var position := hold[code].(currentPrice := price);
        hold := hold[code := position];
        shiZhi := position.currentPrice * position.volume as real;
        balance := availableBalance + shiZhi + freezeBalance;
      }
    }

    /** Cancellation is not implemented: it reports no transaction and touches nothing. */
    method CancelOrder() returns (r: Option<Transaction>)
      ensures r == None
    {
      r := None;
    }
  }
}
