/**
Signed-quantity netting, as it is written twice in the repository: once for the
application's own book (`PositionManager.apply_fill`) and once inside the simulated
broker (`MockBroker._apply_fill_to_position`). The two are modelled branch by branch,
and the theorems at the end relate whole runs of both to each other and to a cash-flow
ledger that knows nothing about averages.
*/
module Netting {
  import opened Common

  /** One execution: a positive quantity at a price. */
  datatype Fill = Fill(direction: Direction, quantity: Quantity, price: real) {
    function Signed(): real {
      if direction.LONG? then quantity else -(quantity as real)
    }
  }

  /** The numeric part of a `PositionRecord`; quantity is signed. */
  datatype Lot = Lot(quantity: real, averagePrice: real, realizedPnl: real)

  const EMPTY_LOT := Lot(0.0, 0.0, 0.0)

  /** The broker keeps no entry for a flat symbol and no realized figure per symbol. */
  datatype Holding = Holding(quantity: real, averagePrice: real)

  /** Profit on closing part of a position at a price. */
  function RealizedOn(quantity: real, averagePrice: real, closing: real, price: real): real {
    closing * (price - averagePrice) * (if quantity > 0.0 then 1.0 else -1.0)
  }

  /** `PositionManager.apply_fill` on one record. */
  function NetLot(p: Lot, f: Fill): Lot {
    var signed := f.Signed();
    var newQuantity := p.quantity + signed;
    if p.quantity == 0.0 || (p.quantity > 0.0) == (signed > 0.0) then
      var cost := p.averagePrice * p.quantity + f.price * signed;
      Lot(newQuantity, if newQuantity != 0.0 then cost / newQuantity else 0.0, p.realizedPnl)
    else
      var closing := Min(Abs(signed), Abs(p.quantity));
      var realized := RealizedOn(p.quantity, p.averagePrice, closing, f.price);
      var remainder := Abs(signed) - closing;
      var average :=
        if remainder > 0.0 then f.price
        else if newQuantity == 0.0 then 0.0
        else p.averagePrice;
      Lot(newQuantity, average, p.realizedPnl + realized)
  }

  /** Adding to a holding: the average becomes total cost over total quantity. */
  function Averaged(h: Holding, signed: real, price: real): Holding
    requires h.quantity + signed != 0.0
  {
    var cost := h.averagePrice * h.quantity + price * signed;
    Holding(h.quantity + signed, cost / (h.quantity + signed))
  }

  /** `MockBroker._apply_fill_to_position`: the holding left, and the change in cash. */
  function NetHolding(h: Option<Holding>, f: Fill): (Option<Holding>, real)
  {
    var signed := f.Signed();
    match h
    case None => (Some(Holding(signed, f.price)), 0.0)
    case Some(position) =>
      var newQuantity := position.quantity + signed;
      if (position.quantity > 0.0) == (signed > 0.0) then
        (Some(Averaged(position, signed, f.price)), 0.0)
      else
        var closed := Min(Abs(signed), Abs(position.quantity));
        var sign := if position.quantity > 0.0 then 1.0 else -1.0;
        var cash := (f.price - position.averagePrice) * closed * sign;
        var average :=
          if newQuantity != 0.0 && (newQuantity > 0.0) != (position.quantity > 0.0) then f.price
          else position.averagePrice;
        if newQuantity == 0.0 then (None, cash) else (Some(Holding(newQuantity, average)), cash)
  }

  function QuantityOf(h: Option<Holding>): real {
    if h.Some? then h.value.quantity else 0.0
  }

  lemma NetHoldingQuantity(h: Option<Holding>, f: Fill)
    ensures QuantityOf(NetHolding(h, f).0) == QuantityOf(h) + f.Signed()
  {}

  /** What a marked position is worth above what it cost: realized plus open profit. */
  function Worth(p: Lot, mark: real): real {
    p.realizedPnl + p.quantity * (mark - p.averagePrice)
  }

  /** The two books describe the same position; at the broker, absent means flat. */
  ghost predicate SamePosition(p: Lot, h: Option<Holding>) {
    match h
    case None => p.quantity == 0.0
    case Some(held) => held.quantity != 0.0 && p.quantity == held.quantity && p.averagePrice == held.averagePrice
  }

  lemma DivideBack(cost: real, q: real)
    requires q != 0.0
    ensures (cost / q) * q == cost
  {}

  /** One fill moves the worth at any mark by exactly what the fill itself is worth there. */
  lemma NetLotWorth(p: Lot, f: Fill, mark: real)
    ensures Worth(NetLot(p, f), mark) == Worth(p, mark) + f.Signed() * (mark - f.price)
    ensures NetLot(p, f).quantity == p.quantity + f.Signed()
  {
    var signed := f.Signed();
    var newQuantity := p.quantity + signed;
    if p.quantity == 0.0 || (p.quantity > 0.0) == (signed > 0.0) {
      var cost := p.averagePrice * p.quantity + f.price * signed;
      DivideBack(cost, newQuantity);
      assert newQuantity * (mark - cost / newQuantity) == newQuantity * mark - cost;
    } else {
      ReducingWorth(p, f, mark);
    }
  }

  lemma ReducingWorth(p: Lot, f: Fill, mark: real)
    requires p.quantity != 0.0 && (p.quantity > 0.0) != (f.Signed() > 0.0)
    ensures Worth(NetLot(p, f), mark) == Worth(p, mark) + f.Signed() * (mark - f.price)
  {
    var signed := f.Signed();
    var after := NetLot(p, f);
    if f.quantity > Abs(p.quantity) {
      assert after.averagePrice == f.price;
      assert after.realizedPnl == p.realizedPnl + p.quantity * (f.price - p.averagePrice);
    } else {
      assert after.realizedPnl == p.realizedPnl - signed * (f.price - p.averagePrice);
      assert after.quantity * (mark - after.averagePrice) == after.quantity * (mark - p.averagePrice);
    }
  }

  /** From agreeing positions, both sides net a fill the same way, and the broker's cash
      moves by the profit the book realizes. */
  lemma NettingAgrees(p: Lot, h: Option<Holding>, f: Fill)
    requires SamePosition(p, h)
    ensures SamePosition(NetLot(p, f), NetHolding(h, f).0)
    ensures NetLot(p, f).realizedPnl == p.realizedPnl + NetHolding(h, f).1
  {
    if p.quantity == 0.0 {
      var signed := f.Signed();
      DivideBack(f.price * signed, signed);
      assert (f.price * signed) / signed == f.price;
    } else if (p.quantity > 0.0) != (f.Signed() > 0.0) {
      var closed := Min(Abs(f.Signed()), Abs(p.quantity));
      var sign := if p.quantity > 0.0 then 1.0 else -1.0;
      assert (f.price - p.averagePrice) * closed * sign == closed * (f.price - p.averagePrice) * sign;
    }
  }

  // ---------------------------------------------------------------- whole runs

  /** A fill on a symbol. */
  datatype Execution = Execution(symbol: string, fill: Fill)

  function LotOf(book: map<string, Lot>, symbol: string): Lot {
    if symbol in book then book[symbol] else EMPTY_LOT
  }

  function HoldingOf(holdings: map<string, Holding>, symbol: string): Option<Holding> {
    if symbol in holdings then Some(holdings[symbol]) else None
  }

  /** The application's book after a run, starting empty. */
  function BookAfter(run: seq<Execution>): map<string, Lot> {
    if run == [] then map[]
    else
      BookApply(BookAfter(run[..|run| - 1]), run[|run| - 1])
  }

  function BookApply(book: map<string, Lot>, e: Execution): map<string, Lot> {
    book[e.symbol := NetLot(LotOf(book, e.symbol), e.fill)]
  }

  /** The broker's holdings and cash. */
  datatype Vault = Vault(holdings: map<string, Holding>, cash: real)

  /** Replacing, adding or dropping the entry of one symbol. */
  function Put(holdings: map<string, Holding>, symbol: string, h: Option<Holding>): map<string, Holding> {
    match h
    case None => holdings - {symbol}
    case Some(held) => holdings[symbol := held]
  }

  function VaultApply(v: Vault, e: Execution): Vault
  {
    var (h, cash) := NetHolding(HoldingOf(v.holdings, e.symbol), e.fill);
    Vault(Put(v.holdings, e.symbol, h), v.cash + cash)
  }

  function VaultAfter(startingBalance: real, run: seq<Execution>): Vault
  {
    if run == [] then Vault(map[], startingBalance)
    else VaultApply(VaultAfter(startingBalance, run[..|run| - 1]), run[|run| - 1])
  }

  /** What the fills of one symbol are worth at a mark, read off the fills alone. */
  function CashFlow(run: seq<Execution>, symbol: string, mark: real): real {
    if run == [] then 0.0
    else CashFlow(run[..|run| - 1], symbol, mark) + Contribution(run[|run| - 1], symbol, mark)
  }

  function Contribution(e: Execution, symbol: string, mark: real): real {
    if e.symbol == symbol then e.fill.Signed() * (mark - e.fill.price) else 0.0
  }

  ghost function RealizedBySymbol(book: map<string, Lot>): map<string, real> {
    map s | s in book :: book[s].realizedPnl
  }

  lemma WorthStep(book: map<string, Lot>, e: Execution, symbol: string, mark: real)
    ensures Worth(LotOf(BookApply(book, e), symbol), mark)
         == Worth(LotOf(book, symbol), mark) + Contribution(e, symbol, mark)
  {
    if e.symbol == symbol {
      NetLotWorth(LotOf(book, symbol), e.fill, mark);
    }
  }

  /** For every run, every symbol and every mark, the book's realized plus open profit is
      the cash-flow truth: netting, reducing and flipping neither create nor lose money. */
  lemma {:induction false} WorthIsCashFlow(run: seq<Execution>, symbol: string, mark: real)
    ensures Worth(LotOf(BookAfter(run), symbol), mark) == CashFlow(run, symbol, mark)
  {
    if run != [] {
      WorthIsCashFlow(run[..|run| - 1], symbol, mark);
      WorthStep(BookAfter(run[..|run| - 1]), run[|run| - 1], symbol, mark);
    }
  }

  ghost predicate BooksAgree(book: map<string, Lot>, holdings: map<string, Holding>) {
    forall s :: SamePosition(LotOf(book, s), HoldingOf(holdings, s))
  }

  /** One execution, netted independently on both sides. */
  lemma StepAgrees(book: map<string, Lot>, v: Vault, e: Execution)
    requires BooksAgree(book, v.holdings)
    ensures BooksAgree(BookApply(book, e), VaultApply(v, e).holdings)
    ensures NetLot(LotOf(book, e.symbol), e.fill).realizedPnl - LotOf(book, e.symbol).realizedPnl
         == VaultApply(v, e).cash - v.cash
  {
    var lot, held := LotOf(book, e.symbol), HoldingOf(v.holdings, e.symbol);
    assert SamePosition(lot, held);
    NettingAgrees(lot, held, e.fill);
    var book' := BookApply(book, e);
    var holdings' := VaultApply(v, e).holdings;
    forall s ensures SamePosition(LotOf(book', s), HoldingOf(holdings', s)) {
      if s == e.symbol {
        assert HoldingOf(holdings', s) == NetHolding(held, e.fill).0;
      } else {
        assert SamePosition(LotOf(book, s), HoldingOf(v.holdings, s));
      }
    }
  }

  /** After any run the two independent implementations hold the same signed quantity and
      average price for every symbol, and the broker's cash has moved by exactly the
      realized profit summed over the application's book. */
  lemma {:induction false} LedgersAgree(startingBalance: real, run: seq<Execution>)
    ensures BooksAgree(BookAfter(run), VaultAfter(startingBalance, run).holdings)
    ensures VaultAfter(startingBalance, run).cash == startingBalance + Total(RealizedBySymbol(BookAfter(run)))
  {
    if run == [] {
      assert RealizedBySymbol(BookAfter(run)) == map[];
    } else {
      var before := run[..|run| - 1];
      var e := run[|run| - 1];
      LedgersAgree(startingBalance, before);
      StepAgrees(BookAfter(before), VaultAfter(startingBalance, before), e);
      RealizedStep(BookAfter(before), e.symbol, NetLot(LotOf(BookAfter(before), e.symbol), e.fill));
    }
  }

  lemma RealizedStep(book: map<string, Lot>, symbol: string, p: Lot)
    ensures Total(RealizedBySymbol(book[symbol := p]))
         == Total(RealizedBySymbol(book)) - LotOf(book, symbol).realizedPnl + p.realizedPnl
  {
    var realized := RealizedBySymbol(book);
    TotalUpdate(realized, symbol, p.realizedPnl);
    assert RealizedBySymbol(book[symbol := p]) == realized[symbol := p.realizedPnl];
  }

  /** A fill that only reduces never leaves the position on the other side, and a fill no
      larger than the position never opens one. */
  lemma ReducingNeverFlips(p: Lot, f: Fill)
    requires p.quantity != 0.0 && (p.quantity > 0.0) != f.direction.LONG?
    requires f.quantity <= Abs(p.quantity)
    ensures var after := NetLot(p, f);
            && Abs(after.quantity) == Abs(p.quantity) - f.quantity
            && (after.quantity == 0.0 || (after.quantity > 0.0) == (p.quantity > 0.0))
            && (after.quantity == 0.0 ==> after.averagePrice == 0.0)
            && (after.quantity != 0.0 ==> after.averagePrice == p.averagePrice)
  {}
}
