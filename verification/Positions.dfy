/**
The application's own position book (`PositionRecord`, `PositionManager`): the netting
rules at work on records that also carry marks, brackets and a protective order.
*/
module Positions {
  import opened Common
  import opened Netting

  datatype PositionKey = PositionKey(accountId: string, symbol: string)

  datatype PositionValue = PositionValue(
    lot: Lot,
    unrealizedPnl: real,
    stop: Option<real>,
    target: Option<real>,
    protectiveOrderId: Option<nat>)
  {
    predicate IsOpen() {
      lot.quantity != 0.0
    }

    predicate IsLong() {
      lot.quantity > 0.0
    }
  }

  const FLAT := PositionValue(EMPTY_LOT, 0.0, None, None, None)

  type Book = map<PositionKey, PositionValue>

  function PositionOf(book: Book, key: PositionKey): PositionValue {
    if key in book then book[key] else FLAT
  }

  /** `apply_fill`: the record is created flat when it is missing, then netted. */
  function FillBook(book: Book, key: PositionKey, f: Fill): Book {
    var p := PositionOf(book, key);
    book[key := p.(lot := NetLot(p.lot, f))]
  }

  /** `mark_to_market`: flat and missing positions are left alone. */
  function MarkBook(book: Book, key: PositionKey, price: real): Book {
    if key in book && book[key].IsOpen() then book[key := Marked(book[key], price)] else book
  }

  function Marked(p: PositionValue, price: real): PositionValue {
    p.(unrealizedPnl := (price - p.lot.averagePrice) * p.lot.quantity)
  }

  /** Once marked, realized plus unrealized is the position's worth at the mark. */
  lemma MarkIsWorth(book: Book, key: PositionKey, price: real)
    requires key in book && book[key].IsOpen()
    ensures var p := MarkBook(book, key, price)[key];
            p.lot == book[key].lot && p.lot.realizedPnl + p.unrealizedPnl == Worth(p.lot, price)
  {}

  class PositionManager {
    var positions: Book

    constructor ()
      ensures positions == map[]
    {
      positions := map[];
    }

    /** Seeding from storage: each record replaces whatever its key held. */
    method Restore(records: seq<(PositionKey, PositionValue)>)
      modifies this
      ensures positions == Restored(old(positions), records)
    {
      for i := 0 to |records|
        invariant positions == Restored(old(positions), records[..i])
      {
        assert records[..i + 1][..i] == records[..i];
        positions := positions[records[i].0 := records[i].1];
      }
      assert records[..|records|] == records;
    }

    method ApplyFill(key: PositionKey, direction: Direction, quantity: Quantity, price: real)
      modifies this
      ensures positions == FillBook(old(positions), key, Fill(direction, quantity, price))
    {
      var fill := Fill(direction, quantity, price);
      var position := if key in positions then positions[key] else FLAT;
      var lot := position.lot;
      var signed := fill.Signed();
      var newQuantity := lot.quantity + signed;
      if lot.quantity == 0.0 || (lot.quantity > 0.0) == (signed > 0.0) {
        var cost := lot.averagePrice * lot.quantity + price * signed;
        var average := if newQuantity != 0.0 then cost / newQuantity else 0.0;
        assert NetLot(lot, fill) == Lot(newQuantity, average, lot.realizedPnl);
        lot := Lot(newQuantity, average, lot.realizedPnl);
      } else {
        var closing := Min(Abs(signed), Abs(lot.quantity));
        var realized := RealizedOn(lot.quantity, lot.averagePrice, closing, price);
        var remainder := Abs(signed) - closing;
        var average :=
          if remainder > 0.0 then price
          else if newQuantity == 0.0 then 0.0
          else lot.averagePrice;
        assert NetLot(lot, fill) == Lot(newQuantity, average, lot.realizedPnl + realized);
        lot := Lot(newQuantity, average, lot.realizedPnl + realized);
      }
      positions := positions[key := position.(lot := lot)];
    }

    method MarkToMarket(key: PositionKey, price: real)
      modifies this
      ensures positions == MarkBook(old(positions), key, price)
    {
      if key in positions && positions[key].IsOpen() {
        positions := positions[key := Marked(positions[key], price)];
      }
    }

    /** The stop and target an engine writes on a position after an entry. */
    method SetBracket(key: PositionKey, stop: Option<real>, target: Option<real>)
      requires key in positions
      modifies this
      ensures positions == old(positions)[key := old(positions)[key].(stop := stop, target := target)]
    {
      positions := positions[key := positions[key].(stop := stop, target := target)];
    }
  }

  function Restored(book: Book, records: seq<(PositionKey, PositionValue)>): Book {
    if records == [] then book
    else Restored(book, records[..|records| - 1])[records[|records| - 1].0 := records[|records| - 1].1]
  }
}
