/** The position book: one position per `symbol_side` key, updated in place by trades, closed
    with a realized PnL, and summed over. A new position's UUID is the parameter `id`. */
module PositionBook {
  import opened Wrappers
  import opened TradeTypes

  datatype Trade = Trade(symbol: string, side: string, quantity: real, price: real, timestamp: int)

  /** `format!("{}_{}", symbol, side)`. */
  function Key(symbol: string, side: string): string {
    symbol + "_" + side
  }

  /** Buy and long are the long sides; everything else counts as short for PnL. */
  predicate IsLongSide(side: string) { side == "buy" || side == "long" }
  predicate IsShortSide(side: string) { side == "sell" || side == "short" }

  /** The PnL of `quantity` held on `side` from `entry` to `price`. */
  function Pnl(side: string, entry: real, price: real, quantity: real): real {
    if IsLongSide(side) then (price - entry) * quantity else (entry - price) * quantity
  }

  /** The position a first trade opens. */
  function Opened(trade: Trade, id: string): (p: Position)
    ensures p.quantity == trade.quantity && p.entryPrice == trade.price
    ensures p.unrealizedPnl == 0.0 && p.realizedPnl == 0.0 && p.currentPrice == Some(trade.price)
  {
    Position(id, trade.symbol, trade.side, trade.quantity, trade.price, Some(trade.price), 0.0, 0.0, trade.timestamp)
  }

  /** An existing position after a trade: buys add at the cost-weighted average entry, sells
      reduce, and the PnL is marked at the trade price. */
  function Applied(pos: Position, trade: Trade): (p: Position)
    ensures IsLongSide(trade.side) ==> p.quantity == pos.quantity + trade.quantity
    ensures IsShortSide(trade.side) ==> p.quantity == pos.quantity - trade.quantity
    ensures !IsLongSide(trade.side) && !IsShortSide(trade.side) ==> p.quantity == pos.quantity && p.entryPrice == pos.entryPrice
    ensures !IsLongSide(trade.side) ==> p.entryPrice == pos.entryPrice
    ensures p.currentPrice == Some(trade.price) && p.unrealizedPnl == Pnl(pos.side, p.entryPrice, trade.price, p.quantity)
    ensures p.id == pos.id && p.symbol == pos.symbol && p.side == pos.side && p.realizedPnl == pos.realizedPnl
    ensures p.openedAt == pos.openedAt
  {
    var moved :=
      if IsLongSide(trade.side) then
        var totalCost := pos.quantity * pos.entryPrice + trade.quantity * trade.price;
        var quantity := pos.quantity + trade.quantity;
        pos.(quantity := quantity, entryPrice := if quantity > 0.0 then totalCost / quantity else trade.price)
      else if IsShortSide(trade.side) then pos.(quantity := pos.quantity - trade.quantity)
      else pos;
    moved.(currentPrice := Some(trade.price),
           unrealizedPnl := Pnl(moved.side, moved.entryPrice, trade.price, moved.quantity))
  }

  /** The book after `update_position(trade)`. */
  function Updated(book: map<string, Position>, trade: Trade, id: string): (r: map<string, Position>)
    ensures Key(trade.symbol, trade.side) in r
    ensures forall k :: k != Key(trade.symbol, trade.side) ==> (k in r <==> k in book)
    ensures forall k :: k != Key(trade.symbol, trade.side) && k in r ==> r[k] == book[k]
  {
    var key := Key(trade.symbol, trade.side);
    if key in book then book[key := Applied(book[key], trade)] else book[key := Opened(trade, id)]
  }

  /** The in-place update of an existing position in `update_position`, field by field. */
  method ApplyTrade(pos: Position, trade: Trade) returns (p: Position)
    ensures p == Applied(pos, trade)
  {
    p := pos;
    if IsLongSide(trade.side) {
      var totalCost := p.quantity * p.entryPrice + trade.quantity * trade.price;
      p := p.(quantity := p.quantity + trade.quantity);
      p := p.(entryPrice := if p.quantity > 0.0 then totalCost / p.quantity else trade.price);
    } else if IsShortSide(trade.side) {
      p := p.(quantity := p.quantity - trade.quantity);
    }
    p := p.(currentPrice := Some(trade.price));
    p := p.(unrealizedPnl := if IsLongSide(p.side) then (trade.price - p.entryPrice) * p.quantity
                             else (p.entryPrice - trade.price) * p.quantity);
  }

  /** A buy that leaves a positive quantity prices the position at the cost-weighted average:
      entry times quantity is the old cost plus the trade's cost. */
  lemma AverageEntry(pos: Position, trade: Trade)
    requires IsLongSide(trade.side) && pos.quantity + trade.quantity > 0.0
    ensures var p := Applied(pos, trade);
      p.entryPrice * p.quantity == pos.quantity * pos.entryPrice + trade.quantity * trade.price
  {
    var cost := pos.quantity * pos.entryPrice + trade.quantity * trade.price;
    var q := pos.quantity + trade.quantity;
    var p := Applied(pos, trade);
    assert p.entryPrice == cost / q && p.quantity == q;
    QuotientTimesDivisor(cost, q, p.entryPrice);
  }

  lemma QuotientTimesDivisor(a: real, n: real, q: real)
    requires n > 0.0 && q == a / n
    ensures q * n == a
  {
  }

  /** The long and the short entry of one symbol are separate: a trade on one side leaves the
      other side's position as it was. */
  lemma SidesIndependent(book: map<string, Position>, trade: Trade, id: string, otherSide: string)
    requires otherSide != trade.side
    ensures var k := Key(trade.symbol, otherSide);
      k in Updated(book, trade, id) <==> k in book
    ensures var k := Key(trade.symbol, otherSide);
      k in book ==> Updated(book, trade, id)[k] == book[k]
  {
    var k := Key(trade.symbol, otherSide);
    KeyDeterminesSide(trade.symbol, otherSide, trade.side);
  }

  lemma KeyDeterminesSide(symbol: string, a: string, b: string)
    requires a != b
    ensures Key(symbol, a) != Key(symbol, b)
  {
    assert a == Key(symbol, a)[|symbol| + 1..] && b == Key(symbol, b)[|symbol| + 1..];
  }

  /** The realized PnL `close_position` books for a position at `closePrice`. */
  function ClosedPnl(pos: Position, closePrice: real): real {
    Pnl(pos.side, pos.entryPrice, closePrice, pos.quantity)
  }

  // Sums over the book. `HashMap::values` has no order; the sum is taken over the key set.

  /** Which PnL a total adds up. */
  datatype PnlKind = Unrealized | Realized

  function PnlField(p: Position, kind: PnlKind): real {
    if kind == Unrealized then p.unrealizedPnl else p.realizedPnl
  }

  /** The sum of the chosen PnL over the positions at `keys`. */
  ghost function SumOver(book: map<string, Position>, keys: set<string>, kind: PnlKind): real
    requires keys <= book.Keys
    decreases keys
  {
    if keys == {} then 0.0
    else
      var k :| k in keys;
      PnlField(book[k], kind) + SumOver(book, keys - {k}, kind)
  }

  /** The sum does not depend on which key is taken first. */
  lemma {:induction false} SumOverPick(book: map<string, Position>, keys: set<string>, kind: PnlKind, k: string)
    requires keys <= book.Keys && k in keys
    ensures SumOver(book, keys, kind) == PnlField(book[k], kind) + SumOver(book, keys - {k}, kind)
    decreases keys
  {
    var j :| j in keys && SumOver(book, keys, kind) == PnlField(book[j], kind) + SumOver(book, keys - {j}, kind);
    if j != k {
      SumOverPick(book, keys - {j}, kind, k);
      SumOverPick(book, keys - {k}, kind, j);
      assert keys - {j} - {k} == keys - {k} - {j};
    }
  }

  /** The keys of positions with a positive quantity. */
  function OpenKeys(book: map<string, Position>): (r: set<string>)
    ensures r <= book.Keys
  {
    set k | k in book && book[k].quantity > 0.0
  }

  /** `PositionManager`. */
  class PositionManager {
    var positions: map<string, Position>

    constructor ()
      ensures positions == map[]
    {
      positions := map[];
    }

    /** `update_position(trade)`: only the entry under the trade's key changes. */
    method UpdatePosition(trade: Trade, id: string)
      modifies this
      ensures positions == Updated(old(positions), trade, id)
    {
      var key := Key(trade.symbol, trade.side);
      if key in positions {
        var pos := ApplyTrade(positions[key], trade);
        positions := positions[key := pos];
      } else {
        positions := positions[key := Opened(trade, id)];
      }
    }

    /** `get_position(symbol, side)`. */
    function GetPosition(symbol: string, side: string): (r: Option<Position>)
      reads this
      ensures r.Some? <==> Key(symbol, side) in positions
      ensures r.Some? ==> r.value == positions[Key(symbol, side)]
    {
      var key := Key(symbol, side);
      if key in positions then Some(positions[key]) else None
    }

    /** `remove_position(symbol, side)`: the removed position, if there was one. */
    method RemovePosition(symbol: string, side: string) returns (r: Option<Position>)
      modifies this
      ensures r == old(GetPosition(symbol, side))
      ensures positions == old(positions) - {Key(symbol, side)}
    {
      var key := Key(symbol, side);
      r := if key in positions then Some(positions[key]) else None;
      positions := positions - {key};
    }

    /** `close_position(symbol, side, close_price)`: books the side's PnL at the close price and
        sets the quantity to zero; an absent key gives 0 and changes nothing. */
    method ClosePosition(symbol: string, side: string, closePrice: real) returns (pnl: real)
      modifies this
      ensures Key(symbol, side) !in old(positions) ==> pnl == 0.0 && positions == old(positions)
      ensures Key(symbol, side) in old(positions) ==>
        var pos := old(positions)[Key(symbol, side)];
        pnl == ClosedPnl(pos, closePrice) &&
        positions == old(positions)[Key(symbol, side) := pos.(realizedPnl := pnl, quantity := 0.0)]
    {
      var key := Key(symbol, side);
      if key in positions {
        var pos := positions[key];
        pnl := if IsLongSide(pos.side) then (closePrice - pos.entryPrice) * pos.quantity
               else (pos.entryPrice - closePrice) * pos.quantity;
        positions := positions[key := pos.(realizedPnl := pnl, quantity := 0.0)];
      } else {
        pnl := 0.0;
      }
    }

    /** `clear()`. */
    method Clear()
      modifies this
      ensures positions == map[]
    {
      positions := map[];
    }

    /** `get_total_unrealized_pnl` and `get_total_realized_pnl`: a sum over the positions, in
        whatever order the map yields them. */
    method TotalPnl(kind: PnlKind) returns (total: real)
      ensures total == SumOver(positions, positions.Keys, kind)
    {
      var book := positions;
      var rest := book.Keys;
      total := 0.0;
      while rest != {}
        invariant rest <= book.Keys
        invariant total + SumOver(book, rest, kind) == SumOver(book, book.Keys, kind)
        decreases rest
        modifies {}
      {
        var k :| k in rest;
        SumOverPick(book, rest, kind, k);
        total := total + PnlField(book[k], kind);
        rest := rest - {k};
      }
    }

    /** `get_open_positions()`: the positions with a positive quantity, in map order. */
    method GetOpenPositions() returns (open: seq<Position>)
      ensures |open| == |OpenKeys(positions)|
      ensures forall p :: p in open ==> p.quantity > 0.0 && exists k :: k in positions && positions[k] == p
      ensures forall k :: k in OpenKeys(positions) ==> positions[k] in open
    {
      var book := positions;
      var rest := book.Keys;
      ghost var taken: set<string> := {};
      open := [];
      while rest != {}
        invariant rest <= book.Keys && taken <= book.Keys - rest
        invariant taken == set k | k in book && k !in rest && book[k].quantity > 0.0
        invariant |open| == |taken|
        invariant forall p :: p in open ==> p.quantity > 0.0 && exists k :: k in book && book[k] == p
        invariant forall k :: k in taken ==> book[k] in open
        decreases rest
        modifies {}
      {
        var k :| k in rest;
        if book[k].quantity > 0.0 {
          open := open + [book[k]];
          taken := taken + {k};
        }
        rest := rest - {k};
      }
      assert taken == OpenKeys(book);
    }

    /** `active_position_count()`: the number of positions with a positive quantity. */
    method ActivePositionCount() returns (n: nat)
      ensures n == |OpenKeys(positions)|
    {
      var book := positions;
      var rest := book.Keys;
      ghost var counted: set<string> := {};
      n := 0;
      while rest != {}
        invariant rest <= book.Keys
        invariant counted == set k | k in book && k !in rest && book[k].quantity > 0.0
        invariant n == |counted|
        decreases rest
        modifies {}
      {
        var k :| k in rest;
        if book[k].quantity > 0.0 {
          n := n + 1;
          counted := counted + {k};
        }
        rest := rest - {k};
      }
      assert counted == OpenKeys(book);
    }
  }

  /** An empty book has no open position and zero totals. */
  lemma EmptyBook(kind: PnlKind)
    ensures OpenKeys(map[]) == {} && SumOver(map[], {}, kind) == 0.0
  {
  }
}
