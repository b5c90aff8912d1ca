/** The paper-trading ledger of `frontend/src/context/TradingContext.jsx`: the cash balance,
    the open positions and pending limit orders, the trade history and the set of position
    ids whose close is in flight.

    The state is first described as a value (`Book`) with one pure transition per operation;
    the class `Ledger` at the end holds the same four variables and proves each of its
    methods against the transition of the same name. */
module Trading {
  import opened Common

  type Id = string

  /** A position is `'open'` or a `'pending'` limit order; closed and cancelled ones are
      deleted from the list rather than given a terminal status. */
  datatype Status = Open | Pending

  datatype OrderType = Market | Limit

  datatype Position = Position(
    id: Id,
    symbol: string,
    direction: Direction,
    quantity: real,
    entryPrice: real,
    leverage: Leverage,
    orderType: OrderType,
    takeProfit: Option<real>,
    stopLoss: Option<real>,
    openTime: nat,
    margin: real,
    pnl: real,
    status: Status,
    currentPrice: Option<real>,  // absent until the first price tick marks the position
    fees: Option<real>)          // never written by the ledger; read by the portfolio totals

  /** A trade-history record: `type: 'open'` or `type: 'close'`. */
  datatype Entry =
    | OpenEntry(id: Id, refId: Option<Id>, symbol: string, direction: Direction,
                quantity: real, price: real, leverage: Leverage, time: nat, margin: real)
    | CloseEntry(id: Id, refId: Option<Id>, symbol: string, direction: Direction, quantity: real,
                 entryPrice: real, closePrice: real, leverage: Leverage, time: nat,
                 pnl: real, margin: real, fees: Option<real>)

  /** The parameters of `executeTrade`. */
  datatype Order = Order(
    symbol: string,
    direction: Direction,
    quantity: real,
    entryPrice: real,
    leverage: Leverage,
    orderType: OrderType,
    takeProfit: Option<real>,
    stopLoss: Option<real>)

  /** The whole ledger state: `balance`, `positions`, `tradeHistory`, `closingPositions`. */
  datatype Book = Book(balance: real, positions: seq<Position>, history: seq<Entry>, closing: set<Id>)

  /** The balance of a session with nothing saved. */
  const InitialBalance: real := 10000.0

  // ---------------------------------------------------------------------------------------
  // Arithmetic of a position

  /** Margin reserved by a trade: `entryPrice * quantity / leverage`. */
  function RequiredMargin(entryPrice: real, quantity: real, leverage: Leverage): real
  {
    entryPrice * quantity / leverage as real
  }

  /** Profit or loss of a position marked or closed at `price`. */
  function Pnl(direction: Direction, entryPrice: real, quantity: real, price: real): real
  {
    if direction == Buy then price * quantity - entryPrice * quantity
    else entryPrice * quantity - price * quantity
  }

  /** With a positive quantity a buy gains exactly when the price rose and a sell exactly
      when it fell; at the entry price both are flat. */
  lemma PnlSign(direction: Direction, entryPrice: real, quantity: real, price: real)
    requires quantity > 0.0
    ensures Pnl(direction, entryPrice, quantity, price) > 0.0 <==>
              (if direction == Buy then price > entryPrice else price < entryPrice)
    ensures Pnl(direction, entryPrice, quantity, price) < 0.0 <==>
              (if direction == Buy then price < entryPrice else price > entryPrice)
    ensures Pnl(direction, entryPrice, quantity, price) == 0.0 <==> price == entryPrice
  {
    var d := price - entryPrice;
    assert price * quantity - entryPrice * quantity == d * quantity;
    if d > 0.0 {
      assert d * quantity > 0.0;
    } else if d < 0.0 {
      assert (-d) * quantity > 0.0;
    }
  }

  // ---------------------------------------------------------------------------------------
  // Queries and list operations on positions

  predicate Matches(p: Position, id: Id, pendingOnly: bool)
  {
    p.id == id && (pendingOnly ==> p.status == Pending)
  }

  /** `positions.find(p => p.id === id)` (with `pendingOnly`, `... && p.status === 'pending'`):
      the index of the first match. */
  function Find(ps: seq<Position>, id: Id, pendingOnly: bool): (r: Option<nat>)
    ensures r.Some? ==> r.value < |ps| && Matches(ps[r.value], id, pendingOnly)
    ensures r.Some? ==> forall j :: 0 <= j < r.value ==> !Matches(ps[j], id, pendingOnly)
    ensures r.None? ==> forall j :: 0 <= j < |ps| ==> !Matches(ps[j], id, pendingOnly)
  {
    if ps == [] then None
    else if Matches(ps[0], id, pendingOnly) then Some(0)
    else match Find(ps[1..], id, pendingOnly)
      case None => None
      case Some(k) => Some(k + 1)
  }

  predicate HasId(ps: seq<Position>, id: Id)
  {
    exists j :: 0 <= j < |ps| && ps[j].id == id
  }

  predicate UniqueIds(ps: seq<Position>)
  {
    forall i, j :: 0 <= i < j < |ps| ==> ps[i].id != ps[j].id
  }

  /** `positions.filter(p => p.id !== id)`. */
  function Without(ps: seq<Position>, id: Id): (r: seq<Position>)
    ensures forall p :: p in r <==> p in ps && p.id != id
    ensures |r| <= |ps|
  {
    if ps == [] then []
    else
      var init, last := ps[..|ps| - 1], ps[|ps| - 1];
      assert ps == init + [last];
      Without(init, id) + (if last.id == id then [] else [last])
  }

  /** Removing an id that no position carries leaves the list as it is. */
  lemma {:induction false} WithoutAbsent(ps: seq<Position>, id: Id)
    requires !HasId(ps, id)
    ensures Without(ps, id) == ps
  {
    if ps != [] {
      var init := ps[..|ps| - 1];
      assert !HasId(init, id) by {
        forall j | 0 <= j < |init| ensures init[j].id != id {
          assert init[j] == ps[j];
        }
      }
      WithoutAbsent(init, id);
      assert ps == init + [ps[|ps| - 1]];
    }
  }

  /** Margin held by all positions, open and pending alike. */
  function Reserved(ps: seq<Position>): real
  {
    if ps == [] then 0.0 else Reserved(ps[..|ps| - 1]) + ps[|ps| - 1].margin
  }

  lemma ReservedAppend(ps: seq<Position>, p: Position)
    ensures Reserved(ps + [p]) == Reserved(ps) + p.margin
  {
    assert (ps + [p])[..|ps|] == ps;
  }

  /** Lists whose margins agree index by index hold the same reserve. */
  lemma {:induction false} ReservedPointwise(ps: seq<Position>, qs: seq<Position>)
    requires |ps| == |qs|
    requires forall i :: 0 <= i < |ps| ==> ps[i].margin == qs[i].margin
    ensures Reserved(ps) == Reserved(qs)
  {
    if ps != [] {
      ReservedPointwise(ps[..|ps| - 1], qs[..|qs| - 1]);
    }
  }

  /** With unique ids, removing the position at index `k` releases exactly its margin. */
  lemma {:induction false} ReservedWithout(ps: seq<Position>, k: nat)
    requires UniqueIds(ps)
    requires k < |ps|
    ensures Reserved(Without(ps, ps[k].id)) == Reserved(ps) - ps[k].margin
  {
    var id := ps[k].id;
    var n := |ps|;
    var init, last := ps[..n - 1], ps[n - 1];
    assert ps == init + [last];
    assert UniqueIds(init) by {
      forall i, j | 0 <= i < j < |init| ensures init[i].id != init[j].id {
        assert init[i] == ps[i] && init[j] == ps[j];
      }
    }
    if k == n - 1 {
      assert !HasId(init, id) by {
        forall j | 0 <= j < |init| ensures init[j].id != id {
          assert init[j] == ps[j];
        }
      }
      WithoutAbsent(init, id);
      assert Without(ps, id) == init;
    } else {
      assert last.id != id;
      assert init[k] == ps[k];
      ReservedWithout(init, k);
      ReservedAppend(Without(init, id), last);
    }
  }

  // ---------------------------------------------------------------------------------------
  // addFunds, withdrawFunds

  function Deposit(b: Book, amount: real): (r: Book)
    ensures r.positions == b.positions && r.history == b.history && r.closing == b.closing
  {
    if amount <= 0.0 then b else b.(balance := b.balance + amount)
  }

  predicate WithdrawAccepted(b: Book, amount: real)
  {
    0.0 < amount <= b.balance
  }

  function Withdraw(b: Book, amount: real): (r: Book)
    ensures r.positions == b.positions && r.history == b.history && r.closing == b.closing
  {
    if amount <= 0.0 || amount > b.balance then b else b.(balance := b.balance - amount)
  }

  /** A deposit adds a positive amount and refuses anything else; a withdrawal takes a
      positive amount no larger than the balance, so it never leaves the balance negative. */
  lemma FundsMovement(b: Book, amount: real)
    ensures Deposit(b, amount).balance == b.balance + (if amount > 0.0 then amount else 0.0)
    ensures Withdraw(b, amount).balance ==
              b.balance - (if WithdrawAccepted(b, amount) then amount else 0.0)
    ensures WithdrawAccepted(b, amount) ==> Withdraw(b, amount).balance >= 0.0
    ensures b.balance >= 0.0 ==> Withdraw(b, amount).balance >= 0.0
  {
  }

  // ---------------------------------------------------------------------------------------
  // executeTrade

  predicate TradeAccepted(b: Book, o: Order)
  {
    RequiredMargin(o.entryPrice, o.quantity, o.leverage) <= b.balance
  }

  function NewPosition(o: Order, id: Id, now: nat): Position
  {
    Position(id, o.symbol, o.direction, o.quantity, o.entryPrice, o.leverage, o.orderType,
             o.takeProfit, o.stopLoss, now, RequiredMargin(o.entryPrice, o.quantity, o.leverage),
             0.0, if o.orderType == Market then Open else Pending, None, None)
  }

  /** The `'open'` history record of a market order; it shares the position's id. */
  function MarketEntry(p: Position): Entry
  {
    OpenEntry(p.id, None, p.symbol, p.direction, p.quantity, p.entryPrice, p.leverage,
              p.openTime, p.margin)
  }

  /** Opens a market position or places a limit order, reserving its margin. */
  function OpenTrade(b: Book, o: Order, id: Id, now: nat): (r: Book)
    ensures !TradeAccepted(b, o) ==> r == b
    ensures TradeAccepted(b, o) ==>
              && r.positions == b.positions + [NewPosition(o, id, now)]
              && r.balance == b.balance - NewPosition(o, id, now).margin
              && r.closing == b.closing
    ensures TradeAccepted(b, o) && o.orderType == Market ==>
              r.history == b.history + [MarketEntry(NewPosition(o, id, now))]
    ensures o.orderType == Limit ==> r.history == b.history
  {
    var m := RequiredMargin(o.entryPrice, o.quantity, o.leverage);
    if m > b.balance then b
    else
      var p := NewPosition(o, id, now);
      Book(b.balance - m, b.positions + [p],
           b.history + (if o.orderType == Market then [MarketEntry(p)] else []), b.closing)
  }

  /** Cash plus reserved margin. */
  function Funds(b: Book): real
  {
    b.balance + Reserved(b.positions)
  }

  /** Opening moves cash into reserved margin and nothing more, accepted or not. */
  lemma OpenTradeConservesFunds(b: Book, o: Order, id: Id, now: nat)
    ensures Funds(OpenTrade(b, o, id, now)) == Funds(b)
  {
    if TradeAccepted(b, o) {
      ReservedAppend(b.positions, NewPosition(o, id, now));
    }
  }

  lemma OpenTradeKeepsUniqueIds(b: Book, o: Order, id: Id, now: nat)
    requires UniqueIds(b.positions) && !HasId(b.positions, id)
    ensures UniqueIds(OpenTrade(b, o, id, now).positions)
  {
  }

  // ---------------------------------------------------------------------------------------
  // closePosition

  predicate CloseAccepted(b: Book, id: Id)
  {
    id !in b.closing && Find(b.positions, id, false).Some?
  }

  function CloseRecord(p: Position, closePrice: real, entryId: Id, now: nat): Entry
  {
    CloseEntry(entryId, Some(p.id), p.symbol, p.direction, p.quantity, p.entryPrice, closePrice,
               p.leverage, now, Pnl(p.direction, p.entryPrice, p.quantity, closePrice),
               p.margin, None)
  }

  /** Closes the first position with `id` at `closePrice`: marks the id as closing, logs one
      `'close'` record, credits margin plus P&L and deletes every position with that id. The
      position's status is not consulted, so a pending order can be closed too. */
  function CloseTrade(b: Book, id: Id, closePrice: real, entryId: Id, now: nat): (r: Book)
    ensures !CloseAccepted(b, id) ==> r == b
    ensures CloseAccepted(b, id) ==>
              var p := b.positions[Find(b.positions, id, false).value];
              && r.balance == b.balance + p.margin + Pnl(p.direction, p.entryPrice, p.quantity, closePrice)
              && r.history == b.history + [CloseRecord(p, closePrice, entryId, now)]
              && r.closing == b.closing + {id}
              && r.positions == Without(b.positions, id)
              && !HasId(r.positions, id)
              && forall q :: q in b.positions && q.id != id ==> q in r.positions
  {
    if id in b.closing then b
    else match Find(b.positions, id, false)
      case None => b
      case Some(k) =>
        var p := b.positions[k];
        var pnl := Pnl(p.direction, p.entryPrice, p.quantity, closePrice);
        Book(b.balance + p.margin + pnl, Without(b.positions, id),
             b.history + [CloseRecord(p, closePrice, entryId, now)], b.closing + {id})
  }

  /** The 1-second timer that takes an id out of the closing set. */
  function ReleaseClosing(b: Book, id: Id): (r: Book)
    ensures r.balance == b.balance && r.positions == b.positions && r.history == b.history
    ensures r.closing == b.closing - {id}
  {
    b.(closing := b.closing - {id})
  }

  /** A close realises exactly the position's P&L: cash plus reserved margin grows by it. */
  lemma CloseTradeRealisesPnl(b: Book, id: Id, closePrice: real, entryId: Id, now: nat)
    requires UniqueIds(b.positions)
    requires CloseAccepted(b, id)
    ensures var p := b.positions[Find(b.positions, id, false).value];
            Funds(CloseTrade(b, id, closePrice, entryId, now)) ==
              Funds(b) + Pnl(p.direction, p.entryPrice, p.quantity, closePrice)
  {
    var k := Find(b.positions, id, false).value;
    ReservedWithout(b.positions, k);
  }

  /** At most one close per position: once a close succeeded, every later close of the same
      id — before or after the closing mark is released, at any price — changes nothing. */
  lemma {:induction false} CloseAtMostOnce(b: Book, id: Id, p1: real, e1: Id, t1: nat,
                                           p2: real, e2: Id, t2: nat, released: bool)
    requires CloseAccepted(b, id)
    ensures var c := CloseTrade(b, id, p1, e1, t1);
            var c' := if released then ReleaseClosing(c, id) else c;
            !CloseAccepted(c', id) && CloseTrade(c', id, p2, e2, t2) == c'
  {
    var c := CloseTrade(b, id, p1, e1, t1);
    var c' := if released then ReleaseClosing(c, id) else c;
    assert !HasId(c'.positions, id);
    assert Find(c'.positions, id, false).None?;
  }

  // ---------------------------------------------------------------------------------------
  // cancelOrder

  /** Cancels the first pending order with `id`: returns its margin and deletes every
      position with that id. */
  function CancelPending(b: Book, id: Id): (r: Book)
    ensures Find(b.positions, id, true).None? ==> r == b
    ensures Find(b.positions, id, true).Some? ==>
              && r.balance == b.balance + b.positions[Find(b.positions, id, true).value].margin
              && r.positions == Without(b.positions, id)
              && r.history == b.history && r.closing == b.closing
  {
    match Find(b.positions, id, true)
    case None => b
    case Some(k) => b.(balance := b.balance + b.positions[k].margin, positions := Without(b.positions, id))
  }

  lemma CancelPendingConservesFunds(b: Book, id: Id)
    requires UniqueIds(b.positions)
    ensures Funds(CancelPending(b, id)) == Funds(b)
  {
    if Find(b.positions, id, true).Some? {
      ReservedWithout(b.positions, Find(b.positions, id, true).value);
    }
  }

  /** Placing a limit order under a fresh id and cancelling it restores the book exactly. */
  lemma LimitCancelRoundTrip(b: Book, o: Order, id: Id, now: nat)
    requires o.orderType == Limit && TradeAccepted(b, o)
    requires !HasId(b.positions, id)
    ensures CancelPending(OpenTrade(b, o, id, now), id) == b
  {
    var p := NewPosition(o, id, now);
    var ps := b.positions + [p];
    var f := Find(ps, id, true);
    assert Matches(ps[|b.positions|], id, true);
    assert f.Some? && f.value == |b.positions|;
    assert ps[..|ps| - 1] == b.positions;
    WithoutAbsent(b.positions, id);
    assert Without(ps, id) == b.positions;
  }

  /** A market position opened under a fresh id and closed at its entry price gives the
      balance back to the cent and leaves the position list as it was; the history gains the
      `'open'` and the `'close'` record. */
  lemma MarketCloseRoundTrip(b: Book, o: Order, id: Id, now: nat, entryId: Id, later: nat)
    requires o.orderType == Market && TradeAccepted(b, o)
    requires !HasId(b.positions, id) && id !in b.closing
    ensures var p := NewPosition(o, id, now);
            var c := CloseTrade(OpenTrade(b, o, id, now), id, o.entryPrice, entryId, later);
            && c.balance == b.balance
            && c.positions == b.positions
            && c.history == b.history + [MarketEntry(p), CloseRecord(p, o.entryPrice, entryId, later)]
            && CloseRecord(p, o.entryPrice, entryId, later).pnl == 0.0
  {
    var p := NewPosition(o, id, now);
    var ps := b.positions + [p];
    assert Matches(ps[|b.positions|], id, false);
    assert Find(ps, id, false) == Some(|b.positions|);
    assert ps[..|ps| - 1] == b.positions;
    WithoutAbsent(b.positions, id);
    assert Without(ps, id) == b.positions;
  }

  // ---------------------------------------------------------------------------------------
  // executeOrder, checkLimitOrders

  /** The fill of a pending order: `status: 'open'`, the execution price as entry price and a
      new open time; margin, quantity and everything else are kept. */
  function Filled(p: Position, price: real, now: nat): Position
  {
    p.(status := Open, entryPrice := price, openTime := now)
  }

  function FillAll(ps: seq<Position>, id: Id, price: real, now: nat): (r: seq<Position>)
    ensures |r| == |ps|
  {
    seq(|ps|, i requires 0 <= i < |ps| => if ps[i].id == id then Filled(ps[i], price, now) else ps[i])
  }

  /** Fills the first pending order with `id` at `price` and logs one `'open'` record; every
      position with that id is updated. */
  function FillOrder(b: Book, id: Id, price: real, entryId: Id, now: nat): (r: Book)
    ensures r.balance == b.balance && r.closing == b.closing
    ensures Find(b.positions, id, true).None? ==> r == b
    ensures Find(b.positions, id, true).Some? ==>
              var o := b.positions[Find(b.positions, id, true).value];
              && r.positions == FillAll(b.positions, id, price, now)
              && r.history == b.history + [OpenEntry(entryId, Some(id), o.symbol, o.direction,
                                                     o.quantity, price, o.leverage, now, o.margin)]
  {
    match Find(b.positions, id, true)
    case None => b
    case Some(k) =>
      var o := b.positions[k];
      b.(positions := FillAll(b.positions, id, price, now),
         history := b.history + [OpenEntry(entryId, Some(o.id), o.symbol, o.direction,
                                           o.quantity, price, o.leverage, now, o.margin)])
  }

  /** A fill reserves nothing new: balance and reserved margin are both unchanged, and the
      filled order is open at the execution price. */
  lemma FillOrderKeepsMargin(b: Book, id: Id, price: real, entryId: Id, now: nat)
    ensures Funds(FillOrder(b, id, price, entryId, now)) == Funds(b)
    ensures var f := Find(b.positions, id, true);
            f.Some? ==> var q := FillOrder(b, id, price, entryId, now).positions[f.value];
                        q.status == Open && q.entryPrice == price &&
                        q.margin == b.positions[f.value].margin
  {
    var r := FillOrder(b, id, price, entryId, now);
    if Find(b.positions, id, true).Some? {
      ReservedPointwise(r.positions, b.positions);
    }
  }

  /** The limit condition of `checkLimitOrders`: a buy limit fills at or below its price, a
      sell limit at or above it. */
  predicate LimitReached(o: Position, price: real)
  {
    || (o.direction == Buy && o.orderType == Limit && price <= o.entryPrice)
    || (o.direction == Sell && o.orderType == Limit && price >= o.entryPrice)
  }

  /** `positions.filter(p => p.symbol === symbol && p.status === 'pending')`. */
  function PendingFor(ps: seq<Position>, symbol: string): (r: seq<Position>)
    ensures forall p :: p in r <==> p in ps && p.symbol == symbol && p.status == Pending
  {
    if ps == [] then []
    else
      var init, last := ps[..|ps| - 1], ps[|ps| - 1];
      assert ps == init + [last];
      PendingFor(init, symbol) + (if last.symbol == symbol && last.status == Pending then [last] else [])
  }

  /** The `forEach` of `checkLimitOrders` over the selected orders, in order. */
  function FillReached(b: Book, orders: seq<Position>, price: real, entryId: Id, now: nat): Book
  {
    if orders == [] then b
    else
      var o := orders[|orders| - 1];
      var prev := FillReached(b, orders[..|orders| - 1], price, entryId, now);
      if LimitReached(o, price) then FillOrder(prev, o.id, price, entryId, now) else prev
  }

  lemma {:induction false} FillReachedConservesFunds(b: Book, orders: seq<Position>, price: real,
                                                     entryId: Id, now: nat)
    ensures FillReached(b, orders, price, entryId, now).balance == b.balance
    ensures Funds(FillReached(b, orders, price, entryId, now)) == Funds(b)
  {
    if orders != [] {
      var o := orders[|orders| - 1];
      var prev := FillReached(b, orders[..|orders| - 1], price, entryId, now);
      FillReachedConservesFunds(b, orders[..|orders| - 1], price, entryId, now);
      FillOrderKeepsMargin(prev, o.id, price, entryId, now);
    }
  }

  // ---------------------------------------------------------------------------------------
  // updatePositionPnl

  /** A position repriced by a tick: open, of the tick's symbol, not being closed. */
  predicate Tracked(p: Position, symbol: string, closing: set<Id>)
  {
    p.symbol == symbol && p.status == Open && p.id !in closing
  }

  function Mark(p: Position, price: real): Position
  {
    p.(pnl := Pnl(p.direction, p.entryPrice, p.quantity, price), currentPrice := Some(price))
  }

  /** Take-profit / stop-loss check: buy TP, sell TP, buy SL, sell SL, in that order. The
      close is scheduled at the threshold itself, not at the tick price. */
  function Trigger(p: Position, price: real): (r: Option<real>)
    ensures r.Some? ==> Some(r.value) == p.takeProfit || Some(r.value) == p.stopLoss
    ensures r.None? <==>
              ((p.takeProfit.Some? ==> (if p.direction == Buy then price < p.takeProfit.value
                                        else price > p.takeProfit.value)) &&
               (p.stopLoss.Some? ==> (if p.direction == Buy then price > p.stopLoss.value
                                      else price < p.stopLoss.value)))
  {
    assert p.direction.Buy? || p.direction.Sell?;
    if p.takeProfit.Some? && p.direction == Buy && price >= p.takeProfit.value then p.takeProfit
    else if p.takeProfit.Some? && p.direction == Sell && price <= p.takeProfit.value then p.takeProfit
    else if p.stopLoss.Some? && p.direction == Buy && price <= p.stopLoss.value then p.stopLoss
    else if p.stopLoss.Some? && p.direction == Sell && price >= p.stopLoss.value then p.stopLoss
    else None
  }

  /** For a position whose thresholds are on the proper sides of the entry price (buy:
      SL < TP; sell: TP < SL) at most one of them can be hit by a tick, so the order of the
      checks only matters for thresholds that were never validated. */
  lemma TriggerUnambiguous(p: Position, price: real)
    requires p.takeProfit.Some? && p.stopLoss.Some?
    requires if p.direction == Buy then p.stopLoss.value < p.takeProfit.value
             else p.takeProfit.value < p.stopLoss.value
    ensures Trigger(p, price).Some? ==>
              Trigger(p, price) == (if (p.direction == Buy && price >= p.takeProfit.value) ||
                                       (p.direction == Sell && price <= p.takeProfit.value)
                                    then p.takeProfit else p.stopLoss)
    ensures !((if p.direction == Buy then price >= p.takeProfit.value else price <= p.takeProfit.value) &&
              (if p.direction == Buy then price <= p.stopLoss.value else price >= p.stopLoss.value))
  {
  }

  datatype Reason = TakeProfit | StopLoss

  /** An entry of `positionsToClose`. */
  datatype CloseRequest = CloseRequest(id: Id, price: real, reason: Reason)

  function RequestFor(p: Position, symbol: string, price: real, closing: set<Id>): seq<CloseRequest>
  {
    if Tracked(p, symbol, closing) && Trigger(p, price).Some? then
      var at := Trigger(p, price).value;
      [CloseRequest(p.id, at, if Some(at) == p.takeProfit then TakeProfit else StopLoss)]
    else []
  }

  /** The positions after a tick of `symbol` at `price`. */
  function Repriced(ps: seq<Position>, symbol: string, price: real, closing: set<Id>): seq<Position>
  {
    seq(|ps|, i requires 0 <= i < |ps| =>
          if Tracked(ps[i], symbol, closing) then Mark(ps[i], price) else ps[i])
  }

  /** The closes a tick schedules, in position order. */
  function Requests(ps: seq<Position>, symbol: string, price: real, closing: set<Id>): seq<CloseRequest>
  {
    if ps == [] then []
    else Requests(ps[..|ps| - 1], symbol, price, closing) + RequestFor(ps[|ps| - 1], symbol, price, closing)
  }

  /** A tick changes `pnl` and `currentPrice` of the tracked positions only, leaves every
      other position as it was, keeps order, ids and margins, and so keeps the funds. */
  lemma RepricedChangesOnlyMarks(b: Book, symbol: string, price: real)
    ensures var r := Repriced(b.positions, symbol, price, b.closing);
            && |r| == |b.positions|
            && (forall i :: 0 <= i < |r| && !Tracked(b.positions[i], symbol, b.closing) ==>
                  r[i] == b.positions[i])
            && (forall i :: 0 <= i < |r| && Tracked(b.positions[i], symbol, b.closing) ==>
                  r[i] == b.positions[i].(pnl := r[i].pnl, currentPrice := Some(price)))
            && Reserved(r) == Reserved(b.positions)
  {
    ReservedPointwise(Repriced(b.positions, symbol, price, b.closing), b.positions);
  }

  /** Every scheduled close names a tracked position and its threshold, and a position in
      the closing set is never scheduled again. */
  lemma {:induction false} RequestsAreTracked(ps: seq<Position>, symbol: string, price: real,
                                              closing: set<Id>, k: nat)
    requires k < |Requests(ps, symbol, price, closing)|
    ensures var q := Requests(ps, symbol, price, closing)[k];
            exists j :: 0 <= j < |ps| && ps[j].id == q.id && Tracked(ps[j], symbol, closing) &&
                        Trigger(ps[j], price) == Some(q.price)
  {
    var init := ps[..|ps| - 1];
    var head := Requests(init, symbol, price, closing);
    if k < |head| {
      RequestsAreTracked(init, symbol, price, closing, k);
      var q := head[k];
      var j :| 0 <= j < |init| && init[j].id == q.id && Tracked(init[j], symbol, closing) &&
               Trigger(init[j], price) == Some(q.price);
      assert ps[j] == init[j];
    } else {
      assert ps[|ps| - 1].id == Requests(ps, symbol, price, closing)[k].id;
    }
  }

  /** The deferred `forEach(pos => closePosition(pos.id, pos.price))` over the requests. */
  function CloseAll(b: Book, reqs: seq<CloseRequest>, entryId: Id, now: nat): Book
  {
    if reqs == [] then b
    else
      var q := reqs[|reqs| - 1];
      CloseTrade(CloseAll(b, reqs[..|reqs| - 1], entryId, now), q.id, q.price, entryId, now)
  }

  // ---------------------------------------------------------------------------------------
  // modifyPositionTpSl

  /** Sets TP and SL of every position with `id` when one exists; a blank argument clears the
      threshold. */
  function SetTpSl(b: Book, id: Id, tp: Field, sl: Field): (r: Book)
    ensures r.balance == b.balance && r.history == b.history && r.closing == b.closing
    ensures |r.positions| == |b.positions|
  {
    if Find(b.positions, id, false).None? then b
    else b.(positions := seq(|b.positions|, i requires 0 <= i < |b.positions| =>
              if b.positions[i].id == id
              then b.positions[i].(takeProfit := FieldValue(tp), stopLoss := FieldValue(sl))
              else b.positions[i]))
  }

  /** Only the thresholds of the positions with that id change. */
  lemma SetTpSlChangesOnlyThresholds(b: Book, id: Id, tp: Field, sl: Field, i: nat)
    requires i < |b.positions|
    ensures var q := SetTpSl(b, id, tp, sl).positions[i];
            var p := b.positions[i];
            && q == p.(takeProfit := q.takeProfit, stopLoss := q.stopLoss)
            && (p.id != id ==> q == p)
            && (p.id == id ==> q.takeProfit == FieldValue(tp) && q.stopLoss == FieldValue(sl))
  {
    var q := SetTpSl(b, id, tp, sl).positions[i];
    if b.positions[i].id == id {
      assert Find(b.positions, id, false).Some?;
    }
  }

  // ---------------------------------------------------------------------------------------
  // The stateful ledger

  /** A positive-price scenario: 10000 in cash, buy 1 BTCUSDT at 50000 with 10x leverage,
      a tick at 55000, close at 55000. */
  lemma BtcLongScenario()
    ensures var o := Order("BTCUSDT", Buy, 1.0, 50000.0, 10, Market, None, None);
            var b0 := Book(InitialBalance, [], [], {});
            var b1 := OpenTrade(b0, o, "1", 0);
            var b2 := b1.(positions := Repriced(b1.positions, "BTCUSDT", 55000.0, b1.closing));
            var b3 := CloseTrade(b2, "1", 55000.0, "2", 1);
            && b1.balance == 5000.0
            && b2.positions[0].pnl == 5000.0
            && b3.balance == 15000.0
  {
    var o := Order("BTCUSDT", Buy, 1.0, 50000.0, 10, Market, None, None);
    var b1 := OpenTrade(Book(InitialBalance, [], [], {}), o, "1", 0);
    var b2 := b1.(positions := Repriced(b1.positions, "BTCUSDT", 55000.0, b1.closing));
    assert Find(b2.positions, "1", false) == Some(0);
  }

  class Ledger {
    var balance: real
    var positions: seq<Position>
    var history: seq<Entry>
    var closing: set<Id>

    function State(): Book
      reads this
    {
      Book(balance, positions, history, closing)
    }

    /** A session with nothing saved. */
    constructor ()
      ensures State() == Book(InitialBalance, [], [], {})
    {
      balance, positions, history, closing := InitialBalance, [], [], {};
    }

    method AddFunds(amount: real) returns (ok: bool)
      modifies this
      ensures ok == (amount > 0.0)
      ensures State() == Deposit(old(State()), amount)
    {
      if amount <= 0.0 {
        return false;
      }
      balance := balance + amount;
      return true;
    }

    method WithdrawFunds(amount: real) returns (ok: bool)
      modifies this
      ensures ok == WithdrawAccepted(old(State()), amount)
      ensures State() == Withdraw(old(State()), amount)
    {
      if amount <= 0.0 {
        return false;
      }
      if amount > balance {
        return false;
      }
      balance := balance - amount;
      return true;
    }

    method ExecuteTrade(o: Order, id: Id, now: nat) returns (r: Option<Position>)
      modifies this
      ensures r == if TradeAccepted(old(State()), o) then Some(NewPosition(o, id, now)) else None
      ensures State() == OpenTrade(old(State()), o, id, now)
    {
      var requiredMargin := RequiredMargin(o.entryPrice, o.quantity, o.leverage);
      if requiredMargin > balance {
        return None;
      }
      var p := NewPosition(o, id, now);
      positions := positions + [p];
      balance := balance - requiredMargin;
      if o.orderType == Market {
        history := history + [MarketEntry(p)];
      }
      return Some(p);
    }

    method ClosePosition(id: Id, closePrice: real, entryId: Id, now: nat) returns (ok: bool)
      modifies this
      ensures ok == CloseAccepted(old(State()), id)
      ensures State() == CloseTrade(old(State()), id, closePrice, entryId, now)
    {
      if id in closing {
        return false;
      }
      var found := Find(positions, id, false);
      if found.None? {
        return false;
      }
      var p := positions[found.value];
      closing := closing + {id};
      var pnl := Pnl(p.direction, p.entryPrice, p.quantity, closePrice);
      history := history + [CloseRecord(p, closePrice, entryId, now)];
      balance := balance + p.margin + pnl;
      positions := Without(positions, id);
      return true;
    }

    /** The timer that ends the closing mark of `id`. */
    method ClearClosing(id: Id)
      modifies this
      ensures State() == ReleaseClosing(old(State()), id)
    {
      closing := closing - {id};
    }

    /** Reprices the positions of `symbol` and returns the closes the tick calls for; the
        caller issues them afterwards with `CloseTriggered`. */
    method UpdatePositionPnl(symbol: string, price: real) returns (toClose: seq<CloseRequest>)
      modifies this
      ensures State() == old(State()).(positions := Repriced(old(positions), symbol, price, closing))
      ensures toClose == Requests(old(positions), symbol, price, closing)
    {
      var updated;
      updated, toClose := Reprice(positions, symbol, price, closing);
      positions := updated;
    }

    /** The deferred closes of the positions that hit TP or SL. */
    method CloseTriggered(toClose: seq<CloseRequest>, entryId: Id, now: nat)
      modifies this
      ensures State() == CloseAll(old(State()), toClose, entryId, now)
    {
      var i := 0;
      while i < |toClose|
        invariant 0 <= i <= |toClose|
        invariant State() == CloseAll(old(State()), toClose[..i], entryId, now)
      {
        assert toClose[..i + 1][..i] == toClose[..i];
        var _ := ClosePosition(toClose[i].id, toClose[i].price, entryId, now);
        i := i + 1;
      }
      assert toClose[..i] == toClose;
    }

    method CancelOrder(id: Id) returns (ok: bool)
      modifies this
      ensures ok == Find(old(positions), id, true).Some?
      ensures State() == CancelPending(old(State()), id)
    {
      var found := Find(positions, id, true);
      if found.None? {
        return false;
      }
      balance := balance + positions[found.value].margin;
      positions := Without(positions, id);
      return true;
    }

    method ExecuteOrder(id: Id, price: real, entryId: Id, now: nat) returns (ok: bool)
      modifies this
      ensures ok == Find(old(positions), id, true).Some?
      ensures State() == FillOrder(old(State()), id, price, entryId, now)
    {
      var found := Find(positions, id, true);
      if found.None? {
        return false;
      }
      var o := positions[found.value];
      positions := FillAll(positions, id, price, now);
      history := history + [OpenEntry(entryId, Some(o.id), o.symbol, o.direction,
                                      o.quantity, price, o.leverage, now, o.margin)];
      return true;
    }

    method CheckLimitOrders(symbol: string, price: real, entryId: Id, now: nat)
      modifies this
      ensures State() == FillReached(old(State()), PendingFor(old(positions), symbol), price, entryId, now)
    {
      var orders := PendingFor(positions, symbol);
      var i := 0;
      while i < |orders|
        invariant 0 <= i <= |orders|
        invariant State() == FillReached(old(State()), orders[..i], price, entryId, now)
      {
        assert orders[..i + 1][..i] == orders[..i];
        if LimitReached(orders[i], price) {
          var _ := ExecuteOrder(orders[i].id, price, entryId, now);
        }
        i := i + 1;
      }
      assert orders[..i] == orders;
    }

    method ModifyPositionTpSl(id: Id, tp: Field, sl: Field) returns (ok: bool)
      modifies this
      ensures ok == Find(old(positions), id, false).Some?
      ensures State() == SetTpSl(old(State()), id, tp, sl)
    {
      var found := Find(positions, id, false);
      if found.None? {
        return false;
      }
      var ps := positions;
      positions := seq(|ps|, i requires 0 <= i < |ps| =>
                         if ps[i].id == id
                         then ps[i].(takeProfit := FieldValue(tp), stopLoss := FieldValue(sl))
                         else ps[i]);
      return true;
    }
  }

  /** The `prev.map(...)` of `updatePositionPnl` together with the `positionsToClose` list it
      fills. */
  method Reprice(ps: seq<Position>, symbol: string, price: real, closing: set<Id>)
    returns (updated: seq<Position>, toClose: seq<CloseRequest>)
    ensures updated == Repriced(ps, symbol, price, closing)
    ensures toClose == Requests(ps, symbol, price, closing)
  {
    updated, toClose := [], [];
    var i := 0;
    while i < |ps|
      invariant 0 <= i <= |ps|
      invariant updated == Repriced(ps[..i], symbol, price, closing)
      invariant toClose == Requests(ps[..i], symbol, price, closing)
    {
      var p := ps[i];
      assert ps[..i + 1][..i] == ps[..i];
      if Tracked(p, symbol, closing) {
        var at := Trigger(p, price);
        if at.Some? {
          var reason := if at == p.takeProfit then TakeProfit else StopLoss;
          toClose := toClose + [CloseRequest(p.id, at.value, reason)];
        }
        updated := updated + [Mark(p, price)];
      } else {
        updated := updated + [p];
      }
      i := i + 1;
    }
    assert ps[..i] == ps;
  }
}
