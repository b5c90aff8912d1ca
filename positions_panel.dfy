/** The positions table, `frontend/src/components/PositionsPanel.jsx`: the tab filter, the
    manual close at the marked price, and the TP/SL edit dialog with its own checks. */
module PositionsView {
  import opened Common
  import opened Trading
  import OrderEntry

  /** The panel's own copy of the liquidation formula. */
  function LiquidationPrice(entryPrice: real, leverage: Leverage, direction: Direction, maintenance: real): (r: real)
    ensures r == OrderEntry.LiquidationPrice(entryPrice, leverage, direction, maintenance)
  {
    if direction == Buy then entryPrice * (1.0 - 1.0 / leverage as real + maintenance)
    else entryPrice * (1.0 + 1.0 / leverage as real - maintenance)
  }

  datatype Tab = OpenTab | PendingTab | AllTab

  predicate Shown(p: Position, tab: Tab)
  {
    match tab
    case OpenTab => p.status == Open
    case PendingTab => p.status == Pending
    case AllTab => true
  }

  /** The rows of a tab, in ledger order. */
  function TabFilter(ps: seq<Position>, tab: Tab): (r: seq<Position>)
    ensures forall p :: p in r <==> p in ps && Shown(p, tab)
    ensures |r| <= |ps|
  {
    if ps == [] then []
    else
      var init := TabFilter(ps[..|ps| - 1], tab);
      var last := ps[|ps| - 1];
      assert ps == ps[..|ps| - 1] + [last];
      if Shown(last, tab) then init + [last] else init
  }

  /** The open and pending tabs split the table: every row is on exactly one of them, and
      the two together are as long as the "all" tab. */
  lemma {:induction false} TabsPartition(ps: seq<Position>)
    ensures TabFilter(ps, AllTab) == ps
    ensures |TabFilter(ps, OpenTab)| + |TabFilter(ps, PendingTab)| == |ps|
  {
    if ps != [] {
      var init := ps[..|ps| - 1];
      var last := ps[|ps| - 1];
      TabsPartition(init);
      assert ps == init + [last];
      assert last.status.Open? || last.status.Pending?;
      assert TabFilter(ps, AllTab) == TabFilter(init, AllTab) + [last];
      if last.status == Open {
        assert TabFilter(ps, OpenTab) == TabFilter(init, OpenTab) + [last];
        assert TabFilter(ps, PendingTab) == TabFilter(init, PendingTab);
      } else {
        assert TabFilter(ps, OpenTab) == TabFilter(init, OpenTab);
        assert TabFilter(ps, PendingTab) == TabFilter(init, PendingTab) + [last];
      }
    }
  }

  /** `handleClosePosition`: a close request at the marked price, sent only when the
      position has a non-zero mark. */
  function CloseCall(p: Position): Option<real>
  {
    if p.currentPrice.Some? && p.currentPrice.value != 0.0 then p.currentPrice else None
  }

  /** Closing from the panel a position last marked by a tick realises exactly the P&L the
      panel showed for it. */
  lemma ManualCloseRealisesShownPnl(b: Book, k: nat, price: real, entryId: Id, now: nat)
    requires UniqueIds(b.positions)
    requires k < |b.positions| && b.positions[k].id !in b.closing
    requires price != 0.0
    ensures var p := Mark(b.positions[k], price);
            var b1 := b.(positions := b.positions[k := p]);
            && CloseCall(p) == Some(price)
            && Funds(CloseTrade(b1, p.id, CloseCall(p).value, entryId, now)) == Funds(b1) + p.pnl
  {
    var p := Mark(b.positions[k], price);
    var b1 := b.(positions := b.positions[k := p]);
    assert UniqueIds(b1.positions) by {
      forall i, j | 0 <= i < j < |b1.positions| ensures b1.positions[i].id != b1.positions[j].id {
        assert b1.positions[i].id == b.positions[i].id && b1.positions[j].id == b.positions[j].id;
      }
    }
    assert Matches(b1.positions[k], p.id, false);
    var f := Find(b1.positions, p.id, false);
    assert f.Some?;
    assert f.value == k;
    CloseTradeRealisesPnl(b1, p.id, price, entryId, now);
  }

  datatype DialogErrors = DialogErrors(takeProfit: bool, stopLoss: bool)

  /** `validateTpSl`: with no position selected the dialog is invalid; otherwise a filled-in
      take-profit must lie beyond the entry price in the trade's favour and a stop-loss
      beyond it against the trade. */
  function ValidateTpSl(selected: Option<Position>, tp: Field, sl: Field): (r: Option<DialogErrors>)
    ensures r.None? <==> selected.None?
    ensures r.Some? ==>
              var p := selected.value;
              && (!r.value.takeProfit <==>
                    (tp.Blank? || (if p.direction == Buy then tp.v > p.entryPrice else tp.v < p.entryPrice)))
              && (!r.value.stopLoss <==>
                    (sl.Blank? || (if p.direction == Buy then sl.v < p.entryPrice else sl.v > p.entryPrice)))
  {
    match selected
    case None => None
    case Some(p) =>
      var tpError :=
        tp.Entered? &&
        ((p.direction == Buy && tp.v <= p.entryPrice) || (p.direction == Sell && tp.v >= p.entryPrice));
      var slError :=
        sl.Entered? &&
        ((p.direction == Buy && sl.v >= p.entryPrice) || (p.direction == Sell && sl.v <= p.entryPrice));
      Some(DialogErrors(tpError, slError))
  }

  /** The call `handleModifyConfirm` makes, if any: `modifyPositionTpSl(id, tp || null, sl || null)`. */
  datatype ModifyCall = ModifyCall(id: Id, tp: Field, sl: Field)

  function ModifyConfirm(selected: Option<Position>, tp: Field, sl: Field): Option<ModifyCall>
  {
    match ValidateTpSl(selected, tp, sl)
    case None => None
    case Some(e) =>
      if e.takeProfit || e.stopLoss then None else Some(ModifyCall(selected.value.id, tp, sl))
  }

  /** An edit the dialog lets through leaves every position with that id holding thresholds
      on the proper sides of the selected position's entry price. */
  lemma ConfirmedEditIsOnProperSides(b: Book, selected: Position, tp: Field, sl: Field, i: nat)
    requires ModifyConfirm(Some(selected), tp, sl).Some?
    requires i < |b.positions| && b.positions[i].id == selected.id
    ensures var c := ModifyConfirm(Some(selected), tp, sl).value;
            var q := SetTpSl(b, c.id, c.tp, c.sl).positions[i];
            && (q.takeProfit.Some? ==>
                  (if selected.direction == Buy then q.takeProfit.value > selected.entryPrice
                   else q.takeProfit.value < selected.entryPrice))
            && (q.stopLoss.Some? ==>
                  (if selected.direction == Buy then q.stopLoss.value < selected.entryPrice
                   else q.stopLoss.value > selected.entryPrice))
  {
    SetTpSlChangesOnlyThresholds(b, selected.id, tp, sl, i);
  }

  /** After an accepted edit of a position with both thresholds set, no tick price meets
      the take-profit condition and the stop-loss condition at once. */
  lemma ConfirmedEditIsUnambiguous(b: Book, selected: Position, tp: Field, sl: Field, i: nat, price: real)
    requires ModifyConfirm(Some(selected), tp, sl).Some?
    requires i < |b.positions| && b.positions[i].id == selected.id
    requires b.positions[i].direction == selected.direction
    requires tp.Entered? && sl.Entered?
    ensures var q := SetTpSl(b, selected.id, tp, sl).positions[i];
            && q.takeProfit.Some? && q.stopLoss.Some?
            && !((if q.direction == Buy then price >= q.takeProfit.value else price <= q.takeProfit.value) &&
                 (if q.direction == Buy then price <= q.stopLoss.value else price >= q.stopLoss.value))
  {
    ConfirmedEditIsOnProperSides(b, selected, tp, sl, i);
    var q := SetTpSl(b, selected.id, tp, sl).positions[i];
    TriggerUnambiguous(q, price);
  }
}
