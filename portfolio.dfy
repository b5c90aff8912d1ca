/** The account summary of `frontend/src/components/PortfolioPanel.jsx`: position value,
    fees, realised and unrealised P&L, margin used, the displayed totals, and the guards on
    the deposit and withdraw buttons. */
module Portfolio {
  import opened Common
  import opened Trading
  import PositionsView
  import Analytics

  function OpenOnly(ps: seq<Position>): seq<Position>
  {
    PositionsView.TabFilter(ps, PositionsView.OpenTab)
  }

  /** `quantity * (currentPrice || entryPrice)` summed over the open positions. */
  function TotalPositionValue(ps: seq<Position>): real
  {
    Analytics.PositionValue(OpenOnly(ps))
  }

  /** `pnl || 0` summed over the open positions (the ledger always stores a number). */
  function UnrealizedPnl(ps: seq<Position>): real
  {
    Analytics.TotalPnl(OpenOnly(ps))
  }

  /** Margin held by the open positions only; pending orders hold margin too but are not
      counted here. */
  function MarginUsed(ps: seq<Position>): real
  {
    Reserved(OpenOnly(ps))
  }

  function FeeOf(f: Option<real>): real
  {
    if f.Some? then f.value else 0.0
  }

  function PositionFees(ps: seq<Position>): real
  {
    if ps == [] then 0.0 else PositionFees(ps[..|ps| - 1]) + FeeOf(ps[|ps| - 1].fees)
  }

  function CloseFees(h: seq<Entry>): real
  {
    if h == [] then 0.0
    else CloseFees(h[..|h| - 1]) + (if h[|h| - 1].CloseEntry? then FeeOf(h[|h| - 1].fees) else 0.0)
  }

  /** Fees of every position, open or pending, plus fees of the close records. */
  function TotalFees(ps: seq<Position>, h: seq<Entry>): real
  {
    PositionFees(ps) + CloseFees(h)
  }

  /** The "Total Balance" card: cash plus unrealised P&L. */
  function DisplayedTotal(b: Book): real
  {
    b.balance + UnrealizedPnl(b.positions)
  }

  /** The "Account Equity" card. */
  function Equity(b: Book): real
  {
    b.balance + UnrealizedPnl(b.positions) - TotalFees(b.positions, b.history)
  }

  /** The "Margin Used %" card: `totalMarginUsed / balance * 100`. */
  function MarginUsedPercent(b: Book): (r: Num)
    ensures r.Finite? <==> b.balance != 0.0
    ensures r.Finite? ==> r.v * b.balance == MarginUsed(b.positions) * 100.0
  {
    Common.Percent(Divide(MarginUsed(b.positions), b.balance))
  }

  /** `fundAmount && parseFloat(fundAmount) > 0`: the amount forwarded to the ledger. */
  function FundRequest(amount: Field): (r: Option<real>)
    ensures r.Some? ==> r.value > 0.0
    ensures r.None? <==> amount.Blank? || amount.v <= 0.0
  {
    if amount.Entered? && amount.v > 0.0 then Some(amount.v) else None
  }

  /** A forwarded deposit is always booked in full; a forwarded withdrawal is booked in
      full unless it exceeds the cash, and nothing is sent for an empty or non-positive
      field. */
  lemma FundButtonsReachLedger(b: Book, amount: Field)
    ensures FundRequest(amount).Some? ==>
              Deposit(b, FundRequest(amount).value).balance == b.balance + amount.v
    ensures FundRequest(amount).Some? ==>
              (Withdraw(b, FundRequest(amount).value).balance == b.balance - amount.v <==> amount.v <= b.balance)
  {
    if FundRequest(amount).Some? {
      FundsMovement(b, amount.v);
    }
  }

  /** Open plus pending margin is the whole reserve: the margin-used card leaves out exactly
      the pending orders' margin. */
  lemma {:induction false} MarginSplit(ps: seq<Position>)
    ensures MarginUsed(ps) + Reserved(PositionsView.TabFilter(ps, PositionsView.PendingTab)) == Reserved(ps)
  {
    if ps != [] {
      var init := ps[..|ps| - 1];
      var last := ps[|ps| - 1];
      MarginSplit(init);
      assert ps == init + [last];
      var o := PositionsView.TabFilter(init, PositionsView.OpenTab);
      var q := PositionsView.TabFilter(init, PositionsView.PendingTab);
      assert last.status.Open? || last.status.Pending?;
      assert ps[..|ps| - 1] == init;
      assert MarginUsed(init) + Reserved(q) == Reserved(init);
      assert Reserved(ps) == Reserved(init) + last.margin;
      if last.status == Open {
        assert PositionsView.TabFilter(ps, PositionsView.OpenTab) == o + [last];
        assert PositionsView.TabFilter(ps, PositionsView.PendingTab) == q;
        ReservedAppend(o, last);
      } else {
        assert PositionsView.TabFilter(ps, PositionsView.OpenTab) == o;
        assert PositionsView.TabFilter(ps, PositionsView.PendingTab) == q + [last];
        ReservedAppend(q, last);
      }
    }
  }

  lemma {:induction false} NoPositionFees(ps: seq<Position>)
    requires forall p :: p in ps ==> p.fees.None?
    ensures PositionFees(ps) == 0.0
  {
    if ps != [] {
      assert forall p :: p in ps[..|ps| - 1] ==> p in ps;
      NoPositionFees(ps[..|ps| - 1]);
    }
  }

  lemma {:induction false} NoCloseFees(h: seq<Entry>)
    requires forall e :: e in h && e.CloseEntry? ==> e.fees.None?
    ensures CloseFees(h) == 0.0
  {
    if h != [] {
      assert forall e :: e in h[..|h| - 1] ==> e in h;
      NoCloseFees(h[..|h| - 1]);
    }
  }

  /** No position and no close record carries a fee. */
  predicate NoFees(b: Book)
  {
    && (forall p :: p in b.positions ==> p.fees.None?)
    && (forall e :: e in b.history && e.CloseEntry? ==> e.fees.None?)
  }

  /** The ledger never writes a fee: opening, closing and filling keep a fee-free book
      fee-free. */
  lemma LedgerWritesNoFees(b: Book, o: Order, id: Id, price: real, entryId: Id, now: nat)
    requires NoFees(b)
    ensures NoFees(OpenTrade(b, o, id, now))
    ensures NoFees(CloseTrade(b, id, price, entryId, now))
    ensures NoFees(FillOrder(b, id, price, entryId, now))
  {
    var f := Find(b.positions, id, true);
    if f.Some? {
      var r := FillOrder(b, id, price, entryId, now);
      forall p | p in r.positions ensures p.fees.None? {
        var i :| 0 <= i < |r.positions| && r.positions[i] == p;
        assert r.positions[i] == b.positions[i] || r.positions[i] == Filled(b.positions[i], price, now);
      }
    }
  }

  /** For a fee-free book, the equity card shows the same number as the total-balance
      card. */
  lemma EquityEqualsTotalWithoutFees(b: Book)
    requires NoFees(b)
    ensures Equity(b) == DisplayedTotal(b)
  {
    NoPositionFees(b.positions);
    NoCloseFees(b.history);
  }

  /** Opening a market order moves its margin out of the cash and so out of the displayed
      total (a new position has no P&L yet); the displayed total plus the margin used is
      unchanged. */
  lemma MarketOpenMovesMarginOutOfTotal(b: Book, o: Order, id: Id, now: nat)
    requires o.orderType == Market && TradeAccepted(b, o)
    ensures var r := OpenTrade(b, o, id, now);
            DisplayedTotal(r) + MarginUsed(r.positions) == DisplayedTotal(b) + MarginUsed(b.positions)
  {
    var p := NewPosition(o, id, now);
    var ps := b.positions + [p];
    assert ps[..|ps| - 1] == b.positions;
    assert OpenOnly(ps) == OpenOnly(b.positions) + [p];
    var op := OpenOnly(b.positions) + [p];
    assert op[..|op| - 1] == OpenOnly(b.positions);
    ReservedAppend(OpenOnly(b.positions), p);
  }
}
