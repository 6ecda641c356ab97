/** The trade journal: an open row is inserted once and finalised once, by whichever of the
    timed close and the result reconciler comes first. */
module Journal {
  import opened Common
  import opened Decimals

  datatype Outcome = Open | Win | Loss | Breakeven

  datatype Trade = Trade(mode: string, outcome: Outcome, exit: Decimal, pnl: Decimal, closedAt: Time)

  datatype CloseUpdate = CloseUpdate(mode: string, exit: Decimal, pnl: Decimal, closedAt: Time)

  type Rows = map<Id, Trade>

  function OutcomeOf(pnl: Decimal): Outcome {
    if IsPositive(pnl) then Win else if Cmp(pnl, ZERO) < 0 then Loss else Breakeven
  }

  /** The outcome recorded is the sign of the realised result. */
  lemma OutcomeIsSign(pnl: Decimal)
    ensures OutcomeOf(pnl) == Win <==> Val(pnl) > 0.0
    ensures OutcomeOf(pnl) == Loss <==> Val(pnl) < 0.0
    ensures OutcomeOf(pnl) != Open
  {
    CmpIsExact(pnl, ZERO);
    assert Val(ZERO) == 0.0;
  }

  function Opened(mode: string): Trade {
    Trade(mode, Open, ZERO, ZERO, 0)
  }

  function Finalised(t: Trade, u: CloseUpdate): Trade {
    Trade(if u.mode != "" then u.mode else t.mode, OutcomeOf(u.pnl), u.exit, u.pnl, u.closedAt)
  }

  /** An open row never replaces a row; a final one replaces whatever is there. */
  function Saved(rows: Rows, id: Id, t: Trade): Rows {
    if t.outcome == Open && id in rows then rows else rows[id := t]
  }

  predicate IsOpen(rows: Rows, id: Id) {
    id in rows && rows[id].outcome == Open
  }

  function Closed(rows: Rows, id: Id, u: CloseUpdate): Rows {
    if IsOpen(rows, id) then rows[id := Finalised(rows[id], u)] else rows
  }

  class TradeJournal {
    var trades: Rows

    constructor ()
      ensures trades == map[]
    {
      trades := map[];
    }

    method Save(id: Id, t: Trade)
      modifies this
      ensures trades == Saved(old(trades), id, t)
    {
      if t.outcome == Open {
        if id in trades {
          return;
        }
      }
      trades := trades[id := t];
    }

    method Close(id: Id, u: CloseUpdate) returns (ok: bool)
      modifies this
      ensures ok == IsOpen(old(trades), id)
      ensures trades == Closed(old(trades), id, u)
      ensures ok ==> id in trades && trades[id].outcome != Open
    {
      hide Val, Cmp, IsPositive, OutcomeOf;
      OutcomeIsSign(u.pnl);
      if id !in trades || trades[id].outcome != Open {
        return false;
      }
      var trade := trades[id];
      trade := trade.(exit := u.exit, pnl := u.pnl, outcome := OutcomeOf(u.pnl), closedAt := u.closedAt);
      if u.mode != "" {
        trade := trade.(mode := u.mode);
      }
      trades := trades[id := trade];
      return true;
    }
  }
}
