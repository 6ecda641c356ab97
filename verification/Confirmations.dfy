/** The confirmation collection. Every update is one guarded write on one document, so the
    terminal statuses absorb. The result of an execution is stored as text and parsed back. */
module Confirmations {
  import opened Common
  import opened Decimals
  import DecimalText

  datatype Status = Pending | Executing | Executed | Cancelled | Expired | Failed

  /** What a confirmation orders: an entry, a close (a timed close names its entry), or another
      exchange-changing action. */
  datatype Intent = OpenEntry | CloseOrder(entry: Option<Id>) | OtherOrder

  datatype Key = ConfirmKey(id: Id) | ArmedKey(mission: Id)

  datatype ExecutionResult = ExecutionResult(
    mode: string, clientOrderId: string, message: string, symbol: string, side: string,
    quantity: Decimal, exitPrice: Decimal, realizedPnl: Decimal)

  datatype ResultDoc = ResultDoc(
    mode: string, clientOrderId: string, message: string, symbol: string, side: string,
    quantity: string, exitPrice: string, realizedPnl: string)

  datatype Confirmation = Confirmation(
    userId: int, intent: Intent, idempotencyKey: Key, status: Status, expiresAt: Time, result: Option<ResultDoc>)

  type Docs = map<Id, Confirmation>

  const TERMINAL_RETENTION: Time := 90 * DAY

  // ---------------------------------------------------------------------------
  // Result documents
  // ---------------------------------------------------------------------------

  function ToDoc(r: ExecutionResult): ResultDoc {
    ResultDoc(r.mode, r.clientOrderId, r.message, r.symbol, r.side,
              DecimalText.String(r.quantity), DecimalText.String(r.exitPrice), DecimalText.String(r.realizedPnl))
  }

  /** Blank and malformed text both read back as zero. */
  function ParseOrZero(s: string): Decimal {
    match DecimalText.Parse(s)
    case Ok(d) => d
    case Err(_) => ZERO
  }

  function FromDoc(d: ResultDoc): ExecutionResult {
    ExecutionResult(d.mode, d.clientOrderId, d.message, d.symbol, d.side,
                    ParseOrZero(d.quantity), ParseOrZero(d.exitPrice), ParseOrZero(d.realizedPnl))
  }

  /** Equal as values: the texts agree and the decimals denote the same numbers. */
  ghost predicate SameResult(a: ExecutionResult, b: ExecutionResult) {
    && a.mode == b.mode && a.clientOrderId == b.clientOrderId && a.message == b.message
    && a.symbol == b.symbol && a.side == b.side
    && Val(a.quantity) == Val(b.quantity) && Val(a.exitPrice) == Val(b.exitPrice)
    && Val(a.realizedPnl) == Val(b.realizedPnl)
  }

  /** Storing a result and reading it back loses nothing. */
  lemma ResultRoundTrip(r: ExecutionResult)
    ensures SameResult(FromDoc(ToDoc(r)), r)
    ensures ToDoc(FromDoc(ToDoc(r))) == ToDoc(r)
  {
    hide Val;
    TextRoundTrip(r.quantity);
    TextRoundTrip(r.exitPrice);
    TextRoundTrip(r.realizedPnl);
  }

  lemma TextRoundTrip(d: Decimal)
    ensures Val(ParseOrZero(DecimalText.String(d))) == Val(d)
    ensures DecimalText.String(ParseOrZero(DecimalText.String(d))) == DecimalText.String(d)
  {
    hide DecimalText.Parse, DecimalText.String, Val;
    DecimalText.StringRoundTrip(d);
    NormalKeepsValue(d);
    DecimalText.StringIsCanonical(Normal(d), d);
  }

  // ---------------------------------------------------------------------------
  // Guarded updates
  // ---------------------------------------------------------------------------

  predicate KeyTaken(docs: Docs, key: Key) {
    exists id :: id in docs && docs[id].idempotencyKey == key
  }

  /** A user's live pending confirmation: what TakeForExecution and Cancel match. */
  predicate Actionable(docs: Docs, userId: int, id: Id, now: Time) {
    id in docs && docs[id].userId == userId && docs[id].status == Pending && docs[id].expiresAt > now
  }

  predicate HasStatus(docs: Docs, id: Id, status: Status) {
    id in docs && docs[id].status == status
  }

  function SetStatus(docs: Docs, id: Id, status: Status): Docs
    requires id in docs
  {
    docs[id := docs[id].(status := status)]
  }

  function Completed(docs: Docs, id: Id, result: ExecutionResult, now: Time): Docs
    requires id in docs
  {
    docs[id := docs[id].(status := Executed, result := Some(ToDoc(result)), expiresAt := now + TERMINAL_RETENTION)]
  }

  function MarkedFailed(docs: Docs, id: Id, now: Time): Docs
    requires id in docs
  {
    docs[id := docs[id].(status := Failed, expiresAt := now + TERMINAL_RETENTION)]
  }

  datatype Error = NotFound | Forbidden | AlreadyCancelled | AlreadyFailed | AlreadyExecuting | AlreadyExpired
                 | AlreadyExecuted | DuplicateKey

  datatype Taken = Claimed | Finished(result: ExecutionResult) | Refused(error: Error)

  /** The answer for a confirmation that could not be taken. */
  function Answer(c: Confirmation, userId: int, now: Time): Taken {
    if c.userId != userId then Refused(Forbidden)
    else match c.status
      case Executed => Finished(match c.result case Some(d) => FromDoc(d) case None => EmptyResult())
      case Cancelled => Refused(AlreadyCancelled)
      case Failed => Refused(AlreadyFailed)
      case Executing => Refused(AlreadyExecuting)
      case Expired => Refused(AlreadyExpired)
      case Pending => Refused(if c.expiresAt <= now then AlreadyExpired else AlreadyExecuting)
  }

  function EmptyResult(): ExecutionResult {
    ExecutionResult("", "", "", "", "", ZERO, ZERO, ZERO)
  }

  predicate LapsedPending(c: Confirmation, now: Time) {
    c.status == Pending && c.expiresAt <= now
  }

  class ConfirmationStore {
    var docs: Docs

    constructor ()
      ensures docs == map[]
    {
      docs := map[];
    }

    method Put(id: Id, c: Confirmation) returns (ok: bool)
      modifies this
      ensures ok == (id !in old(docs) && !KeyTaken(old(docs), c.idempotencyKey))
      ensures docs == if ok then old(docs)[id := c] else old(docs)
    {
      ok := id !in docs && !KeyTaken(docs, c.idempotencyKey);
      if ok {
        docs := docs[id := c];
      }
    }

    /** Takes a live pending confirmation; otherwise reports what became of it, marking a lapsed
        one expired. Uninterrupted here; Protocol lets others act between its store calls. */
    method TakeForExecution(userId: int, id: Id, now: Time) returns (r: Taken)
      modifies this
      ensures r.Claimed? <==> Actionable(old(docs), userId, id, now)
      ensures r.Claimed? ==> docs == SetStatus(old(docs), id, Executing)
      ensures r.Finished? ==> HasStatus(old(docs), id, Executed) && docs == old(docs)
      ensures id !in old(docs) ==> r == Refused(NotFound) && docs == old(docs)
      ensures id in old(docs) && !r.Claimed? ==>
                && r == Answer(old(docs)[id], userId, now)
                && docs == if old(docs)[id].userId == userId && LapsedPending(old(docs)[id], now)
                           then SetStatus(old(docs), id, Expired) else old(docs)
    {
      if Actionable(docs, userId, id, now) {
        docs := SetStatus(docs, id, Executing);
        return Claimed;
      }
      if id !in docs {
        return Refused(NotFound);
      }
      r := Answer(docs[id], userId, now);
      if docs[id].userId == userId && LapsedPending(docs[id], now) {
        docs := SetStatus(docs, id, Expired);
      }
    }

    method Complete(id: Id, result: ExecutionResult, now: Time) returns (ok: bool)
      modifies this
      ensures ok == HasStatus(old(docs), id, Executing)
      ensures docs == if ok then Completed(old(docs), id, result, now) else old(docs)
    {
      ok := HasStatus(docs, id, Executing);
      if ok {
        docs := Completed(docs, id, result, now);
      }
    }

    method Fail(id: Id, now: Time) returns (ok: bool)
      modifies this
      ensures ok == HasStatus(old(docs), id, Executing)
      ensures docs == if ok then MarkedFailed(old(docs), id, now) else old(docs)
    {
      ok := HasStatus(docs, id, Executing);
      if ok {
        docs := MarkedFailed(docs, id, now);
      }
    }

    method Cancel(userId: int, id: Id, now: Time) returns (error: Option<Error>)
      modifies this
      ensures Actionable(old(docs), userId, id, now) ==> error == None && docs == SetStatus(old(docs), id, Cancelled)
      ensures !Actionable(old(docs), userId, id, now) ==>
                && (error == None <==> HasStatus(old(docs), id, Cancelled) && old(docs)[id].userId == userId)
                && docs == if id in old(docs) && old(docs)[id].userId == userId && LapsedPending(old(docs)[id], now)
                           then SetStatus(old(docs), id, Expired) else old(docs)
      ensures HasStatus(old(docs), id, Executing) && old(docs)[id].userId == userId ==> error == Some(AlreadyExecuting)
    {
      if Actionable(docs, userId, id, now) {
        docs := SetStatus(docs, id, Cancelled);
        return None;
      }
      if id !in docs {
        return Some(NotFound);
      }
      if docs[id].userId != userId {
        return Some(Forbidden);
      }
      match docs[id].status {
        case Cancelled => error := None;
        case Executed => error := Some(AlreadyExecuted);
        case Executing => error := Some(AlreadyExecuting);
        case Failed => error := Some(AlreadyFailed);
        case Expired => error := Some(AlreadyExpired);
        case Pending =>
          error := Some(AlreadyExpired);
          docs := SetStatus(docs, id, Expired);
      }
    }
  }
}
