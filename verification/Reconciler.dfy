/** One pass of the close reconciler over the two stores, uninterrupted. Protocol lets others act
    between its reads and writes. */
module Reconciler {
  import opened Common
  import C = Confirmations
  import S = ScheduledCloses

  const LIMIT := 200

  function StatusOf(docs: C.Docs, entry: Id): Option<C.Status> {
    if entry in docs then Some(docs[entry].status) else None
  }

  /** One close's turn in a pass: whether its status read and its write work, and the wall time then. */
  datatype Turn = Turn(read: bool, written: bool, wall: Time)

  /** What an unhindered pass makes of one awaiting close. */
  function Resolved(row: S.ScheduledClose, status: Option<C.Status>, now: Time, wall: Time): S.ScheduledClose {
    match status
    case Some(Executed) => S.Activated(row, wall)
    case Some(Failed) => S.Dropped(row, wall)
    case Some(Cancelled) => S.Dropped(row, wall)
    case Some(Expired) => S.Dropped(row, wall)
    case _ => if row.createdAt < now - S.AWAITING_TTL then S.Dropped(row, wall) else row
  }

  /** A failed read or write leaves the close for the next pass. */
  function After(row: S.ScheduledClose, status: Option<C.Status>, now: Time, turn: Turn): S.ScheduledClose {
    if turn.read && turn.written then Resolved(row, status, now, turn.wall) else row
  }

  /** An awaiting close is the only one of its entry, so the guarded write finds exactly it. */
  method Resolve(closes: S.ScheduledCloseStore, confirmations: C.ConfirmationStore, r: Id, now: Time, turn: Turn)
    requires S.OnePerEntry(closes.rows) && r in closes.rows && closes.rows[r].status == S.AwaitingEntry
    modifies closes
    ensures var row := old(closes.rows)[r];
            closes.rows == old(closes.rows)[r := After(row, StatusOf(confirmations.docs, row.entry), now, turn)]
  {
    var row := closes.rows[r];
    assert closes.rows == closes.rows[r := row];
    if !turn.read {
      return;
    }
    var status := StatusOf(confirmations.docs, row.entry);
    var hit := Some(r);
    assert S.Activatable(row, row.entry) && S.Droppable(row, row.entry);
    if status == Some(C.Executed) {
      if turn.written {
        hit := closes.ActivateByEntryConfirmation(row.entry, turn.wall);
      }
    } else if status.Some? && status.value in {C.Failed, C.Cancelled, C.Expired} {
      if turn.written {
        hit := closes.CancelByEntryConfirmation(row.entry, turn.wall);
      }
    } else if row.createdAt < now - S.AWAITING_TTL {
      if turn.written {
        hit := closes.CancelByEntryConfirmation(row.entry, turn.wall);
      }
    }
    assert hit == Some(r);
  }

  function Awaiting(rows: S.Rows): set<Id> {
    set r | r in rows && rows[r].status == S.AwaitingEntry
  }

  function SetOf(ids: seq<Id>): set<Id> {
    set i | 0 <= i < |ids| :: ids[i]
  }

  lemma {:induction false} DistinctSize(ids: seq<Id>)
    requires forall i, j :: 0 <= i < j < |ids| ==> ids[i] != ids[j]
    ensures |SetOf(ids)| == |ids|
  {
    if ids != [] {
      var last := ids[|ids| - 1];
      DistinctSize(ids[..|ids| - 1]);
      assert SetOf(ids) == SetOf(ids[..|ids| - 1]) + {last};
    }
  }

  /** A full list that misses an awaiting close means there are more awaiting closes than it holds. */
  lemma AllListed(awaiting: set<Id>, ids: seq<Id>, limit: nat)
    requires forall i, j :: 0 <= i < j < |ids| ==> ids[i] != ids[j]
    requires forall i :: 0 <= i < |ids| ==> ids[i] in awaiting
    requires forall r :: r in awaiting && r !in ids ==> |ids| == limit
    ensures |awaiting| <= limit ==> forall r :: r in awaiting ==> r in ids
  {
    DistinctSize(ids);
    forall r | r in awaiting && r !in ids
      ensures |awaiting| > limit
    {
      assert r !in SetOf(ids);
      Contained(SetOf(ids) + {r}, awaiting);
    }
  }

  lemma {:induction false} Contained(a: set<Id>, b: set<Id>)
    requires a <= b
    ensures |a| <= |b|
  {
    if a != {} {
      var x :| x in a;
      Contained(a - {x}, b - {x});
    }
  }

  /** Progress of a pass: the first n listed closes are resolved, every other row is as before. */
  ghost predicate ResolvedSoFar(before: S.Rows, after: S.Rows, listed: seq<Id>, n: nat, docs: C.Docs, now: Time, turns: nat -> Turn) {
    && after.Keys == before.Keys && n <= |listed|
    && (forall i :: 0 <= i < |listed| ==> listed[i] in before)
    && (forall r :: r in before && r !in listed[..n] ==> after[r] == before[r])
    && (forall i :: 0 <= i < n ==>
          after[listed[i]] == After(before[listed[i]], StatusOf(docs, before[listed[i]].entry), now, turns(i)))
  }

  lemma NextResolved(before: S.Rows, after: S.Rows, listed: seq<Id>, n: nat, docs: C.Docs, now: Time, turns: nat -> Turn)
    requires ResolvedSoFar(before, after, listed, n, docs, now, turns) && n < |listed|
    requires forall i, j :: 0 <= i < j < |listed| ==> listed[i] != listed[j]
    requires S.OnePerEntry(after)
    ensures after[listed[n]] == before[listed[n]]
    ensures var row := before[listed[n]];
            var next := after[listed[n] := After(row, StatusOf(docs, row.entry), now, turns(n))];
            ResolvedSoFar(before, next, listed, n + 1, docs, now, turns) && S.OnePerEntry(next)
  {
    hide After;
    assert listed[..n + 1] == listed[..n] + [listed[n]];
    ResolvedEntry(before[listed[n]], StatusOf(docs, before[listed[n]].entry), now, turns(n));
  }

  lemma ResolvedEntry(row: S.ScheduledClose, status: Option<C.Status>, now: Time, turn: Turn)
    ensures After(row, status, now, turn).entry == row.entry
  {}

  /** The oldest awaiting closes are resolved by the status of their entries, each at the wall time of
      its own turn unless its read or write fails, and every other row stays as it was. With no more
      awaiting closes than the limit that is all of them. */
  method ReconcileAwaitingCloses(closes: S.ScheduledCloseStore, confirmations: C.ConfirmationStore, now: Time, turns: nat -> Turn)
    returns (listed: seq<Id>)
    requires S.OnePerEntry(closes.rows)
    modifies closes
    ensures ResolvedSoFar(old(closes.rows), closes.rows, listed, |listed|, confirmations.docs, now, turns)
    ensures |listed| <= LIMIT && forall i :: 0 <= i < |listed| ==> listed[i] in Awaiting(old(closes.rows))
    ensures |Awaiting(old(closes.rows))| <= LIMIT ==> forall r :: r in Awaiting(old(closes.rows)) ==> r in listed
    ensures S.OnePerEntry(closes.rows)
  {
    hide After, ResolvedSoFar, S.OnePerEntry;
    ghost var before := closes.rows;
    listed := closes.ListAwaitingEntry(LIMIT);
    AllListed(Awaiting(before), listed, LIMIT);
    NoneResolvedYet(before, listed, confirmations.docs, now, turns);
    var i := 0;
    while i < |listed|
      invariant 0 <= i <= |listed| && S.OnePerEntry(closes.rows)
      invariant ResolvedSoFar(before, closes.rows, listed, i, confirmations.docs, now, turns)
    {
      NextResolved(before, closes.rows, listed, i, confirmations.docs, now, turns);
      Listed(before, closes.rows, listed, i, confirmations.docs, now, turns);
      Resolve(closes, confirmations, listed[i], now, turns(i));
      i := i + 1;
    }
  }

  lemma NoneResolvedYet(before: S.Rows, listed: seq<Id>, docs: C.Docs, now: Time, turns: nat -> Turn)
    requires forall i :: 0 <= i < |listed| ==> listed[i] in before
    ensures ResolvedSoFar(before, before, listed, 0, docs, now, turns)
  {}

  lemma Listed(before: S.Rows, after: S.Rows, listed: seq<Id>, n: nat, docs: C.Docs, now: Time, turns: nat -> Turn)
    requires ResolvedSoFar(before, after, listed, n, docs, now, turns) && n < |listed|
    ensures listed[n] in before && listed[n] in after
  {}

  predicate EntryEnded(status: Option<C.Status>) {
    status.Some? && status.value in {C.Executed, C.Failed, C.Cancelled, C.Expired}
  }

  /** What a pass means for every awaiting close, when there are no more of them than the limit: if none
      of the calls for it fails, it is armed exactly when its entry executed, falls due one window after
      its turn, is dropped exactly when its entry ended otherwise or is not known to have ended after
      the awaiting time, and else still awaits. If one fails, the close is as it was. */
  lemma ExecutedEntriesAreArmed(before: S.Rows, after: S.Rows, listed: seq<Id>, docs: C.Docs, now: Time, turns: nat -> Turn, r: Id)
    requires ResolvedSoFar(before, after, listed, |listed|, docs, now, turns)
    requires |Awaiting(before)| <= LIMIT ==> forall q :: q in Awaiting(before) ==> q in listed
    requires |Awaiting(before)| <= LIMIT && r in Awaiting(before)
    ensures r in after
    ensures exists i :: 0 <= i < |listed| && listed[i] == r && Settles(before[r], after[r], StatusOf(docs, before[r].entry), now, turns(i))
  {
    hide Settles, After;
    var i :| 0 <= i < |listed| && listed[i] == r;
    TurnSettles(before[r], StatusOf(docs, before[r].entry), now, turns(i));
    assert Settles(before[r], after[r], StatusOf(docs, before[r].entry), now, turns(i));
  }

  lemma TurnSettles(row: S.ScheduledClose, status: Option<C.Status>, now: Time, turn: Turn)
    requires row.status == S.AwaitingEntry
    ensures Settles(row, After(row, status, now, turn), status, now, turn)
  {}

  ghost predicate Settles(row: S.ScheduledClose, next: S.ScheduledClose, status: Option<C.Status>, now: Time, turn: Turn) {
    if turn.read && turn.written then
      && (next.status == S.Pending <==> status == Some(C.Executed))
      && (next.status == S.Pending ==> next.dueAt == turn.wall + row.window)
      && (next.status == S.Cancelled <==>
            status != Some(C.Executed) && (EntryEnded(status) || row.createdAt < now - S.AWAITING_TTL))
      && (next.status == S.Pending || next.status == S.Cancelled || next == row)
    else next == row
  }
}
