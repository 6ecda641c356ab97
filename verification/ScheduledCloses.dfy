/** The plan-end close jobs of missions: one row per entry confirmation, moved only by guarded
    single-row updates. */
module ScheduledCloses {
  import opened Common

  datatype Status = AwaitingEntry | Pending | Executing | Done | Cancelled | Skipped

  datatype ScheduledClose = ScheduledClose(
    userId: int, symbol: string, side: string, dueAt: Time, window: Time, entry: Id,
    status: Status, confirmation: Option<Id>, createdAt: Time, updatedAt: Time, purgeAt: Option<Time>)

  type Rows = map<Id, ScheduledClose>

  const AWAITING_TTL: Time := 30 * MINUTE
  const CLAIM_TIMEOUT: Time := 5 * MINUTE
  const RETENTION: Time := 90 * DAY

  predicate IsTerminal(s: Status) {
    s == Done || s == Cancelled || s == Skipped
  }

  /** The claim filter: due, and either pending or held past its lease. */
  predicate Claimable(row: ScheduledClose, now: Time) {
    row.dueAt <= now
    && (row.status == Pending || (row.status == Executing && row.updatedAt <= now - CLAIM_TIMEOUT))
  }

  function Claimed(row: ScheduledClose, now: Time): ScheduledClose {
    row.(status := Executing, updatedAt := now)
  }

  function Ended(row: ScheduledClose, status: Status, confirmation: Option<Id>, now: Time): ScheduledClose {
    row.(status := status, confirmation := confirmation, updatedAt := now, purgeAt := Some(now + RETENTION))
  }

  /** The close becomes due one window after the moment its entry is known to have executed. */
  function Activated(row: ScheduledClose, now: Time): ScheduledClose {
    row.(status := Pending, dueAt := now + row.window, updatedAt := now)
  }

  function Dropped(row: ScheduledClose, now: Time): ScheduledClose {
    row.(status := Cancelled, updatedAt := now, purgeAt := Some(now + RETENTION))
  }

  predicate Activatable(row: ScheduledClose, entry: Id) {
    row.entry == entry && row.status == AwaitingEntry
  }

  predicate Droppable(row: ScheduledClose, entry: Id) {
    row.entry == entry && (row.status == AwaitingEntry || row.status == Pending)
  }

  /** One row that matches, if any, is activated; nothing else changes. */
  ghost predicate ActivatesOne(before: Rows, after: Rows, entry: Id, now: Time, hit: Option<Id>) {
    match hit
    case Some(r) => r in before && Activatable(before[r], entry) && after == before[r := Activated(before[r], now)]
    case None => after == before && forall r :: r in before ==> !Activatable(before[r], entry)
  }

  ghost predicate DropsOne(before: Rows, after: Rows, entry: Id, now: Time, hit: Option<Id>) {
    match hit
    case Some(r) => r in before && Droppable(before[r], entry) && after == before[r := Dropped(before[r], now)]
    case None => after == before && forall r :: r in before ==> !Droppable(before[r], entry)
  }

  /** At most one close protects an entry. */
  ghost predicate OnePerEntry(rows: Rows) {
    forall r, q :: r in rows && q in rows && rows[r].entry == rows[q].entry ==> r == q
  }

  class ScheduledCloseStore {
    var rows: Rows

    constructor ()
      ensures rows == map[]
    {
      rows := map[];
    }

    method Save(id: Id, row: ScheduledClose) returns (ok: bool)
      modifies this
      ensures ok == (id !in old(rows))
      ensures rows == if ok then old(rows)[id := row] else old(rows)
    {
      ok := id !in rows;
      if ok {
        rows := rows[id := row];
      }
    }

    method ClaimDue(id: Id, now: Time) returns (claimed: bool)
      modifies this
      ensures claimed == (id in old(rows) && Claimable(old(rows)[id], now))
      ensures rows == if claimed then old(rows)[id := Claimed(old(rows)[id], now)] else old(rows)
    {
      claimed := id in rows && Claimable(rows[id], now);
      if claimed {
        rows := rows[id := Claimed(rows[id], now)];
      }
    }

    method MarkTerminal(id: Id, status: Status, confirmation: Option<Id>, now: Time) returns (ok: bool)
      requires status == Done || status == Skipped
      modifies this
      ensures ok == (id in old(rows) && old(rows)[id].status == Executing)
      ensures rows == if ok then old(rows)[id := Ended(old(rows)[id], status, confirmation, now)] else old(rows)
    {
      ok := id in rows && rows[id].status == Executing;
      if ok {
        rows := rows[id := Ended(rows[id], status, confirmation, now)];
      }
    }

    /** Scans the rows in any order and stops at the first match. */
    method ActivateByEntryConfirmation(entry: Id, now: Time) returns (hit: Option<Id>)
      modifies this
      ensures ActivatesOne(old(rows), rows, entry, now, hit)
    {
      var left := rows.Keys;
      while left != {}
        invariant left <= rows.Keys && rows == old(rows)
        invariant forall r :: r in rows && r !in left ==> !Activatable(rows[r], entry)
      {
        var r :| r in left;
        if Activatable(rows[r], entry) {
          rows := rows[r := Activated(rows[r], now)];
          return Some(r);
        }
        left := left - {r};
      }
      hit := None;
    }

    method CancelByEntryConfirmation(entry: Id, now: Time) returns (hit: Option<Id>)
      modifies this
      ensures DropsOne(old(rows), rows, entry, now, hit)
    {
      var left := rows.Keys;
      while left != {}
        invariant left <= rows.Keys && rows == old(rows)
        invariant forall r :: r in rows && r !in left ==> !Droppable(rows[r], entry)
      {
        var r :| r in left;
        if Droppable(rows[r], entry) {
          rows := rows[r := Dropped(rows[r], now)];
          return Some(r);
        }
        left := left - {r};
      }
      hit := None;
    }

    /** At most `limit` awaiting rows, oldest first, none listed twice. */
    method ListAwaitingEntry(limit: nat) returns (ids: seq<Id>)
      ensures |ids| <= limit
      ensures forall i :: 0 <= i < |ids| ==> ids[i] in rows && rows[ids[i]].status == AwaitingEntry
      ensures forall i, j :: 0 <= i < j < |ids| ==> ids[i] != ids[j] && rows[ids[i]].createdAt <= rows[ids[j]].createdAt
      ensures forall r :: r in rows && rows[r].status == AwaitingEntry && r !in ids ==>
                |ids| == limit && forall i :: 0 <= i < |ids| ==> rows[ids[i]].createdAt <= rows[r].createdAt
    {
      ids := [];
      var left := set r | r in rows && rows[r].status == AwaitingEntry;
      while left != {} && |ids| < limit
        invariant |ids| <= limit
        invariant forall i :: 0 <= i < |ids| ==> ids[i] in rows && rows[ids[i]].status == AwaitingEntry && ids[i] !in left
        invariant forall r :: r in left ==> r in rows && rows[r].status == AwaitingEntry
        invariant forall r :: r in rows && rows[r].status == AwaitingEntry ==> r in left || r in ids
        invariant forall i, r :: 0 <= i < |ids| && r in left ==> rows[ids[i]].createdAt <= rows[r].createdAt
        invariant forall i, j :: 0 <= i < j < |ids| ==> ids[i] != ids[j] && rows[ids[i]].createdAt <= rows[ids[j]].createdAt
      {
        var oldest := Oldest(left);
        ids := ids + [oldest];
        left := left - {oldest};
      }
    }

    method Oldest(candidates: set<Id>) returns (oldest: Id)
      requires candidates != {} && forall r :: r in candidates ==> r in rows
      ensures oldest in candidates && forall r :: r in candidates ==> rows[oldest].createdAt <= rows[r].createdAt
    {
      oldest :| oldest in candidates;
      var left := candidates - {oldest};
      while left != {}
        invariant left <= candidates && oldest in candidates
        invariant forall r :: r in candidates && r !in left ==> rows[oldest].createdAt <= rows[r].createdAt
      {
        var r :| r in left;
        if rows[r].createdAt < rows[oldest].createdAt {
          oldest := r;
        }
        left := left - {r};
      }
    }
  }
}
