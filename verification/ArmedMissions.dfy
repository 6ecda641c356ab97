/** Armed missions: bounded permissions to enter once. Every move leaves the armed status for
    good, so the first of trigger, disarm and expiry wins. */
module ArmedMissions {
  import opened Common

  datatype Status = Armed | Triggered | Expired | Disarmed

  datatype ArmedMission = ArmedMission(
    userKey: int, status: Status, side: string, expiresAt: Time, window: Time,
    triggeredConfirmation: Option<Id>, triggeredAt: Option<Time>, updatedAt: Time)

  type Rows = map<Id, ArmedMission>

  predicate Triggerable(m: ArmedMission, now: Time) {
    m.status == Armed && m.expiresAt > now
  }

  predicate Stale(m: ArmedMission, now: Time) {
    m.status == Armed && m.expiresAt <= now
  }

  function MarkedTriggered(m: ArmedMission, side: string, now: Time): ArmedMission {
    m.(status := Triggered, side := side, triggeredConfirmation := None, triggeredAt := Some(now), updatedAt := now)
  }

  function MarkedExpired(m: ArmedMission, now: Time): ArmedMission {
    m.(status := Expired, updatedAt := now)
  }

  function MarkedDisarmed(m: ArmedMission, now: Time): ArmedMission {
    m.(status := Disarmed, updatedAt := now)
  }

  function Extended(m: ArmedMission, window: Time, expiresAt: Time, now: Time): ArmedMission {
    m.(window := window, expiresAt := expiresAt, updatedAt := now)
  }

  /** The confirmation may be recorded once, or recorded again with the same id. */
  predicate Recordable(m: ArmedMission, confirmation: Id) {
    m.status == Triggered && (m.triggeredConfirmation == None || m.triggeredConfirmation == Some(confirmation))
  }

  function Recorded(m: ArmedMission, confirmation: Id, now: Time): ArmedMission {
    m.(triggeredConfirmation := Some(confirmation), updatedAt := now)
  }

  function Swept(rows: Rows, now: Time): Rows {
    map m | m in rows :: if Stale(rows[m], now) then MarkedExpired(rows[m], now) else rows[m]
  }

  class ArmedMissionStore {
    var rows: Rows

    constructor ()
      ensures rows == map[]
    {
      rows := map[];
    }

    method Save(id: Id, m: ArmedMission) returns (ok: bool)
      modifies this
      ensures ok == (id !in old(rows))
      ensures rows == if ok then old(rows)[id := m] else old(rows)
    {
      ok := id !in rows;
      if ok {
        rows := rows[id := m];
      }
    }

    /** Answers the row as it stands after the call, whoever moved it out of armed. */
    method Disarm(userKey: int, id: Id, now: Time) returns (row: Option<ArmedMission>)
      modifies this
      ensures id !in old(rows) || old(rows)[id].userKey != userKey ==> row == None && rows == old(rows)
      ensures id in old(rows) && old(rows)[id].userKey == userKey ==>
                && id in rows && row == Some(rows[id]) && row.value.status != Armed
                && rows == if old(rows)[id].status == Armed then old(rows)[id := MarkedDisarmed(old(rows)[id], now)]
                           else old(rows)
    {
      if id !in rows || rows[id].userKey != userKey {
        return None;
      }
      if rows[id].status == Armed {
        rows := rows[id := MarkedDisarmed(rows[id], now)];
      }
      row := Some(rows[id]);
    }

    method MarkExpired(id: Id, now: Time) returns (ok: bool)
      modifies this
      ensures ok == (id in old(rows) && old(rows)[id].status == Armed)
      ensures rows == if ok then old(rows)[id := MarkedExpired(old(rows)[id], now)] else old(rows)
    {
      ok := id in rows && rows[id].status == Armed;
      if ok {
        rows := rows[id := MarkedExpired(rows[id], now)];
      }
    }

    method MarkTriggered(id: Id, side: string, now: Time) returns (changed: bool)
      modifies this
      ensures changed == (id in old(rows) && Triggerable(old(rows)[id], now))
      ensures rows == if changed then old(rows)[id := MarkedTriggered(old(rows)[id], side, now)] else old(rows)
    {
      changed := id in rows && Triggerable(rows[id], now);
      if changed {
        rows := rows[id := MarkedTriggered(rows[id], side, now)];
      }
    }

    method SetTriggeredConfirmation(id: Id, confirmation: Id, now: Time) returns (ok: bool)
      modifies this
      ensures ok == (id in old(rows) && Recordable(old(rows)[id], confirmation))
      ensures rows == if ok then old(rows)[id := Recorded(old(rows)[id], confirmation, now)] else old(rows)
    {
      ok := id in rows && Recordable(rows[id], confirmation);
      if ok {
        rows := rows[id := Recorded(rows[id], confirmation, now)];
      }
    }

    method ExtendWindow(id: Id, window: Time, expiresAt: Time, now: Time) returns (ok: bool)
      modifies this
      ensures ok == (id in old(rows) && old(rows)[id].status == Armed)
      ensures rows == if ok then old(rows)[id := Extended(old(rows)[id], window, expiresAt, now)] else old(rows)
    {
      ok := id in rows && rows[id].status == Armed;
      if ok {
        rows := rows[id := Extended(rows[id], window, expiresAt, now)];
      }
    }

    method ExpireStale(now: Time) returns (n: nat)
      modifies this
      ensures rows == Swept(old(rows), now)
      ensures n == |set m | m in old(rows) && Stale(old(rows)[m], now)|
      ensures forall m :: m in rows && rows[m].status == Armed ==> rows[m].expiresAt > now
    {
      ghost var before := rows;
      ghost var stale := set m | m in rows && Stale(rows[m], now);
      ghost var swept: set<Id> := {};
      var left := rows.Keys;
      n := 0;
      while left != {}
        invariant left <= rows.Keys && rows.Keys == before.Keys
        invariant forall m :: m in left ==> rows[m] == before[m]
        invariant forall m :: m in rows && m !in left ==>
                    rows[m] == if Stale(before[m], now) then MarkedExpired(before[m], now) else before[m]
        invariant swept == set m | m in stale && m !in left
        invariant n == |swept|
      {
        var m :| m in left;
        if Stale(rows[m], now) {
          assert m in stale && m !in swept;
          rows := rows[m := MarkedExpired(rows[m], now)];
          swept := swept + {m};
          n := n + 1;
        }
        left := left - {m};
      }
      assert swept == stale;
      assert rows == Swept(before, now);
    }
  }
}
