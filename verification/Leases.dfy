/** The lease state machine of one task row. `attempt` is the fencing token. Timestamps are
    integers; a NULL expiry compares neither above nor below any reading of the clock. */
module Leases {
  import opened Options
  import opened Store

  datatype Claim = Claim(task: TaskId, run: RunId, worker: WorkerId, attempt: nat)

  predicate Claimable(t: TaskRow, now: int) {
    t.status.Queued? && t.available <= now
  }

  function Grant(t: TaskRow, worker: WorkerId, now: int, lease: int): TaskRow {
    t.(status := Leased, owner := Some(worker), attempt := t.attempt + 1, expires := Some(now + lease))
  }

  // The row still carries this claim; its lease may have run out.
  predicate Carries(t: TaskRow, c: Claim) {
    t.attempt == c.attempt && t.owner == Some(c.worker) && t.status.Leased?
  }

  // The condition of assert_lease and of heartbeat.
  predicate HoldsLease(t: TaskRow, c: Claim, now: int) {
    Carries(t, c) && t.expires.Some? && t.expires.value > now
  }

  function Renew(t: TaskRow, now: int, lease: int): TaskRow {
    t.(expires := Some(now + lease))
  }

  predicate Reapable(t: TaskRow, now: int) {
    t.status.Leased? && t.expires.Some? && t.expires.value < now
  }

  function Requeue(t: TaskRow): TaskRow {
    t.(status := Queued, owner := None, expires := None)
  }

  function Release(t: TaskRow, now: int, backoff: int): TaskRow {
    Requeue(t).(available := now + backoff)
  }
}
