/** The activation lease of one gateway, as changed by the sections that hold its mutex. */
module Activation {

  datatype Lease = Lease(active: bool, deadline: int, graceUntil: int, watcher: bool)

  // The zero time lies before every clock reading.
  const NoLease: Lease := Lease(false, 0, 0, false)

  /** Whether the lease keeps the demand floor of one at time `now`. */
  predicate Floor(l: Lease, now: int) {
    (l.active && now < l.deadline) || now < l.graceUntil
  }

  /** The demand a gateway with `pending` requests shows at time `now`. */
  function DemandAt(pending: int, l: Lease, now: int): int {
    if pending > 0 then pending else if Floor(l, now) then 1 else 0
  }

  function Renew(l: Lease, now: int, timeout: int): Lease {
    l.(active := true, deadline := now + timeout, watcher := true)
  }

  /** A timeout retires the lease only if the deadline it finds has passed. */
  predicate Retires(l: Lease, ready: bool, now: int) {
    ready || l.deadline <= now
  }

  function Retire(l: Lease, ready: bool, now: int, grace: int): Lease {
    if !Retires(l, ready, now) then l
    else l.(active := false, watcher := false, graceUntil := if ready then now + grace else l.graceUntil)
  }

  /** Time only ever removes the floor. */
  lemma FloorExpires(l: Lease, now: int, later: int)
    requires now <= later
    ensures Floor(l, later) ==> Floor(l, now)
  {
  }
}
