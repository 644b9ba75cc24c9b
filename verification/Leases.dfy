/**
 The fencing scheme shared by the outbox, the erasure requests and the integrity notifications.
 A row carries who is working on it and a lease generation that grows with every claim; a worker
 keeps the pair it was given as its ticket and must present it again to publish or to fail.
 */
module Leases {
  import opened Prelude

  datatype WorkState = Pending | Processing | Completed | Failed | Suppressed | Held | Delivered

  datatype Work = Work(
    state: WorkState,
    attempts: nat,
    owner: Option<string>,
    generation: nat,
    expires: Option<nat>)

  datatype Ticket = Ticket(owner: string, generation: nat)

  /** A lease is present exactly while the row is being processed. */
  predicate Sound(w: Work) {
    && (w.owner.Some? <==> w.state == Processing)
    && (w.expires.Some? <==> w.state == Processing)
  }

  function Queued(): (w: Work)
    ensures Sound(w)
  {
    Work(Pending, 0, None, 0, None)
  }

  /** Queued rows, and rows under a lease that ran out before `now`, may be claimed. */
  predicate Claimable(w: Work, now: nat) {
    w.state == Pending || (w.state == Processing && w.expires.Some? && w.expires.value < now)
  }

  /** Nobody else can claim the row until the lease has run out, and then everybody can. */
  function Claimed(w: Work, owner: string, now: nat, seconds: nat): (c: Work)
    ensures Sound(c) && w.generation < c.generation
    ensures Owns(c, Ticket(owner, c.generation))
    ensures forall later: nat :: Claimable(c, later) <==> now + seconds < later
  {
    Work(Processing, w.attempts + 1, Some(owner), w.generation + 1, Some(now + seconds))
  }

  predicate Owns(w: Work, t: Ticket) {
    w.state == Processing && w.owner == Some(t.owner) && w.generation == t.generation
  }

  /** What the outbox workers check before they report a failure: the state column is not read. */
  predicate HoldsLease(w: Work, t: Ticket) {
    w.owner == Some(t.owner) && w.generation == t.generation
  }

  /** Leaves the processing state and gives the lease up; only a queued row can then be claimed. */
  function Settled(w: Work, state: WorkState): (r: Work)
    requires state != Processing
    ensures Sound(r) && r.generation == w.generation
    ensures forall t: Ticket :: !Owns(r, t)
    ensures forall later: nat :: Claimable(r, later) <==> state == Pending
  {
    w.(state := state, owner := None, expires := None)
  }

  /** A failed try goes back to the queue until `cap` tries have been made. */
  function Retried(w: Work, cap: nat): (r: Work)
    ensures Sound(r) && r.generation == w.generation
    ensures forall t: Ticket :: !Owns(r, t)
    ensures forall later: nat :: Claimable(r, later) <==> w.attempts < cap
    ensures cap <= w.attempts <==> r.state == Failed
  {
    Settled(w, if w.attempts >= cap then Failed else Pending)
  }
}
