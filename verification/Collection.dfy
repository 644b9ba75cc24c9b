/** Reservation expiry and the garbage collection of unreferenced objects. */
module Collection {
  import opened Prelude
  import opened Catalog

  predicate Expirable(s: State, x: Range, ttl: nat) {
    x in s.reservations && s.reservations[x].state == Reserved && s.reservations[x].createdAt + ttl < s.clock
  }

  function Lapsed(s: State, x: Range, ttl: nat): map<Range, Reservation> {
    if Expirable(s, x, ttl) then s.reservations[x := s.reservations[x].(state := Expired)] else s.reservations
  }

  /** An existing candidate for the object is left as it is. */
  function Marked(s: State, x: Range, ttl: nat, grace: nat): map<Key, Candidate> {
    if Expirable(s, x, ttl) && s.reservations[x].key !in s.candidates
    then s.candidates[s.reservations[x].key := Candidate(s.reservations[x].content, Waiting, s.clock + grace, 0, None)]
    else s.candidates
  }

  /** Expires one abandoned reservation and hands its object to the collector. */
  function ExpireOne(s: State, x: Range, ttl: nat, grace: nat): State {
    s.(reservations := Lapsed(s, x, ttl), candidates := Marked(s, x, ttl, grace))
  }

  function Sweep(s: State, batch: seq<Range>, ttl: nat, grace: nat): State
    decreases |batch|
  {
    if batch == [] then s else Sweep(ExpireOne(s, batch[0], ttl, grace), batch[1..], ttl, grace)
  }

  predicate Due(s: State, key: Key) {
    key in s.candidates && s.candidates[key].state == Waiting && s.candidates[key].notBefore <= s.clock
  }

  /** The object goes only if no row refers to it and its content is what the candidate says. */
  function Collected(s: State, key: Key): map<Key, Content> {
    if Due(s, key) && !Referenced(s, key) then DeleteVerified(s.store, key, s.candidates[key].content) else s.store
  }

  function Judged(s: State, key: Key): map<Key, Candidate> {
    if !Due(s, key) then s.candidates
    else
      var c := s.candidates[key].(attempts := s.candidates[key].attempts + 1);
      s.candidates[key :=
        if Referenced(s, key) then c.(state := Protected, completedAt := Some(s.clock))
        else if key !in s.store then c.(state := Missing, completedAt := Some(s.clock))
        else if s.store[key] == c.content then c.(state := Deleted, completedAt := Some(s.clock))
        else if c.attempts >= 5 then c.(state := Quarantined, completedAt := Some(s.clock))
        else c.(notBefore := s.clock + Min(3600, 30 * Pow2(c.attempts - 1)))]
  }

  /** Reclaims one due candidate, unless some row still refers to the object. */
  function Collect(s: State, key: Key): State {
    s.(store := Collected(s, key), candidates := Judged(s, key))
  }

  /** The delete took effect although the collector's transaction rolled back. */
  function CollectRolledBack(s: State, key: Key): State {
    s.(store := Collected(s, key))
  }

  /** Protected objects wait for their time, quarantined ones for an interval since the last verdict. */
  predicate Auditable(s: State, key: Key, interval: nat) {
    && key in s.candidates
    && var c := s.candidates[key];
       || (c.state == Protected && c.notBefore <= s.clock)
       || (c.state == Quarantined && c.completedAt.Some? && c.completedAt.value + interval <= s.clock)
  }

  function Verdict(s: State, key: Key): CandidateState
    requires key in s.candidates
  {
    if key in s.store && s.store[key] != s.candidates[key].content then Quarantined
    else if Referenced(s, key) then (if key in s.store then Protected else Quarantined)
    else if key in s.store then Waiting else Missing
  }

  function Audited(s: State, key: Key, grace: nat, interval: nat): map<Key, Candidate> {
    if !Auditable(s, key, interval) then s.candidates
    else
      var c, verdict := s.candidates[key], Verdict(s, key);
      s.candidates[key := Candidate(
        c.content,
        verdict,
        if verdict == Waiting then s.clock + grace else if verdict == Missing then c.notBefore else s.clock + interval,
        if verdict == Waiting then 0 else c.attempts,
        if verdict == Waiting then None else Some(s.clock))]
  }

  /** Reconciles a protected or quarantined candidate with the catalog and the store. */
  function Audit(s: State, key: Key, grace: nat, interval: nat): State {
    s.(candidates := Audited(s, key, grace, interval))
  }
}
