/** What holds of the request tracker over every sequence of calls. */
module TrackerRuns {
  import opened Prelude
  import opened Ownership

  /** A call, and whether there was memory for the entry it makes. */
  datatype Call =
    | Remember(key: Handle, receive: bool, granted: bool, peer: int, tag: int, memory: Memory)
    | RememberPersistent(key: Handle, receive: bool, granted: bool, peer: int, tag: int, enough: bool)
    | Start(key: Handle, memory: Memory)
    | Complete(key: Handle)
    | Forget(key: Handle)

  const Fresh := Books(map[], map[], 0, 0, map[], {}, map[], map[])

  /** The null handle is ignored, and so is what exceeds the limit. */
  ghost function Step(b: Books, limit: nat, c: Call): Books {
    if c.key == Null then b else
    match c
    case Remember(key, receive, granted, peer, tag, memory) =>
      if Size(b.pending) >= limit then b
      else if memory == Enough then Transferred(b, key, receive, granted, peer, tag)
      else Missed(b, key, granted, memory == EmptyEntry)
    case RememberPersistent(key, receive, granted, peer, tag, enough) =>
      if |b.saved| >= limit then b
      else if enough || key in b.saved then Persisted(b, key, receive, granted, peer, tag)
      else Unsavable(b, granted)
    case Start(key, memory) =>
      if key !in b.saved || Size(b.pending) >= limit then b
      else if memory == Enough then Started(b, key)
      else Unstarted(b, key, memory == EmptyEntry)
    case Complete(key) => Finished(b, key)
    case Forget(key) => Unsaved(Unqueued(b, key), key)
  }

  /** The runtime hands out no handle of a persistent request that is still started. */
  ghost predicate Permitted(b: Books, c: Call) {
    c.RememberPersistent? && c.key in b.saved ==> Unborrowed(b.pending, c.key)
  }

  ghost function Exec(b: Books, limit: nat, run: seq<Call>): Books
    decreases |run|
  {
    if run == [] then b else Exec(Step(b, limit, run[0]), limit, run[1..])
  }

  ghost predicate PermittedRun(b: Books, limit: nat, run: seq<Call>)
    decreases |run|
  {
    run == [] || (Permitted(b, run[0]) && PermittedRun(Step(b, limit, run[0]), limit, run[1..]))
  }

  lemma RememberSound(b: Books, limit: nat, c: Call)
    requires Sound(b, limit) && c.Remember?
    ensures Sound(Step(b, limit, c), limit)
  {
    if Size(b.pending) < limit {
      if c.memory == Enough {
        TransferredSound(b, limit, c.key, c.receive, c.granted, c.peer, c.tag);
      } else {
        MissedSound(b, limit, c.key, c.granted, c.memory == EmptyEntry);
      }
    }
  }

  lemma PersistSound(b: Books, limit: nat, c: Call)
    requires Sound(b, limit) && Permitted(b, c) && c.RememberPersistent?
    ensures Sound(Step(b, limit, c), limit)
  {
    if |b.saved| < limit {
      if c.enough || c.key in b.saved {
        PersistedSound(b, limit, c.key, c.receive, c.granted, c.peer, c.tag);
      } else {
        UnsavableSound(b, limit, c.granted);
      }
    }
  }

  lemma StartSound(b: Books, limit: nat, c: Call)
    requires Sound(b, limit) && c.Start?
    ensures Sound(Step(b, limit, c), limit)
  {
    if c.key in b.saved && Size(b.pending) < limit {
      if c.memory == Enough {
        StartedSound(b, limit, c.key);
      } else {
        UnstartedSound(b, limit, c.key, c.memory == EmptyEntry);
      }
    }
  }

  lemma EndSound(b: Books, limit: nat, c: Call)
    requires Sound(b, limit) && (c.Complete? || c.Forget?)
    ensures Sound(Step(b, limit, c), limit)
  {
    if c.Complete? {
      FinishedSound(b, limit, c.key);
    } else {
      UnqueuedSound(b, limit, c.key);
      UnsavedSound(Unqueued(b, c.key), limit, c.key);
    }
  }

  lemma StepSound(b: Books, limit: nat, c: Call)
    requires Sound(b, limit) && Permitted(b, c)
    ensures Sound(Step(b, limit, c), limit)
  {
    match c {
      case Remember(_, _, _, _, _, _) => RememberSound(b, limit, c);
      case RememberPersistent(_, _, _, _, _, _) => PersistSound(b, limit, c);
      case Start(_, _) => StartSound(b, limit, c);
      case Complete(_) => EndSound(b, limit, c);
      case Forget(_) => EndSound(b, limit, c);
    }
  }

  lemma {:induction false} RunSound(b: Books, limit: nat, run: seq<Call>)
    requires Sound(b, limit) && PermittedRun(b, limit, run)
    ensures Sound(Exec(b, limit, run), limit)
    decreases |run|
  {
    if run != [] {
      StepSound(b, limit, run[0]);
      RunSound(Step(b, limit, run[0]), limit, run[1..]);
    }
  }

  lemma FreshIsSound(limit: nat)
    ensures Sound(Fresh, limit)
  {
  }

  /** The number a call completes, if it completes a one-shot transfer. */
  ghost function Completes(b: Books, c: Call): Option<nat> {
    if c.Complete? && c.key != Null && Items(b.pending, c.key) != [] && !Items(b.pending, c.key)[0].persistent
    then Some(Items(b.pending, c.key)[0].id) else None
  }

  /** A call decides the fate of at most the numbers it finds open, and only completions complete. */
  lemma StepFates(b: Books, limit: nat, c: Call)
    requires Sound(b, limit)
    ensures FatesStay(b.fate, Step(b, limit, c).fate)
    ensures Completes(b, c).Some? ==>
              && Completes(b, c).value in b.fate && b.fate[Completes(b, c).value] == Waiting
              && Step(b, limit, c).fate[Completes(b, c).value] == Completed
  {
    if c.Complete? {
      CompleteFates(b, limit, c.key);
    } else if c.Forget? {
      UnqueuedFates(b, c.key);
    } else {
      IssueFates(b, limit, c);
    }
  }

  lemma CompleteFates(b: Books, limit: nat, key: Handle)
    requires Sound(b, limit)
    ensures FatesStay(b.fate, Finished(b, key).fate)
    ensures var items := Items(b.pending, key);
            items != [] && !items[0].persistent ==>
              && items[0].id in b.fate && b.fate[items[0].id] == Waiting
              && Finished(b, key).fate[items[0].id] == Completed
  {
    FinishedSound(b, limit, key);
  }

  lemma IssueFates(b: Books, limit: nat, c: Call)
    requires Accounted(b.home, b.fate, b.nextId) && !c.Complete? && !c.Forget?
    ensures FatesStay(b.fate, Step(b, limit, c).fate)
  {
    match c {
      case Remember(_, _, _, _, _, _) =>
      case RememberPersistent(_, _, _, _, _, _) =>
      case Start(_, _) =>
    }
  }

  lemma {:induction false} RunFates(b: Books, limit: nat, run: seq<Call>)
    requires Sound(b, limit) && PermittedRun(b, limit, run)
    ensures FatesStay(b.fate, Exec(b, limit, run).fate)
    decreases |run|
  {
    if run != [] {
      StepSound(b, limit, run[0]);
      StepFates(b, limit, run[0]);
      RunFates(Step(b, limit, run[0]), limit, run[1..]);
    }
  }

  /** The numbers of one-shot transfers a run completes, in order. */
  ghost function Completions(b: Books, limit: nat, run: seq<Call>): seq<nat>
    decreases |run|
  {
    if run == [] then [] else
    var rest := Completions(Step(b, limit, run[0]), limit, run[1..]);
    var id := Completes(b, run[0]);
    if id.Some? then [id.value] + rest else rest
  }

  /** A number that is decided is not completed by any later call. */
  lemma {:induction false} DecidedIsNotCompleted(b: Books, limit: nat, run: seq<Call>, id: nat)
    requires Sound(b, limit) && PermittedRun(b, limit, run) && id in b.fate && b.fate[id] != Waiting
    ensures id !in Completions(b, limit, run)
    decreases |run|
  {
    if run != [] {
      StepSound(b, limit, run[0]);
      StepFates(b, limit, run[0]);
      DecidedIsNotCompleted(Step(b, limit, run[0]), limit, run[1..], id);
    }
  }

  ghost predicate Distinct(ids: seq<nat>) {
    forall i, j :: 0 <= i < j < |ids| ==> ids[i] != ids[j]
  }

  lemma DistinctFirst(id: nat, rest: seq<nat>)
    requires Distinct(rest) && id !in rest
    ensures Distinct([id] + rest)
  {
    assert forall j :: 0 <= j < |rest| ==> ([id] + rest)[j + 1] == rest[j] && rest[j] in rest;
  }

  /** No one-shot transfer completes twice. */
  lemma {:induction false} CompletedAtMostOnce(b: Books, limit: nat, run: seq<Call>)
    requires Sound(b, limit) && PermittedRun(b, limit, run)
    ensures Distinct(Completions(b, limit, run))
    decreases |run|
  {
    if run != [] {
      var b' := Step(b, limit, run[0]);
      StepSound(b, limit, run[0]);
      StepFates(b, limit, run[0]);
      CompletedAtMostOnce(b', limit, run[1..]);
      var id, rest := Completes(b, run[0]), Completions(b', limit, run[1..]);
      if id.Some? {
        DecidedIsNotCompleted(b', limit, run[1..], id.value);
        DistinctFirst(id.value, rest);
      }
    }
  }

  /** Over every sequence of calls the limits hold, and each group is held by one owner or released. */
  lemma EveryRunIsSound(limit: nat, run: seq<Call>)
    requires PermittedRun(Fresh, limit, run)
    ensures Sound(Exec(Fresh, limit, run), limit)
  {
    FreshIsSound(limit);
    RunSound(Fresh, limit, run);
  }

  /** Over every sequence of calls, no one-shot transfer is reported as completed twice. */
  lemma NothingCompletesTwice(limit: nat, run: seq<Call>)
    requires PermittedRun(Fresh, limit, run)
    ensures Distinct(Completions(Fresh, limit, run))
  {
    FreshIsSound(limit);
    CompletedAtMostOnce(Fresh, limit, run);
  }

  /** A queued transfer whose group has been released. */
  ghost predicate Dangling(b: Books, key: Handle) {
    exists i :: 0 <= i < |Items(b.pending, key)| && IsReleased(b, Items(b.pending, key)[i].peers)
  }

  ghost predicate IsReleased(b: Books, peers: Option<nat>) {
    peers.Some? && peers.value in b.released && peers.value !in b.owner
  }

  lemma SoundDoesNotDangle(b: Books, limit: nat, key: Handle)
    requires Sound(b, limit)
    ensures !Dangling(b, key)
  {
    if key in b.pending {
      assert ItemsPlaced(b.pending[key], key, b.saved, b.owner, b.home);
    }
  }

  /** Over every sequence of calls, no queued transfer is left with a released group. */
  lemma NothingDangles(limit: nat, run: seq<Call>, key: Handle)
    requires PermittedRun(Fresh, limit, run)
    ensures !Dangling(Exec(Fresh, limit, run), key)
  {
    EveryRunIsSound(limit, run);
    SoundDoesNotDangle(Exec(Fresh, limit, run), limit, key);
  }

  /**
   What the runtime's promise about handles is for: replacing a saved entry leaves a transfer with a
   released group behind exactly if the entry was started and not completed.
   */
  lemma ReplacingDanglesExactly(b: Books, limit: nat, key: Handle, receive: bool, granted: bool, peer: int, tag: int)
    requires Sound(b, limit) && |b.saved| < limit && key in b.saved && b.saved[key].peers.Some?
    ensures Dangling(Persisted(b, key, receive, granted, peer, tag), key) <==> !Unborrowed(b.pending, key)
  {
  }
}
