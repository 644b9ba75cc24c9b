/** What the request tracker reports: which transfer a completion is of, and in which order transfers complete. */
module Completions {
  import opened Prelude
  import opened Ownership
  import opened TrackerRuns

  // What a call does to the queues and to the saved entries.

  /** The handle has the same queue and the same saved entry. */
  ghost predicate Alike(b: Books, b': Books, k: Handle) {
    && Items(b'.pending, k) == Items(b.pending, k)
    && (k in b'.saved <==> k in b.saved) && (k in b.saved ==> b'.saved[k] == b.saved[k])
  }

  lemma QueueingElsewhere(b: Books, limit: nat, c: Call, k: Handle)
    requires k != c.key && (c.Remember? || c.Start?)
    ensures Alike(b, Step(b, limit, c), k)
  {
  }

  lemma SavingElsewhere(b: Books, limit: nat, c: Call, k: Handle)
    requires k != c.key && c.RememberPersistent?
    ensures Alike(b, Step(b, limit, c), k)
  {
  }

  lemma LeavingElsewhere(b: Books, limit: nat, c: Call, k: Handle)
    requires k != c.key && (c.Complete? || c.Forget?)
    ensures Alike(b, Step(b, limit, c), k)
  {
  }

  /** Only the queue and the saved entry of the call's own handle can change. */
  lemma OtherHandlesStay(b: Books, limit: nat, c: Call, k: Handle)
    requires k != c.key
    ensures Alike(b, Step(b, limit, c), k)
  {
    if c.Remember? || c.Start? {
      QueueingElsewhere(b, limit, c, k);
    } else if c.RememberPersistent? {
      SavingElsewhere(b, limit, c, k);
    } else {
      LeavingElsewhere(b, limit, c, k);
    }
  }

  /** Whether a transfer is tracked: there is a handle, room below the limit, and memory. */
  ghost predicate Tracks(b: Books, limit: nat, key: Handle, memory: Memory) {
    key != Null && memory == Enough && Size(b.pending) < limit
  }

  /** What joins the end of the queue. */
  ghost function Joining(b: Books, limit: nat, c: Call): seq<Pending> {
    match c
    case Remember(key, receive, granted, peer, tag, memory) =>
      if Tracks(b, limit, key, memory) then [Pending(b.nextId + 1, receive, Group(b, granted), peer, tag, false)] else []
    case Start(key, memory) =>
      if Tracks(b, limit, key, memory) && key in b.saved then [b.saved[key]] else []
    case _ => []
  }

  /** Whether a persistent request is saved: below the limit, and with memory unless it replaces an entry. */
  ghost predicate Saves(b: Books, limit: nat, c: Call) {
    c.RememberPersistent? && |b.saved| < limit && (c.enough || c.key in b.saved)
  }

  /** A transfer joins the end of the queue, a completion takes the front, and a freed handle has no queue. */
  lemma CallsMoveTheirQueue(b: Books, limit: nat, c: Call)
    requires c.key != Null
    ensures var items := Items(b.pending, c.key);
            Items(Step(b, limit, c).pending, c.key) ==
              (if c.Forget? then [] else if c.Complete? then items[Min(1, |items|)..] else items) + Joining(b, limit, c)
  {
    match c {
      case Remember(_, _, _, _, _, _) =>
      case RememberPersistent(_, _, _, _, _, _) =>
      case Start(_, _) =>
      case Complete(_) => FrontLeaves(b, c.key);
      case Forget(_) =>
    }
  }

  lemma FrontLeaves(b: Books, key: Handle)
    ensures var items := Items(b.pending, key); Items(Finished(b, key).pending, key) == items[Min(1, |items|)..]
  {
  }

  lemma SavingEnters(b: Books, limit: nat, c: Call)
    requires c.key != Null && c.RememberPersistent?
    ensures Step(b, limit, c).saved ==
              if Saves(b, limit, c)
              then b.saved[c.key := Pending(b.nextId + 1, c.receive, Group(b, c.granted), c.peer, c.tag, true)] else b.saved
  {
  }

  lemma OthersSaveNothing(b: Books, limit: nat, c: Call)
    requires c.key != Null && !c.RememberPersistent?
    ensures Step(b, limit, c).saved == if c.Forget? then b.saved - {c.key} else b.saved
  {
    match c {
      case Remember(_, _, _, _, _, _) =>
      case Start(_, _) =>
      case Complete(_) =>
      case Forget(_) =>
    }
  }

  /** Only an accepted persistent request and a freed handle change the saved entry. */
  lemma CallsMoveTheirEntry(b: Books, limit: nat, c: Call)
    requires c.key != Null
    ensures var saved := Step(b, limit, c).saved;
            if Saves(b, limit, c) then
              saved == b.saved[c.key := Pending(b.nextId + 1, c.receive, Group(b, c.granted), c.peer, c.tag, true)]
            else saved == if c.Forget? then b.saved - {c.key} else b.saved
  {
    if c.RememberPersistent? {
      SavingEnters(b, limit, c);
    } else {
      OthersSaveNothing(b, limit, c);
    }
  }

  // What was remembered is what is reported.

  /** Every one-shot entry with this number is this one. */
  ghost predicate Entered(b: Books, item: Pending) {
    item.id <= b.nextId && forall k :: k in b.pending ==> EnteredIn(b.pending[k], item)
  }

  /** The numbers in the queues and of the saved entries are numbers that were given out. */
  ghost predicate Issued(b: Books) {
    && (forall k :: k in b.pending ==> QueueIssued(b.pending[k], b.nextId))
    && (forall k :: k in b.saved ==> b.saved[k].persistent && b.saved[k].id <= b.nextId)
  }

  /** The queue holds nothing but what was in it and what joins it. */
  ghost predicate MadeOf(items': seq<Pending>, items: seq<Pending>, joining: seq<Pending>) {
    forall i :: 0 <= i < |items'| ==> items'[i] in items || items'[i] in joining
  }

  /** What joins is a new one-shot entry, or the saved entry. */
  lemma JoiningIsNewOrSaved(b: Books, limit: nat, c: Call)
    requires c.key != Null
    ensures b.nextId <= Step(b, limit, c).nextId
    ensures forall item :: item in Joining(b, limit, c) ==>
              || (!item.persistent && item.id == b.nextId + 1 == Step(b, limit, c).nextId)
              || (c.key in b.saved && item == b.saved[c.key])
  {
    if c.Complete? || c.Forget? {
      assert Joining(b, limit, c) == [];
    } else if c.RememberPersistent? {
      assert Joining(b, limit, c) == [];
    }
  }

  lemma QueuesGain(b: Books, limit: nat, c: Call, k: Handle)
    requires c.key != Null
    ensures MadeOf(Items(Step(b, limit, c).pending, k), Items(b.pending, k), Joining(b, limit, c))
  {
    if k == c.key {
      CallsMoveTheirQueue(b, limit, c);
    } else {
      OtherHandlesStay(b, limit, c, k);
    }
  }

  ghost predicate QueueIssued(items: seq<Pending>, nextId: nat) {
    forall i :: 0 <= i < |items| ==> items[i].id <= nextId
  }

  lemma StepIssues(b: Books, limit: nat, c: Call)
    requires Issued(b)
    ensures Issued(Step(b, limit, c))
  {
    if c.key != Null {
      JoiningIsNewOrSaved(b, limit, c);
      var b' := Step(b, limit, c);
      forall k | k in b'.pending
        ensures QueueIssued(b'.pending[k], b'.nextId)
      {
        QueuesGain(b, limit, c, k);
        assert QueueIssued(Items(b.pending, k), b.nextId);
      }
      forall k | k in b'.saved
        ensures b'.saved[k].persistent && b'.saved[k].id <= b'.nextId
      {
        EntriesGain(b, limit, c, k);
      }
    }
  }

  lemma EntriesGain(b: Books, limit: nat, c: Call, k: Handle)
    requires c.key != Null && k in Step(b, limit, c).saved
    ensures var b' := Step(b, limit, c);
            || (k in b.saved && b'.saved[k] == b.saved[k])
            || (b'.saved[k].persistent && b'.saved[k].id == b.nextId + 1 == b'.nextId)
  {
    if k == c.key {
      CallsMoveTheirEntry(b, limit, c);
    } else {
      OtherHandlesStay(b, limit, c, k);
    }
  }

  ghost predicate EnteredIn(items: seq<Pending>, item: Pending) {
    forall i :: 0 <= i < |items| && !items[i].persistent && items[i].id == item.id ==> items[i] == item
  }

  lemma StepKeepsEntries(b: Books, limit: nat, c: Call, item: Pending)
    requires Issued(b) && Entered(b, item)
    ensures Entered(Step(b, limit, c), item)
  {
    if c.key != Null {
      JoiningIsNewOrSaved(b, limit, c);
      var b' := Step(b, limit, c);
      forall k | k in b'.pending
        ensures EnteredIn(b'.pending[k], item)
      {
        QueuesGain(b, limit, c, k);
        assert EnteredIn(Items(b.pending, k), item);
      }
    }
  }

  lemma {:induction false} RunIssues(b: Books, limit: nat, run: seq<Call>)
    requires Issued(b)
    ensures Issued(Exec(b, limit, run))
    decreases |run|
  {
    if run != [] {
      StepIssues(b, limit, run[0]);
      RunIssues(Step(b, limit, run[0]), limit, run[1..]);
    }
  }

  lemma {:induction false} RunKeepsEntries(b: Books, limit: nat, run: seq<Call>, item: Pending)
    requires Issued(b) && Entered(b, item)
    ensures Entered(Exec(b, limit, run), item)
    decreases |run|
  {
    if run != [] {
      StepIssues(b, limit, run[0]);
      StepKeepsEntries(b, limit, run[0], item);
      RunKeepsEntries(Step(b, limit, run[0]), limit, run[1..], item);
    }
  }

  lemma JustEntered(b: Books, limit: nat, c: Call, item: Pending)
    requires Issued(b) && c.key != Null && item.id == b.nextId + 1 == Step(b, limit, c).nextId
    requires Joining(b, limit, c) == [item]
    ensures Entered(Step(b, limit, c), item)
  {
    var b' := Step(b, limit, c);
    forall k | k in b'.pending
      ensures EnteredIn(b'.pending[k], item)
    {
      QueuesGain(b, limit, c, k);
      assert QueueIssued(Items(b.pending, k), b.nextId);
    }
  }

  /**
   Over every sequence of calls: where a transfer was tracked under a number and a later call completes
   that number, what completes is the transfer with the direction, group, peer and tag it was tracked with.
   */
  lemma CompletedAsRemembered(limit: nat, run: seq<Call>, c: Call, later: seq<Call>, done: Call)
    requires c.Remember? && Tracks(Exec(Fresh, limit, run), limit, c.key, c.memory)
    requires var b1 := Step(Exec(Fresh, limit, run), limit, c);
             Completes(Exec(b1, limit, later), done) == Some(b1.nextId)
    ensures var b := Exec(Fresh, limit, run);
            Items(Exec(Step(b, limit, c), limit, later).pending, done.key)[0] ==
              Pending(b.nextId + 1, c.receive, if c.granted then Some(b.acquired) else None, c.peer, c.tag, false)
  {
    var b := Exec(Fresh, limit, run);
    var b1 := Step(b, limit, c);
    var item := Pending(b.nextId + 1, c.receive, Group(b, c.granted), c.peer, c.tag, false);
    RunIssues(Fresh, limit, run);
    assert b1.nextId == item.id;
    JustEntered(b, limit, c, item);
    StepIssues(b, limit, c);
    RunKeepsEntries(b1, limit, later, item);
    assert EnteredIn(Items(Exec(b1, limit, later).pending, done.key), item);
  }

  // Order.

  /** Every one-shot transfer queued under the handle has a higher number. */
  ghost predicate AllAbove(b: Books, key: Handle, id: nat) {
    id <= b.nextId && forall i :: 0 <= i < |Items(b.pending, key)| && !Items(b.pending, key)[i].persistent ==>
      id < Items(b.pending, key)[i].id
  }

  lemma StepStaysAbove(b: Books, limit: nat, c: Call, key: Handle, id: nat)
    requires Issued(b) && AllAbove(b, key, id)
    ensures AllAbove(Step(b, limit, c), key, id)
  {
    if c.key != Null {
      JoiningIsNewOrSaved(b, limit, c);
      QueuesGain(b, limit, c, key);
    }
  }

  lemma {:induction false} RunStaysAbove(b: Books, limit: nat, run: seq<Call>, key: Handle, id: nat)
    requires Issued(b) && AllAbove(b, key, id)
    ensures AllAbove(Exec(b, limit, run), key, id)
    decreases |run|
  {
    if run != [] {
      StepIssues(b, limit, run[0]);
      StepStaysAbove(b, limit, run[0], key, id);
      RunStaysAbove(Step(b, limit, run[0]), limit, run[1..], key, id);
    }
  }

  lemma RisingTail(items: seq<Pending>)
    requires Rising(items) && items != [] && !items[0].persistent
    ensures forall i :: 0 <= i < |items[1..]| && !items[1..][i].persistent ==> items[0].id < items[1..][i].id
  {
  }

  lemma FrontIsLowest(b: Books, limit: nat, key: Handle)
    requires Sound(b, limit) && Issued(b) && Completes(b, Complete(key)).Some?
    ensures AllAbove(Step(b, limit, Complete(key)), key, Items(b.pending, key)[0].id)
  {
    var items := Items(b.pending, key);
    assert ItemsPlaced(items, key, b.saved, b.owner, b.home);
    assert QueueIssued(items, b.nextId);
    RisingTail(items);
    CallsMoveTheirQueue(b, limit, Complete(key));
    JoiningIsNewOrSaved(b, limit, Complete(key));
  }

  /** Over every sequence of calls, the transfers under one handle complete in the order in which they were tracked. */
  lemma CompletionsComeInOrder(limit: nat, run: seq<Call>, key: Handle, later: seq<Call>)
    requires PermittedRun(Fresh, limit, run)
    requires var b := Exec(Fresh, limit, run);
             && Completes(b, Complete(key)).Some?
             && Completes(Exec(Step(b, limit, Complete(key)), limit, later), Complete(key)).Some?
    ensures var b := Exec(Fresh, limit, run);
            Completes(b, Complete(key)).value < Completes(Exec(Step(b, limit, Complete(key)), limit, later), Complete(key)).value
  {
    var b := Exec(Fresh, limit, run);
    EveryRunIsSound(limit, run);
    RunIssues(Fresh, limit, run);
    FrontIsLowest(b, limit, key);
    StepIssues(b, limit, Complete(key));
    RunStaysAbove(Step(b, limit, Complete(key)), limit, later, key, Items(b.pending, key)[0].id);
  }

  // What decides the fate of a number.

  /** Why a number has come to this: it was tracked, missed for want of memory, completed, or its handle was freed. */
  ghost predicate Explains(b: Books, limit: nat, c: Call, id: nat, fate: Fate) {
    match fate
    case Waiting => c.Remember? && Tracks(b, limit, c.key, c.memory) && id == b.nextId + 1
    case Lost => c.Remember? && c.key != Null && c.memory != Enough && Size(b.pending) < limit && id == b.nextId + 1
    case Completed => Completes(b, c) == Some(id)
    case Forgotten => c.Forget? && Queued(Items(b.pending, c.key), id, None)
  }

  lemma ForgettingExplains(b: Books, limit: nat, c: Call, id: nat)
    requires Sound(b, limit) && c.Forget? && c.key != Null
    requires id in b.fate && Step(b, limit, c).fate[id] != b.fate[id]
    ensures Explains(b, limit, c, id, Step(b, limit, c).fate[id])
  {
  }

  lemma CompletingExplains(b: Books, limit: nat, c: Call, id: nat)
    requires Sound(b, limit) && c.Complete? && c.key != Null
    requires id in Step(b, limit, c).fate && !(id in b.fate && b.fate[id] == Step(b, limit, c).fate[id])
    ensures Explains(b, limit, c, id, Step(b, limit, c).fate[id])
  {
    FinishedSound(b, limit, c.key);
  }

  lemma IssuingExplains(b: Books, limit: nat, c: Call, id: nat)
    requires !c.Complete? && !c.Forget?
    requires id in Step(b, limit, c).fate && !(id in b.fate && b.fate[id] == Step(b, limit, c).fate[id])
    ensures Explains(b, limit, c, id, Step(b, limit, c).fate[id])
  {
  }

  /** The call gives the number a fate, or another one than it had. */
  ghost predicate Decides(b: Books, limit: nat, c: Call, id: nat) {
    var fate := Step(b, limit, c).fate;
    id in fate && !(id in b.fate && b.fate[id] == fate[id])
  }

  lemma CallExplains(b: Books, limit: nat, c: Call, id: nat)
    requires Sound(b, limit) && Decides(b, limit, c, id)
    ensures Explains(b, limit, c, id, Step(b, limit, c).fate[id])
  {
    if c.Forget? {
      ForgettingExplains(b, limit, c, id);
    } else if c.Complete? {
      CompletingExplains(b, limit, c, id);
    } else {
      IssuingExplains(b, limit, c, id);
    }
  }

  /** Over every sequence of calls: where a call decides a number, its fate says what the call did with it. */
  lemma FatesAreExplained(limit: nat, run: seq<Call>, c: Call, id: nat)
    requires PermittedRun(Fresh, limit, run) && Decides(Exec(Fresh, limit, run), limit, c, id)
    ensures var b := Exec(Fresh, limit, run);
            Explains(b, limit, c, id, Step(b, limit, c).fate[id])
  {
    EveryRunIsSound(limit, run);
    CallExplains(Exec(Fresh, limit, run), limit, c, id);
  }

  // Persistent requests.

  /** Neither replaced nor freed. */
  ghost predicate Untouched(run: seq<Call>, key: Handle) {
    forall i :: 0 <= i < |run| && run[i].key == key ==> !run[i].RememberPersistent? && !run[i].Forget?
  }

  lemma {:induction false} SavedStays(b: Books, limit: nat, run: seq<Call>, key: Handle)
    requires key in b.saved && Untouched(run, key)
    ensures var b' := Exec(b, limit, run); key in b'.saved && b'.saved[key] == b.saved[key]
    decreases |run|
  {
    if run != [] {
      if run[0].key != key {
        OtherHandlesStay(b, limit, run[0], key);
      } else if key != Null {
        CallsMoveTheirEntry(b, limit, run[0]);
      }
      SavedStays(Step(b, limit, run[0]), limit, run[1..], key);
    }
  }

  /**
   Over every sequence of calls: until a persistent request is replaced or freed, each of its started transfers
   is queued with the number, direction, group, peer and tag the request was saved with.
   */
  lemma StartedAsSaved(
    limit: nat, run: seq<Call>, c: Call, later: seq<Call>, i: nat)
    requires PermittedRun(Fresh, limit, run + [c] + later)
    requires c.RememberPersistent? && c.key != Null && c.enough && |Exec(Fresh, limit, run).saved| < limit
    requires Untouched(later, c.key)
    requires var items := Items(Exec(Fresh, limit, run + [c] + later).pending, c.key);
             i < |items| && items[i].persistent
    ensures var b := Exec(Fresh, limit, run);
            Items(Exec(Fresh, limit, run + [c] + later).pending, c.key)[i] ==
              Pending(b.nextId + 1, c.receive, if c.granted then Some(b.acquired) else None, c.peer, c.tag, true)
  {
    var b, b2 := Exec(Fresh, limit, run), Exec(Fresh, limit, run + [c] + later);
    ExecSplit(Fresh, limit, run + [c], later);
    ExecSplit(Fresh, limit, run, [c]);
    CallsMoveTheirEntry(b, limit, c);
    SavedStays(Step(b, limit, c), limit, later, c.key);
    EveryRunIsSound(limit, run + [c] + later);
    assert ItemsPlaced(b2.pending[c.key], c.key, b2.saved, b2.owner, b2.home);
    assert Placed(b2.pending[c.key][i], c.key, b2.saved, b2.owner, b2.home);
  }

  lemma {:induction false} ExecSplit(b: Books, limit: nat, run: seq<Call>, later: seq<Call>)
    ensures Exec(b, limit, run + later) == Exec(Exec(b, limit, run), limit, later)
    decreases |run|
  {
    if run == [] {
      assert run + later == later;
    } else {
      assert (run + later)[0] == run[0] && (run + later)[1..] == run[1..] + later;
      ExecSplit(Step(b, limit, run[0]), limit, run[1..], later);
    }
  }
}
