/**
 The request tracker of the MPI interceptor. Releasing or using a group needs a proof that it is
 still held, so a double release or a use after release cannot occur. The runtime's answers are
 parameters: whether a group is granted, how a rank translates, what a status says.
 */
module Tracker {
  import opened Prelude
  import opened Ownership

  const ProcNull := -1

  /** What the recorder is told when a transfer completes. */
  datatype Completion = Completion(receive: bool, bytes: int, peer: int, tag: int, id: nat)

  /** The MPI status of a completed transfer, and how the runtime translates the peer's rank. */
  datatype Status = Status(cancelled: bool, source: int, tag: int, count: int, translated: int)

  /**
   A cancelled transfer moved nothing and has no peer. The rank is the runtime's translation where
   there is a group to translate with; the bytes of a send were counted when it was issued.
   */
  function Reported(item: Pending, status: Status): Completion {
    var rank := if item.receive then status.source else item.peer;
    Completion(
      item.receive,
      if status.cancelled || !item.receive then 0 else Max(status.count, 0),
      if status.cancelled then ProcNull else if rank >= 0 && item.peers.Some? then status.translated else rank,
      if item.receive then status.tag else item.tag,
      item.id)
  }

  /** A cancelled transfer is reported without bytes and without a peer, whatever else its status says. */
  lemma CancelledReports(item: Pending, status: Status)
    requires status.cancelled
    ensures Reported(item, status) == Completion(item.receive, 0, -1, if item.receive then status.tag else item.tag, item.id)
  {
  }

  /** A finished send is reported with the tag it was issued with and no bytes, to its peer as the world numbers it. */
  lemma SendReports(item: Pending, status: Status)
    requires !status.cancelled && !item.receive
    ensures item.peers.None? || item.peer < 0 ==> Reported(item, status) == Completion(false, 0, item.peer, item.tag, item.id)
    ensures item.peers.Some? && item.peer >= 0 ==>
              Reported(item, status) == Completion(false, 0, status.translated, item.tag, item.id)
  {
  }

  /** A finished receive is reported with the status's tag and byte count, from the sender as the world numbers it. */
  lemma ReceiveReports(item: Pending, status: Status)
    requires !status.cancelled && item.receive
    ensures var bytes := if status.count < 0 then 0 else status.count;
            && (item.peers.None? || status.source < 0 ==>
                  Reported(item, status) == Completion(true, bytes, status.source, status.tag, item.id))
            && (item.peers.Some? && status.source >= 0 ==>
                  Reported(item, status) == Completion(true, bytes, status.translated, status.tag, item.id))
  {
  }

  class RequestTracker {
    const limit: nat
    var pending: Queues
    var saved: Table
    var nextId: nat
    var overflows: nat
    var acquired: nat
    ghost var owner: Owners
    ghost var released: set<nat>
    ghost var home: Homes
    ghost var fate: map<nat, Fate>

    ghost function View(): Books
      reads this
    {
      Books(pending, saved, nextId, acquired, owner, released, home, fate)
    }

    ghost predicate Valid()
      reads this
    {
      Sound(View(), limit)
    }

    constructor (limit: nat)
      ensures Valid() && this.limit == limit
      ensures View() == Books(map[], map[], 0, 0, map[], {}, map[], map[])
    {
      this.limit := limit;
      pending, saved, nextId, overflows, acquired := map[], map[], 0, 0, 0;
      owner, released, home, fate := map[], {}, map[], map[];
    }

    /** Asks the runtime for a communicator's group; the answer may be the null group. */
    method Take(granted: bool, ghost o: Owner) returns (g: Option<nat>)
      modifies this`acquired, this`owner
      ensures g == Group(old(View()), granted) && acquired == Taken(old(View()), granted)
      ensures owner == Granted(old(owner), g, o)
    {
      g := None;
      if granted {
        g := Some(acquired);
        owner := owner[acquired := o];
        acquired := acquired + 1;
      }
    }

    /** Releases a group, which must still be held; the null group is skipped. */
    method Release(peers: Option<nat>)
      requires peers.Some? ==> peers.value in owner
      modifies this`owner, this`released
      ensures owner == Dropped(old(owner), peers) && released == Freed(old(released), peers)
    {
      if peers.Some? {
        owner := owner - {peers.value};
        released := released + {peers.value};
      }
    }

    /** Translates a rank with a group, which must still be held. */
    method Translate(g: nat, answer: int) returns (rank: int)
      requires g in owner
      ensures rank == answer
    {
      rank := answer;
    }

    method PendingSize() returns (total: nat)
      ensures total == Size(pending)
    {
      var todo := pending.Keys;
      total := 0;
      while todo != {}
        invariant todo <= pending.Keys
        invariant total + Total(todo, Length(pending)) == Size(pending)
        decreases |todo|
      {
        var k :| k in todo;
        TotalRemove(todo, Length(pending), k);
        total := total + |pending[k]|;
        todo := todo - {k};
      }
    }

    /** The number of the transfer under a handle: the first pending one, else the saved one. */
    method RequestId(key: Handle) returns (id: Option<nat>)
      ensures id.Some? <==> key != Null && (Items(pending, key) != [] || key in saved)
      ensures key != Null && Items(pending, key) != [] ==> id == Some(Items(pending, key)[0].id)
      ensures key != Null && Items(pending, key) == [] && key in saved ==> id == Some(saved[key].id)
    {
      id := None;
      if key != Null {
        if key in pending && pending[key] != [] {
          id := Some(pending[key][0].id);
        } else if key in saved {
          id := Some(saved[key].id);
        }
      }
    }

    method Push(key: Handle, item: Pending)
      modifies this`pending
      ensures pending == old(pending)[key := Items(old(pending), key) + [item]]
    {
      pending := pending[key := (if key in pending then pending[key] else []) + [item]];
    }

    /** Starts a persistent request: the new transfer borrows the saved group. */
    method StartPersistent(key: Handle, memory: Memory) returns (id: Option<nat>)
      requires Valid()
      modifies this`pending, this`overflows
      ensures Valid()
      ensures id == if key != Null && key in saved && Size(old(pending)) < limit && memory == Enough
                    then Some(saved[key].id) else None
      ensures View() ==
        if key == Null || key !in saved || Size(old(pending)) >= limit then old(View())
        else if memory == Enough then Started(old(View()), key)
        else Unstarted(old(View()), key, memory == EmptyEntry)
    {
      id := None;
      if key != Null && key in saved {
        var size := PendingSize();
        if size >= limit {
          overflows := overflows + 1;
        } else if memory == Enough {
          StartedSound(View(), limit, key);
          id := Some(saved[key].id);
          Push(key, saved[key]);
        } else {
          UnstartedSound(View(), limit, key, memory == EmptyEntry);
          pending := WithEntry(pending, key, memory == EmptyEntry);
        }
      }
    }

    method QueueTransfer(key: Handle, receive: bool, granted: bool, peer: int, tag: int) returns (id: nat)
      modifies this`pending, this`nextId, this`acquired, this`owner, this`home, this`fate
      ensures View() == Transferred(old(View()), key, receive, granted, peer, tag) && id == nextId
    {
      var g := Take(granted, Transfer(nextId + 1));
      nextId := nextId + 1;
      id := nextId;
      Push(key, Pending(id, receive, g, peer, tag, false));
      home, fate := home[id := key], fate[id := Waiting];
    }

    method MissTransfer(key: Handle, granted: bool, entry: bool)
      requires Balanced(owner, released, acquired)
      modifies this`pending, this`nextId, this`acquired, this`owner, this`released, this`fate
      ensures View() == Missed(old(View()), key, granted, entry)
    {
      var g := Take(granted, Scratch);
      nextId := nextId + 1;
      fate := fate[nextId := Lost];
      pending := WithEntry(pending, key, entry);
      Release(g);
      assert owner == old(owner);
    }

    /** Tracks a one-shot transfer. If memory runs out, the group is released and the number is lost. */
    method RememberTransfer(key: Handle, receive: bool, granted: bool, peer: int, tag: int, memory: Memory) returns (id: Option<nat>)
      requires Valid()
      modifies this`pending, this`nextId, this`overflows, this`acquired, this`owner, this`released, this`home, this`fate
      ensures Valid()
      ensures id == if key != Null && Size(old(pending)) < limit && memory == Enough then Some(old(nextId) + 1) else None
      ensures View() ==
        if key == Null || Size(old(pending)) >= limit then old(View())
        else if memory == Enough then Transferred(old(View()), key, receive, granted, peer, tag)
        else Missed(old(View()), key, granted, memory == EmptyEntry)
    {
      id := None;
      if key != Null {
        var size := PendingSize();
        if size >= limit {
          overflows := overflows + 1;
        } else if memory == Enough {
          TransferredSound(View(), limit, key, receive, granted, peer, tag);
          var number := QueueTransfer(key, receive, granted, peer, tag);
          id := Some(number);
        } else {
          MissedSound(View(), limit, key, granted, memory == EmptyEntry);
          MissTransfer(key, granted, memory == EmptyEntry);
        }
      }
    }

    method Save(key: Handle, receive: bool, granted: bool, peer: int, tag: int) returns (id: nat)
      requires key in saved && saved[key].peers.Some? ==> saved[key].peers.value in owner
      requires Balanced(owner, released, acquired)
      modifies this`saved, this`nextId, this`acquired, this`owner, this`released
      ensures View() == Persisted(old(View()), key, receive, granted, peer, tag) && id == nextId
    {
      ghost var peers := PeersOf(saved, key);
      var g := Take(granted, Saved(key));
      nextId := nextId + 1;
      id := nextId;
      if key in saved {
        Release(saved[key].peers);
      }
      assert owner == Granted(Dropped(old(owner), peers), g, Saved(key));
      saved := saved[key := Pending(id, receive, g, peer, tag, true)];
    }

    method MissSaved(granted: bool)
      requires Balanced(owner, released, acquired)
      modifies this`nextId, this`acquired, this`owner, this`released
      ensures View() == Unsavable(old(View()), granted)
    {
      var g := Take(granted, Scratch);
      nextId := nextId + 1;
      Release(g);
      assert owner == old(owner);
    }

    /**
     Tracks a persistent request. Only a new entry needs memory. The runtime does not hand out the
     handle of a persistent request that is still started, so a replaced entry is not borrowed from.
     */
    method RememberPersistent(key: Handle, receive: bool, granted: bool, peer: int, tag: int, enough: bool) returns (id: Option<nat>)
      requires Valid() && (key in saved ==> Unborrowed(pending, key))
      modifies this`saved, this`nextId, this`overflows, this`acquired, this`owner, this`released
      ensures Valid()
      ensures id == if key != Null && |old(saved)| < limit && (enough || key in old(saved)) then Some(old(nextId) + 1) else None
      ensures View() ==
        if key == Null || |old(saved)| >= limit then old(View())
        else if enough || key in old(saved) then Persisted(old(View()), key, receive, granted, peer, tag)
        else Unsavable(old(View()), granted)
    {
      id := None;
      if key != Null {
        if |saved| >= limit {
          overflows := overflows + 1;
        } else if enough || key in saved {
          PersistedSound(View(), limit, key, receive, granted, peer, tag);
          var number := Save(key, receive, granted, peer, tag);
          id := Some(number);
        } else {
          UnsavableSound(View(), limit, granted);
          MissSaved(granted);
        }
      }
    }

    /** Takes the first transfer off the queue; a one-shot transfer is done with its group. */
    method Finish(key: Handle)
      requires key in pending && pending[key] != []
      requires var item := pending[key][0]; !item.persistent && item.peers.Some? ==> item.peers.value in owner
      modifies this`pending, this`owner, this`released, this`home, this`fate
      ensures View() == Finished(old(View()), key)
    {
      var item := pending[key][0];
      if |pending[key]| == 1 {
        pending := pending - {key};
      } else {
        pending := pending[key := pending[key][1..]];
      }
      if !item.persistent {
        Release(item.peers);
        home, fate := home - {item.id}, fate[item.id := Completed];
      }
    }

    /** What is reported of a completed transfer, whose group must still be held. */
    method Describe(item: Pending, status: Status) returns (report: Completion)
      requires item.peers.Some? ==> item.peers.value in owner
      ensures report == Reported(item, status)
    {
      var peer := if item.receive then status.source else item.peer;
      if peer >= 0 && item.peers.Some? {
        peer := Translate(item.peers.value, status.translated);
      }
      var count := if item.receive && !status.cancelled then status.count else 0;
      report := Completion(
        item.receive, if status.cancelled then 0 else Max(count, 0), if status.cancelled then ProcNull else peer,
        if item.receive then status.tag else item.tag, item.id);
    }

    /** A transfer under the handle has completed: the oldest one is taken off and reported. */
    method CompleteRequest(key: Handle, status: Status) returns (report: Option<Completion>)
      requires Valid()
      modifies this`pending, this`owner, this`released, this`home, this`fate
      ensures Valid() && View() == Finished(old(View()), key)
      ensures report == if Items(old(pending), key) == [] then None else Some(Reported(Items(old(pending), key)[0], status))
      ensures var items := Items(old(pending), key);
        items != [] && !items[0].persistent ==> old(fate[Items(pending, key)[0].id]) == Waiting
    {
      report := None;
      FinishedSound(View(), limit, key);
      if key in pending && pending[key] != [] {
        FrontHeld(View(), limit, key);
        var completion := Describe(pending[key][0], status);
        report := Some(completion);
        Finish(key);
      }
    }

    /** Works off the queue of a handle: every one-shot transfer in it releases its group. */
    method DropQueue(key: Handle)
      requires key in pending && ItemsPlaced(pending[key], key, saved, owner, home)
      modifies this`pending, this`owner, this`released, this`home, this`fate
      ensures View() == Unqueued(old(View()), key)
    {
      var items := pending[key];
      ReleaseAll(key, items);
      pending := pending - {key};
      home := home - IdsOf(items);
      fate := map id | id in fate :: if id in IdsOf(items) then Forgotten else fate[id];
    }

    method Unqueue(key: Handle)
      requires Valid() && key in pending
      modifies this`pending, this`owner, this`released, this`home, this`fate
      ensures Valid() && View() == Unqueued(old(View()), key)
    {
      UnqueuedSound(View(), limit, key);
      QueuePlacedAt(View(), limit, key);
      DropQueue(key);
    }

    method ReleaseAll(key: Handle, items: seq<Pending>)
      requires ItemsPlaced(items, key, saved, owner, home)
      modifies this`owner, this`released
      ensures owner == old(owner) - GroupsOf(items) && released == old(released) + GroupsOf(items)
    {
      for i := 0 to |items|
        invariant owner == old(owner) - GroupsOf(items[..i]) && released == old(released) + GroupsOf(items[..i])
      {
        GroupsStep(items, i);
        if !items[i].persistent && items[i].peers.Some? {
          GroupNotYetReleased(items, i, key, saved, old(owner), home);
          Release(items[i].peers);
        }
      }
      assert items[..|items|] == items;
    }

    method DropSaved(key: Handle)
      requires key in saved && (saved[key].peers.Some? ==> saved[key].peers.value in owner)
      modifies this`saved, this`owner, this`released
      ensures View() == Unsaved(old(View()), key)
    {
      Release(saved[key].peers);
      saved := saved - {key};
    }

    method Unsave(key: Handle)
      requires Valid() && key in saved && key !in pending
      modifies this`saved, this`owner, this`released
      ensures Valid() && View() == Unsaved(old(View()), key)
    {
      UnsavedSound(View(), limit, key);
      DropSaved(key);
    }

    /** A request handle was freed: its queue and its saved entry go, and with them their groups. */
    method ForgetRequest(key: Handle)
      requires Valid()
      modifies this`pending, this`saved, this`owner, this`released, this`home, this`fate
      ensures Valid()
      ensures View() == if key == Null then old(View()) else Unsaved(Unqueued(old(View()), key), key)
    {
      if key != Null {
        if key in pending {
          Unqueue(key);
        } else {
          NothingToUnqueue(View(), key);
        }
        if key in saved {
          Unsave(key);
        } else {
          assert saved - {key} == saved;
        }
      }
    }

    /** At the end every group handed out has been released, each once, and nothing is tracked. */
    method Finalize()
      requires Valid()
      modifies this`pending, this`saved, this`owner, this`released, this`home, this`fate
      ensures Valid() && pending == map[] && saved == map[] && owner == map[]
      ensures forall g: nat :: g in released <==> g < acquired
      ensures FatesStay(old(fate), fate) && forall id :: id in fate ==> fate[id] != Waiting
    {
      while pending.Keys != {}
        invariant Valid() && saved == old(saved) && FatesStay(old(fate), fate)
        decreases |pending.Keys|
      {
        var key :| key in pending;
        UnqueuedFates(View(), key);
        Unqueue(key);
      }
      while saved.Keys != {}
        invariant Valid() && pending == map[] && FatesStay(old(fate), fate)
        decreases |saved.Keys|
      {
        var key :| key in saved;
        Unsave(key);
      }
      EmptyOwesNothing(View(), limit);
    }
  }
}
