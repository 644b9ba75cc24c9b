/**
 Who has to release which process group in the request tracker of the MPI interceptor. A pending
 one-shot transfer owns the group taken for it. A persistent request owns its group through its
 saved entry, and the transfers started from it only borrow that group.
 */
module Ownership {
  import opened Prelude

  /** MPI request handles; the null handle is 0. */
  type Handle = nat
  const Null: Handle := 0

  datatype Pending = Pending(id: nat, receive: bool, peers: Option<nat>, peer: int, tag: int, persistent: bool)

  datatype Owner = Transfer(id: nat) | Saved(key: Handle) | Scratch

  type Queues = map<Handle, seq<Pending>>
  type Table = map<Handle, Pending>
  type Owners = map<nat, Owner>
  type Homes = map<nat, Handle>

  function Items(pending: Queues, key: Handle): seq<Pending> {
    if key in pending then pending[key] else []
  }

  ghost function Size(pending: Queues): nat {
    Total(pending.Keys, Length(pending))
  }

  /** An entry is under the right handle, and its group is held for it. */
  ghost predicate Placed(item: Pending, k: Handle, saved: Table, owner: Owners, home: Homes) {
    if item.persistent then k in saved && saved[k] == item
    else
      && item.id in home && home[item.id] == k
      && (item.peers.Some? ==> item.peers.value in owner && owner[item.peers.value] == Transfer(item.id))
  }

  /** One-shot transfers under one handle were queued in the order of their numbers. */
  ghost predicate Rising(items: seq<Pending>) {
    forall i, j :: 0 <= i < j < |items| && !items[i].persistent && !items[j].persistent ==> items[i].id < items[j].id
  }

  ghost predicate Queued(items: seq<Pending>, id: nat, g: Option<nat>) {
    exists i :: 0 <= i < |items| && !items[i].persistent && items[i].id == id && (g.Some? ==> items[i].peers == g)
  }

  ghost predicate Justified(o: Owner, g: nat, pending: Queues, saved: Table, home: Homes) {
    match o
    case Transfer(id) => id in home && Queued(Items(pending, home[id]), id, Some(g))
    case Saved(k) => k in saved && saved[k].peers == Some(g)
    case Scratch => false
  }

  ghost predicate ItemsPlaced(items: seq<Pending>, k: Handle, saved: Table, owner: Owners, home: Homes) {
    Rising(items) && forall i :: 0 <= i < |items| ==> Placed(items[i], k, saved, owner, home)
  }

  ghost predicate AllPlaced(pending: Queues, saved: Table, owner: Owners, home: Homes) {
    forall k :: k in pending ==> ItemsPlaced(pending[k], k, saved, owner, home)
  }

  ghost predicate AllHeld(saved: Table, owner: Owners) {
    forall k :: k in saved ==>
      && saved[k].persistent
      && (saved[k].peers.Some? ==> saved[k].peers.value in owner && owner[saved[k].peers.value] == Saved(k))
  }

  ghost predicate AllJustified(pending: Queues, saved: Table, owner: Owners, home: Homes) {
    forall g :: g in owner ==> Justified(owner[g], g, pending, saved, home)
  }

  ghost predicate AllQueued(pending: Queues, home: Homes) {
    forall id :: id in home ==> Queued(Items(pending, home[id]), id, None)
  }

  /** Entries and held references correspond to each other. */
  ghost predicate Owning(pending: Queues, saved: Table, owner: Owners, home: Homes) {
    && AllPlaced(pending, saved, owner, home)
    && AllHeld(saved, owner)
    && AllJustified(pending, saved, owner, home)
    && AllQueued(pending, home)
  }

  // Adding an entry.

  lemma QueuedLater(items: seq<Pending>, item: Pending, id: nat, g: Option<nat>)
    requires Queued(items, id, g)
    ensures Queued(items + [item], id, g)
  {
    var i :| 0 <= i < |items| && !items[i].persistent && items[i].id == id && (g.Some? ==> items[i].peers == g);
    assert (items + [item])[i] == items[i];
  }

  lemma JustifiedLater(o: Owner, g: nat, pending: Queues, saved: Table, home: Homes, key: Handle, item: Pending)
    requires Justified(o, g, pending, saved, home)
    ensures Justified(o, g, pending[key := Items(pending, key) + [item]], saved, home)
  {
    if o.Transfer? && home[o.id] == key {
      QueuedLater(Items(pending, key), item, o.id, Some(g));
    }
  }

  lemma QueuesLater(pending: Queues, saved: Table, owner: Owners, home: Homes, key: Handle, item: Pending)
    requires AllJustified(pending, saved, owner, home) && AllQueued(pending, home)
    ensures var pending' := pending[key := Items(pending, key) + [item]];
            AllJustified(pending', saved, owner, home) && AllQueued(pending', home)
  {
    var pending' := pending[key := Items(pending, key) + [item]];
    forall g | g in owner
      ensures Justified(owner[g], g, pending', saved, home)
    {
      JustifiedLater(owner[g], g, pending, saved, home, key, item);
    }
    forall id | id in home
      ensures Queued(Items(pending', home[id]), id, None)
    {
      if home[id] == key {
        QueuedLater(Items(pending, key), item, id, None);
      }
    }
  }

  lemma AppendPlaced(items: seq<Pending>, item: Pending, k: Handle, saved: Table, owner: Owners, home: Homes)
    requires ItemsPlaced(items, k, saved, owner, home) && Placed(item, k, saved, owner, home)
    requires item.persistent || forall i :: 0 <= i < |items| && !items[i].persistent ==> items[i].id < item.id
    ensures ItemsPlaced(items + [item], k, saved, owner, home)
  {
  }

  /** A started persistent request borrows the group of its saved entry. */
  lemma AddBorrower(pending: Queues, saved: Table, owner: Owners, home: Homes, key: Handle, item: Pending)
    requires Owning(pending, saved, owner, home)
    requires item.persistent && key in saved && saved[key] == item
    ensures Owning(pending[key := Items(pending, key) + [item]], saved, owner, home)
  {
    QueuesLater(pending, saved, owner, home, key, item);
    AppendPlaced(Items(pending, key), item, key, saved, owner, home);
  }

  /** The owners once a group, if there is one, is held for an entry. */
  ghost function Granted(owner: Owners, peers: Option<nat>, o: Owner): Owners {
    if peers.Some? then owner[peers.value := o] else owner
  }

  ghost predicate Unheld(owner: Owners, peers: Option<nat>) {
    peers.Some? ==> peers.value !in owner
  }

  lemma PlacedLater(items: seq<Pending>, k: Handle, saved: Table, owner: Owners, home: Homes, peers: Option<nat>, id: nat, key: Handle)
    requires ItemsPlaced(items, k, saved, owner, home) && Unheld(owner, peers) && id !in home
    ensures ItemsPlaced(items, k, saved, Granted(owner, peers, Transfer(id)), home[id := key])
  {
  }

  /** A new one-shot transfer owns the group that was taken for it. */
  lemma AddTransfer(pending: Queues, saved: Table, owner: Owners, home: Homes, key: Handle, item: Pending)
    requires Owning(pending, saved, owner, home)
    requires !item.persistent && Unheld(owner, item.peers)
    requires forall id :: id in home ==> id < item.id
    ensures Owning(pending[key := Items(pending, key) + [item]], saved,
                   Granted(owner, item.peers, Transfer(item.id)), home[item.id := key])
  {
    TransferPlaced(pending, saved, owner, home, key, item);
    TransferQueued(pending, saved, owner, home, key, item);
  }

  lemma TransferPlaced(pending: Queues, saved: Table, owner: Owners, home: Homes, key: Handle, item: Pending)
    requires AllPlaced(pending, saved, owner, home)
    requires !item.persistent && Unheld(owner, item.peers)
    requires forall id :: id in home ==> id < item.id
    ensures AllPlaced(pending[key := Items(pending, key) + [item]], saved,
                      Granted(owner, item.peers, Transfer(item.id)), home[item.id := key])
  {
    var owner', home' := Granted(owner, item.peers, Transfer(item.id)), home[item.id := key];
    forall k | k in pending
      ensures ItemsPlaced(pending[k], k, saved, owner', home')
    {
      PlacedLater(pending[k], k, saved, owner, home, item.peers, item.id, key);
    }
    AppendPlaced(Items(pending, key), item, key, saved, owner', home');
  }

  lemma TransferQueued(pending: Queues, saved: Table, owner: Owners, home: Homes, key: Handle, item: Pending)
    requires AllJustified(pending, saved, owner, home) && AllQueued(pending, home)
    requires !item.persistent && item.id !in home
    ensures var pending' := pending[key := Items(pending, key) + [item]];
            && AllJustified(pending', saved, Granted(owner, item.peers, Transfer(item.id)), home[item.id := key])
            && AllQueued(pending', home[item.id := key])
  {
    var items := Items(pending, key) + [item];
    QueuesLater(pending, saved, owner, home, key, item);
    assert items[|items| - 1] == item;
    assert Queued(items, item.id, None) && Queued(items, item.id, item.peers);
    var pending', owner', home' := pending[key := items], Granted(owner, item.peers, Transfer(item.id)), home[item.id := key];
    forall g | g in owner'
      ensures Justified(owner'[g], g, pending', saved, home')
    {
      assert item.peers == Some(g) || Justified(owner[g], g, pending', saved, home);
    }
  }

  /** No started transfer borrows the group of the saved entry. */
  ghost predicate Unborrowed(pending: Queues, key: Handle) {
    forall i :: 0 <= i < |Items(pending, key)| ==> !Items(pending, key)[i].persistent
  }

  ghost function Dropped(owner: Owners, peers: Option<nat>): Owners {
    if peers.Some? then owner - {peers.value} else owner
  }

  lemma UnborrowedPlaced(items: seq<Pending>, k: Handle, saved: Table, saved': Table, owner: Owners, owner': Owners, home: Homes)
    requires ItemsPlaced(items, k, saved, owner, home)
    requires (k in saved' && k in saved && saved'[k] == saved[k]) || forall i :: 0 <= i < |items| ==> !items[i].persistent
    requires forall g :: g in owner && owner[g].Transfer? ==> g in owner' && owner'[g] == owner[g]
    ensures ItemsPlaced(items, k, saved', owner', home)
  {
  }

  /** Taking a saved entry away together with the group it owns. */
  lemma RemoveSaved(pending: Queues, saved: Table, owner: Owners, home: Homes, key: Handle)
    requires Owning(pending, saved, owner, home) && key in saved && Unborrowed(pending, key)
    ensures Owning(pending, saved - {key}, Dropped(owner, saved[key].peers), home)
  {
    var saved', owner' := saved - {key}, Dropped(owner, saved[key].peers);
    RemovedSavedPlaced(pending, saved, owner, home, key);
    forall g | g in owner'
      ensures Justified(owner'[g], g, pending, saved', home)
    {
      assert Justified(owner[g], g, pending, saved, home);
    }
  }

  lemma RemovedSavedPlaced(pending: Queues, saved: Table, owner: Owners, home: Homes, key: Handle)
    requires AllPlaced(pending, saved, owner, home) && AllHeld(saved, owner) && key in saved && Unborrowed(pending, key)
    ensures AllPlaced(pending, saved - {key}, Dropped(owner, saved[key].peers), home)
    ensures AllHeld(saved - {key}, Dropped(owner, saved[key].peers))
  {
    var saved', owner' := saved - {key}, Dropped(owner, saved[key].peers);
    forall k | k in pending
      ensures ItemsPlaced(pending[k], k, saved', owner', home)
    {
      assert k == key ==> Items(pending, key) == pending[k];
      assert k != key && !(k in saved) ==> forall i :: 0 <= i < |pending[k]| ==> Placed(pending[k][i], k, saved, owner, home);
      UnborrowedPlaced(pending[k], k, saved, saved', owner, owner', home);
    }
  }

  lemma AddSaved(pending: Queues, saved: Table, owner: Owners, home: Homes, key: Handle, item: Pending)
    requires Owning(pending, saved, owner, home) && key !in saved && Unborrowed(pending, key)
    requires item.persistent && Unheld(owner, item.peers)
    ensures Owning(pending, saved[key := item], Granted(owner, item.peers, Saved(key)), home)
  {
    var saved', owner' := saved[key := item], Granted(owner, item.peers, Saved(key));
    forall k | k in pending
      ensures ItemsPlaced(pending[k], k, saved', owner', home)
    {
      assert k == key ==> Items(pending, key) == pending[k];
      assert k != key && !(k in saved) ==> forall i :: 0 <= i < |pending[k]| ==> Placed(pending[k][i], k, saved, owner, home);
      UnborrowedPlaced(pending[k], k, saved, saved', owner, owner', home);
    }
    forall g | g in owner'
      ensures Justified(owner'[g], g, pending, saved', home)
    {
      assert item.peers == Some(g) || Justified(owner[g], g, pending, saved, home);
    }
  }

  lemma AddEmpty(pending: Queues, saved: Table, owner: Owners, home: Homes, key: Handle)
    requires Owning(pending, saved, owner, home)
    ensures Owning(pending[key := Items(pending, key)], saved, owner, home)
  {
    var pending' := pending[key := Items(pending, key)];
    assert forall k :: Items(pending', k) == Items(pending, k);
    forall g | g in owner
      ensures Justified(owner[g], g, pending', saved, home)
    {
      assert Justified(owner[g], g, pending, saved, home);
    }
  }

  // Removing entries.

  function Popped(pending: Queues, key: Handle): Queues {
    if |Items(pending, key)| <= 1 then pending - {key} else pending[key := pending[key][1..]]
  }

  lemma QueuedElsewhere(items: seq<Pending>, id: nat, g: Option<nat>)
    requires items != [] && Queued(items, id, g) && (items[0].persistent || items[0].id != id)
    ensures Queued(items[1..], id, g)
  {
    var i :| 0 <= i < |items| && !items[i].persistent && items[i].id == id && (g.Some? ==> items[i].peers == g);
    assert items[1..][i - 1] == items[i];
  }

  lemma PoppedItems(pending: Queues, key: Handle, k: Handle)
    requires key in pending && pending[key] != []
    ensures Items(Popped(pending, key), k) == if k == key then pending[key][1..] else Items(pending, k)
  {
  }

  /** The first entry is the only one with its number, so what it owned is not owned by another. */
  lemma FirstIsAlone(items: seq<Pending>, k: Handle, saved: Table, owner: Owners, home: Homes)
    requires items != [] && ItemsPlaced(items, k, saved, owner, home)
    ensures var owner', home' := (if items[0].persistent then owner else Dropped(owner, items[0].peers)),
                                 (if items[0].persistent then home else home - {items[0].id});
            ItemsPlaced(items[1..], k, saved, owner', home')
  {
  }

  lemma ElsewherePlaced(items: seq<Pending>, k: Handle, saved: Table, owner: Owners, home: Homes, gone: set<nat>, ids: set<nat>)
    requires ItemsPlaced(items, k, saved, owner, home)
    requires forall id :: id in ids && id in home ==> home[id] != k
    requires forall g :: g in gone && g in owner ==> owner[g].Transfer? && owner[g].id in ids
    ensures ItemsPlaced(items, k, saved, owner - gone, home - ids)
  {
  }

  lemma RemoveFront(pending: Queues, saved: Table, owner: Owners, home: Homes, key: Handle)
    requires Owning(pending, saved, owner, home) && key in pending && pending[key] != []
    ensures var item := pending[key][0];
            if item.persistent then Owning(Popped(pending, key), saved, owner, home)
            else Owning(Popped(pending, key), saved, Dropped(owner, item.peers), home - {item.id})
  {
    FrontPlaced(pending, saved, owner, home, key);
    FrontQueued(pending, saved, owner, home, key);
  }

  lemma FrontPlaced(pending: Queues, saved: Table, owner: Owners, home: Homes, key: Handle)
    requires AllPlaced(pending, saved, owner, home) && AllHeld(saved, owner) && key in pending && pending[key] != []
    ensures var item := pending[key][0];
            var owner', home' := (if item.persistent then owner else Dropped(owner, item.peers)),
                                 (if item.persistent then home else home - {item.id});
            AllPlaced(Popped(pending, key), saved, owner', home') && AllHeld(saved, owner')
  {
    var item := pending[key][0];
    assert Placed(item, key, saved, owner, home);
    FirstIsAlone(pending[key], key, saved, owner, home);
    forall k | k in pending && k != key
      ensures !item.persistent ==> ItemsPlaced(pending[k], k, saved, Dropped(owner, item.peers), home - {item.id})
    {
      if !item.persistent {
        ElsewherePlaced(pending[k], k, saved, owner, home, if item.peers.Some? then {item.peers.value} else {}, {item.id});
        assert owner - {} == owner;
      }
    }
  }

  lemma FrontQueued(pending: Queues, saved: Table, owner: Owners, home: Homes, key: Handle)
    requires AllPlaced(pending, saved, owner, home) && AllJustified(pending, saved, owner, home) && AllQueued(pending, home)
    requires key in pending && pending[key] != []
    ensures var item := pending[key][0];
            var owner', home' := (if item.persistent then owner else Dropped(owner, item.peers)),
                                 (if item.persistent then home else home - {item.id});
            AllJustified(Popped(pending, key), saved, owner', home') && AllQueued(Popped(pending, key), home')
  {
    var item := pending[key][0];
    var pending' := Popped(pending, key);
    var owner' := if item.persistent then owner else Dropped(owner, item.peers);
    var home' := if item.persistent then home else home - {item.id};
    forall k
      ensures Items(pending', k) == if k == key then pending[key][1..] else Items(pending, k)
    {
      PoppedItems(pending, key, k);
    }
    forall g | g in owner'
      ensures Justified(owner'[g], g, pending', saved, home')
    {
      FrontJustified(pending, saved, owner, home, key, g);
    }
    forall id | id in home'
      ensures Queued(Items(pending', home'[id]), id, None)
    {
      if home[id] == key {
        QueuedElsewhere(pending[key], id, None);
      }
    }
  }

  lemma FrontJustified(pending: Queues, saved: Table, owner: Owners, home: Homes, key: Handle, g: nat)
    requires AllPlaced(pending, saved, owner, home) && AllJustified(pending, saved, owner, home)
    requires key in pending && pending[key] != [] && g in owner
    requires var item := pending[key][0]; item.persistent || item.peers != Some(g)
    ensures var item := pending[key][0];
            Justified(owner[g], g, Popped(pending, key), saved, if item.persistent then home else home - {item.id})
  {
    assert Justified(owner[g], g, pending, saved, home);
    if owner[g].Transfer? {
      var id := owner[g].id;
      PoppedItems(pending, key, home[id]);
      if home[id] == key {
        assert Queued(pending[key], id, Some(g));
        var i :| 0 <= i < |pending[key]| && !pending[key][i].persistent && pending[key][i].id == id && pending[key][i].peers == Some(g);
        assert ItemsPlaced(pending[key], key, saved, owner, home);
        QueuedElsewhere(pending[key], id, Some(g));
      } else {
        assert ItemsPlaced(pending[key], key, saved, owner, home);
        assert Placed(pending[key][0], key, saved, owner, home);
      }
    }
  }

  /** The groups and the numbers that the one-shot transfers of a queue hold. */
  ghost function GroupsOf(items: seq<Pending>): set<nat> {
    set i | 0 <= i < |items| && !items[i].persistent && items[i].peers.Some? :: items[i].peers.value
  }

  ghost function IdsOf(items: seq<Pending>): set<nat> {
    set i | 0 <= i < |items| && !items[i].persistent :: items[i].id
  }

  lemma RemoveQueue(pending: Queues, saved: Table, owner: Owners, home: Homes, key: Handle)
    requires Owning(pending, saved, owner, home)
    ensures Owning(pending - {key}, saved, owner - GroupsOf(Items(pending, key)), home - IdsOf(Items(pending, key)))
  {
    QueuePlaced(pending, saved, owner, home, key);
    QueueJustified(pending, saved, owner, home, key);
  }

  lemma QueuePlaced(pending: Queues, saved: Table, owner: Owners, home: Homes, key: Handle)
    requires AllPlaced(pending, saved, owner, home) && AllHeld(saved, owner)
    ensures var owner', home' := owner - GroupsOf(Items(pending, key)), home - IdsOf(Items(pending, key));
            AllPlaced(pending - {key}, saved, owner', home') && AllHeld(saved, owner')
  {
    var items := Items(pending, key);
    assert ItemsPlaced(items, key, saved, owner, home);
    QueueTransfers(items, key, saved, owner, home);
    forall k | k in pending && k != key
      ensures ItemsPlaced(pending[k], k, saved, owner - GroupsOf(items), home - IdsOf(items))
    {
      ElsewherePlaced(pending[k], k, saved, owner, home, GroupsOf(items), IdsOf(items));
    }
  }

  lemma QueuedIds(items: seq<Pending>, id: nat, g: Option<nat>)
    requires Queued(items, id, g)
    ensures id in IdsOf(items) && (g.Some? ==> g.value in GroupsOf(items))
  {
  }

  lemma QueueJustified(pending: Queues, saved: Table, owner: Owners, home: Homes, key: Handle)
    requires AllPlaced(pending, saved, owner, home) && AllJustified(pending, saved, owner, home) && AllQueued(pending, home)
    ensures var owner', home' := owner - GroupsOf(Items(pending, key)), home - IdsOf(Items(pending, key));
            AllJustified(pending - {key}, saved, owner', home') && AllQueued(pending - {key}, home')
  {
    var items := Items(pending, key);
    var owner', home' := owner - GroupsOf(items), home - IdsOf(items);
    QueueTransfers(items, key, saved, owner, home);
    forall id | id in home'
      ensures home[id] != key && Queued(Items(pending - {key}, home'[id]), id, None)
    {
      if home[id] == key {
        QueuedIds(items, id, None);
      }
    }
    forall g | g in owner'
      ensures Justified(owner'[g], g, pending - {key}, saved, home')
    {
      assert Justified(owner[g], g, pending, saved, home);
      if owner[g].Transfer? && home[owner[g].id] == key {
        QueuedIds(items, owner[g].id, Some(g));
      }
    }
  }

  lemma QueueTransfers(items: seq<Pending>, key: Handle, saved: Table, owner: Owners, home: Homes)
    requires ItemsPlaced(items, key, saved, owner, home)
    ensures forall g :: g in GroupsOf(items) ==> g in owner && owner[g].Transfer? && owner[g].id in IdsOf(items)
    ensures forall id :: id in IdsOf(items) ==> id in home && home[id] == key
  {
  }

  /** A group is not released twice while a queue is worked off. */
  lemma GroupNotYetReleased(items: seq<Pending>, i: nat, key: Handle, saved: Table, owner: Owners, home: Homes)
    requires ItemsPlaced(items, key, saved, owner, home) && i < |items|
    requires !items[i].persistent && items[i].peers.Some?
    ensures items[i].peers.value in owner && items[i].peers.value !in GroupsOf(items[..i])
  {
    assert Placed(items[i], key, saved, owner, home);
  }

  lemma GroupsStep(items: seq<Pending>, i: nat)
    requires i < |items|
    ensures GroupsOf(items[..i + 1]) ==
      GroupsOf(items[..i]) + if !items[i].persistent && items[i].peers.Some? then {items[i].peers.value} else {}
  {
    assert items[..i + 1] == items[..i] + [items[i]];
  }

  // How many entries are queued.

  ghost function Length(pending: Queues): nat -> nat {
    k => if k in pending then |pending[k]| else 0
  }

  lemma SizeAt(pending: Queues, key: Handle, items: seq<Pending>)
    ensures Size(pending[key := items]) == Size(pending - {key}) + |items|
    ensures Size(pending) == Size(pending - {key}) + |Items(pending, key)|
  {
    var with := pending[key := items];
    TotalRemove(with.Keys, Length(with), key);
    TotalCongruent(with.Keys - {key}, Length(with), Length(pending - {key}));
    assert with.Keys - {key} == (pending - {key}).Keys;
    if key in pending {
      TotalRemove(pending.Keys, Length(pending), key);
      TotalCongruent(pending.Keys - {key}, Length(pending), Length(pending - {key}));
      assert pending.Keys - {key} == (pending - {key}).Keys;
    } else {
      assert pending - {key} == pending;
    }
  }

  // The tracker's books as a whole, and what each operation makes of them.

  /** What became of the number of a one-shot transfer: each number has exactly one fate. */
  datatype Fate = Waiting | Completed | Forgotten | Lost

  /** Whether making an entry succeeds, fails at once, or fails after creating an empty queue. */
  datatype Memory = Enough | NoEntry | EmptyEntry

  /** References are numbered in the order in which the runtime hands them out. */
  datatype Books = Books(
    pending: Queues, saved: Table, nextId: nat, acquired: nat,
    owner: Owners, released: set<nat>, home: Homes, fate: map<nat, Fate>)

  /** Every reference handed out is either held or was released, and not both. */
  ghost predicate Balanced(owner: Owners, released: set<nat>, acquired: nat) {
    owner.Keys !! released && forall g: nat :: g < acquired <==> g in owner || g in released
  }

  /** The numbers in the queues are those whose fate is open. */
  ghost predicate Accounted(home: Homes, fate: map<nat, Fate>, nextId: nat) {
    && (forall id :: id in home ==> id in fate)
    && (forall id :: id in fate ==> 1 <= id <= nextId && (fate[id] == Waiting <==> id in home))
  }

  ghost predicate Sound(b: Books, limit: nat) {
    && Size(b.pending) <= limit && |b.saved| <= limit
    && Balanced(b.owner, b.released, b.acquired)
    && Accounted(b.home, b.fate, b.nextId)
    && Owning(b.pending, b.saved, b.owner, b.home)
  }

  function Group(b: Books, granted: bool): Option<nat> {
    if granted then Some(b.acquired) else None
  }

  function Taken(b: Books, granted: bool): nat {
    if granted then b.acquired + 1 else b.acquired
  }

  function Freed(released: set<nat>, peers: Option<nat>): set<nat> {
    if peers.Some? then released + {peers.value} else released
  }

  /** A one-shot transfer is queued and owns the group taken for it. */
  ghost function Transferred(b: Books, key: Handle, receive: bool, granted: bool, peer: int, tag: int): Books {
    var id, g := b.nextId + 1, Group(b, granted);
    b.(
      pending := b.pending[key := Items(b.pending, key) + [Pending(id, receive, g, peer, tag, false)]],
      nextId := id, acquired := Taken(b, granted),
      owner := Granted(b.owner, g, Transfer(id)), home := b.home[id := key], fate := b.fate[id := Waiting])
  }

  lemma TransferredSound(b: Books, limit: nat, key: Handle, receive: bool, granted: bool, peer: int, tag: int)
    requires Sound(b, limit) && Size(b.pending) < limit
    ensures Sound(Transferred(b, key, receive, granted, peer, tag), limit)
  {
    NumberedBelow(b.home, b.fate, b.nextId);
    TransferredBalanced(b, key, receive, granted, peer, tag);
    TransferredOwning(b, key, receive, granted, peer, tag);
    TransferredSize(b, key, receive, granted, peer, tag);
  }

  lemma TransferredBalanced(b: Books, key: Handle, receive: bool, granted: bool, peer: int, tag: int)
    requires Balanced(b.owner, b.released, b.acquired) && Accounted(b.home, b.fate, b.nextId)
    ensures Unheld(b.owner, Group(b, granted))
    ensures var b' := Transferred(b, key, receive, granted, peer, tag);
            Balanced(b'.owner, b'.released, b'.acquired) && Accounted(b'.home, b'.fate, b'.nextId)
  {
    TakenBalanced(b, granted, Transfer(b.nextId + 1));
    IssuedAccounted(b.home, b.fate, b.nextId, key);
  }

  lemma TransferredSize(b: Books, key: Handle, receive: bool, granted: bool, peer: int, tag: int)
    ensures Size(Transferred(b, key, receive, granted, peer, tag).pending) == Size(b.pending) + 1
  {
    SizeAt(b.pending, key, Items(b.pending, key) + [Pending(b.nextId + 1, receive, Group(b, granted), peer, tag, false)]);
  }

  lemma TransferredOwning(b: Books, key: Handle, receive: bool, granted: bool, peer: int, tag: int)
    requires Owning(b.pending, b.saved, b.owner, b.home) && Unheld(b.owner, Group(b, granted))
    requires forall id :: id in b.home ==> id < b.nextId + 1
    ensures var b' := Transferred(b, key, receive, granted, peer, tag); Owning(b'.pending, b'.saved, b'.owner, b'.home)
  {
    var item := Pending(b.nextId + 1, receive, Group(b, granted), peer, tag, false);
    var b' := Transferred(b, key, receive, granted, peer, tag);
    assert b'.pending == b.pending[key := Items(b.pending, key) + [item]] && b'.saved == b.saved;
    assert b'.owner == Granted(b.owner, item.peers, Transfer(item.id)) && b'.home == b.home[item.id := key];
    AddTransfer(b.pending, b.saved, b.owner, b.home, key, item);
  }

  lemma NumberedBelow(home: Homes, fate: map<nat, Fate>, nextId: nat)
    requires Accounted(home, fate, nextId)
    ensures forall id :: id in home ==> id < nextId + 1
  {
  }

  lemma TakenBalanced(b: Books, granted: bool, o: Owner)
    requires Balanced(b.owner, b.released, b.acquired)
    ensures Unheld(b.owner, Group(b, granted))
    ensures Balanced(Granted(b.owner, Group(b, granted), o), b.released, Taken(b, granted))
  {
  }

  lemma IssuedAccounted(home: Homes, fate: map<nat, Fate>, nextId: nat, key: Handle)
    requires Accounted(home, fate, nextId)
    ensures Accounted(home[nextId + 1 := key], fate[nextId + 1 := Waiting], nextId + 1)
    ensures Accounted(home, fate[nextId + 1 := Lost], nextId + 1)
    ensures Accounted(home, fate, nextId + 1)
  {
  }

  function WithEntry(pending: Queues, key: Handle, entry: bool): Queues {
    if entry then pending[key := Items(pending, key)] else pending
  }

  /** Memory ran out: the group is released again, and an empty queue may be left. */
  ghost function Missed(b: Books, key: Handle, granted: bool, entry: bool): Books {
    b.(
      pending := WithEntry(b.pending, key, entry),
      nextId := b.nextId + 1, acquired := Taken(b, granted),
      released := Freed(b.released, Group(b, granted)), fate := b.fate[b.nextId + 1 := Lost])
  }

  lemma MissedSound(b: Books, limit: nat, key: Handle, granted: bool, entry: bool)
    requires Sound(b, limit)
    ensures Sound(Missed(b, key, granted, entry), limit)
  {
    ReturnedBalanced(b, granted);
    IssuedAccounted(b.home, b.fate, b.nextId, key);
    AddEmpty(b.pending, b.saved, b.owner, b.home, key);
    EmptySize(b.pending, key);
  }

  lemma EmptySize(pending: Queues, key: Handle)
    ensures Size(pending[key := Items(pending, key)]) == Size(pending)
  {
    SizeAt(pending, key, Items(pending, key));
  }

  lemma ReturnedBalanced(b: Books, granted: bool)
    requires Balanced(b.owner, b.released, b.acquired)
    ensures Balanced(b.owner, Freed(b.released, Group(b, granted)), Taken(b, granted))
  {
  }

  ghost function PeersOf(saved: Table, key: Handle): Option<nat> {
    if key in saved then saved[key].peers else None
  }

  /** A persistent request is saved; an entry it replaces gives up its group. */
  ghost function Persisted(b: Books, key: Handle, receive: bool, granted: bool, peer: int, tag: int): Books {
    var id, g := b.nextId + 1, Group(b, granted);
    b.(
      saved := b.saved[key := Pending(id, receive, g, peer, tag, true)],
      nextId := id, acquired := Taken(b, granted),
      owner := Granted(Dropped(b.owner, PeersOf(b.saved, key)), g, Saved(key)),
      released := Freed(b.released, PeersOf(b.saved, key)))
  }

  /** Memory for a new saved entry ran out: the group is released again, and a number is used up. */
  function Unsavable(b: Books, granted: bool): Books {
    b.(
      nextId := b.nextId + 1, acquired := Taken(b, granted), released := Freed(b.released, Group(b, granted)))
  }

  lemma UnsavableSound(b: Books, limit: nat, granted: bool)
    requires Sound(b, limit)
    ensures Sound(Unsavable(b, granted), limit)
  {
    ReturnedBalanced(b, granted);
    IssuedAccounted(b.home, b.fate, b.nextId, Null);
  }

  lemma NotSavedUnborrowed(pending: Queues, saved: Table, owner: Owners, home: Homes, key: Handle)
    requires AllPlaced(pending, saved, owner, home) && key !in saved
    ensures Unborrowed(pending, key)
  {
    assert key in pending ==> ItemsPlaced(pending[key], key, saved, owner, home);
  }

  lemma WithoutSaved(b: Books, key: Handle)
    requires Owning(b.pending, b.saved, b.owner, b.home) && Unborrowed(b.pending, key)
    ensures Owning(b.pending, b.saved - {key}, Dropped(b.owner, PeersOf(b.saved, key)), b.home)
  {
    if key in b.saved {
      RemoveSaved(b.pending, b.saved, b.owner, b.home, key);
    } else {
      assert b.saved - {key} == b.saved;
    }
  }

  lemma PersistedOwning(b: Books, key: Handle, receive: bool, granted: bool, peer: int, tag: int)
    requires Owning(b.pending, b.saved, b.owner, b.home) && Unheld(b.owner, Group(b, granted)) && Unborrowed(b.pending, key)
    ensures var b' := Persisted(b, key, receive, granted, peer, tag); Owning(b'.pending, b'.saved, b'.owner, b'.home)
  {
    var item := Pending(b.nextId + 1, receive, Group(b, granted), peer, tag, true);
    var kept := Dropped(b.owner, PeersOf(b.saved, key));
    var b' := Persisted(b, key, receive, granted, peer, tag);
    assert b'.saved == (b.saved - {key})[key := item] && b'.pending == b.pending;
    assert b'.owner == Granted(kept, item.peers, Saved(key)) && b'.home == b.home;
    WithoutSaved(b, key);
    AddSaved(b.pending, b.saved - {key}, kept, b.home, key, item);
  }

  lemma PersistedSound(b: Books, limit: nat, key: Handle, receive: bool, granted: bool, peer: int, tag: int)
    requires Sound(b, limit) && |b.saved| < limit && (key in b.saved ==> Unborrowed(b.pending, key))
    ensures Sound(Persisted(b, key, receive, granted, peer, tag), limit)
  {
    if key !in b.saved {
      NotSavedUnborrowed(b.pending, b.saved, b.owner, b.home, key);
    }
    TakenBalanced(b, granted, Saved(key));
    PersistedOwning(b, key, receive, granted, peer, tag);
    PersistedBalanced(b, key, granted);
    assert |b.saved[key := Pending(b.nextId + 1, receive, Group(b, granted), peer, tag, true)]| <= |b.saved| + 1;
  }

  lemma PersistedBalanced(b: Books, key: Handle, granted: bool)
    requires AllHeld(b.saved, b.owner) && Balanced(b.owner, b.released, b.acquired)
    ensures Balanced(Granted(Dropped(b.owner, PeersOf(b.saved, key)), Group(b, granted), Saved(key)),
                     Freed(b.released, PeersOf(b.saved, key)), Taken(b, granted))
  {
  }

  /** A persistent request is started: its transfer borrows the saved group. */
  ghost function Started(b: Books, key: Handle): Books {
    if key !in b.saved then b
    else b.(pending := b.pending[key := Items(b.pending, key) + [b.saved[key]]])
  }

  lemma StartedSound(b: Books, limit: nat, key: Handle)
    requires Sound(b, limit) && Size(b.pending) < limit
    ensures Sound(Started(b, key), limit)
  {
    if key in b.saved {
      AddBorrower(b.pending, b.saved, b.owner, b.home, key, b.saved[key]);
      SizeAt(b.pending, key, Items(b.pending, key) + [b.saved[key]]);
    }
  }

  /** Memory ran out while a transfer was started: at most an empty queue is left. */
  function Unstarted(b: Books, key: Handle, entry: bool): Books {
    b.(pending := WithEntry(b.pending, key, entry))
  }

  lemma UnstartedSound(b: Books, limit: nat, key: Handle, entry: bool)
    requires Sound(b, limit)
    ensures Sound(Unstarted(b, key, entry), limit)
  {
    AddEmpty(b.pending, b.saved, b.owner, b.home, key);
    EmptySize(b.pending, key);
  }

  /** The first transfer under a handle completes; a one-shot transfer gives up its group. */
  ghost function Finished(b: Books, key: Handle): Books {
    var items := Items(b.pending, key);
    if items == [] then b
    else if items[0].persistent then b.(pending := Popped(b.pending, key))
    else b.(
      pending := Popped(b.pending, key),
      owner := Dropped(b.owner, items[0].peers), released := Freed(b.released, items[0].peers),
      home := b.home - {items[0].id}, fate := b.fate[items[0].id := Completed])
  }

  lemma PoppedSize(pending: Queues, key: Handle)
    ensures Size(Popped(pending, key)) <= Size(pending)
  {
    SizeAt(pending, key, Items(pending, key)[Min(1, |Items(pending, key)|)..]);
    assert |Items(pending, key)| > 1 ==> Popped(pending, key) == pending[key := Items(pending, key)[1..]];
  }

  lemma FinishedSound(b: Books, limit: nat, key: Handle)
    requires Sound(b, limit)
    ensures Sound(Finished(b, key), limit)
    ensures var items := Items(b.pending, key);
            items != [] && !items[0].persistent ==> items[0].id in b.fate && b.fate[items[0].id] == Waiting
  {
    var items := Items(b.pending, key);
    if items != [] {
      assert ItemsPlaced(items, key, b.saved, b.owner, b.home);
      assert Placed(items[0], key, b.saved, b.owner, b.home);
      RemoveFront(b.pending, b.saved, b.owner, b.home, key);
      PoppedSize(b.pending, key);
      if !items[0].persistent {
        FinishedBalanced(b, items[0]);
      }
    }
  }

  lemma FinishedBalanced(b: Books, item: Pending)
    requires Balanced(b.owner, b.released, b.acquired) && Accounted(b.home, b.fate, b.nextId)
    requires item.id in b.home && (item.peers.Some? ==> item.peers.value in b.owner)
    ensures Balanced(Dropped(b.owner, item.peers), Freed(b.released, item.peers), b.acquired)
    ensures Accounted(b.home - {item.id}, b.fate[item.id := Completed], b.nextId)
    ensures item.id in b.fate && b.fate[item.id] == Waiting
  {
  }

  /** The group of a queued transfer, owned or borrowed, is still held. */
  lemma FrontHeld(b: Books, limit: nat, key: Handle)
    requires Sound(b, limit) && key in b.pending && b.pending[key] != []
    ensures b.pending[key][0].peers.Some? ==> b.pending[key][0].peers.value in b.owner
  {
    assert ItemsPlaced(b.pending[key], key, b.saved, b.owner, b.home);
    assert Placed(b.pending[key][0], key, b.saved, b.owner, b.home);
  }

  lemma NothingToUnqueue(b: Books, key: Handle)
    requires key !in b.pending
    ensures Unqueued(b, key) == b
  {
    assert b.pending - {key} == b.pending && b.home - {} == b.home && b.owner - {} == b.owner;
  }

  /** Every transfer queued under a handle is forgotten. */
  ghost function Unqueued(b: Books, key: Handle): Books {
    var items := Items(b.pending, key);
    b.(
      pending := b.pending - {key},
      owner := b.owner - GroupsOf(items), released := b.released + GroupsOf(items),
      home := b.home - IdsOf(items),
      fate := map id | id in b.fate :: if id in IdsOf(items) then Forgotten else b.fate[id])
  }

  lemma UnqueuedSound(b: Books, limit: nat, key: Handle)
    requires Sound(b, limit)
    ensures Sound(Unqueued(b, key), limit)
  {
    var items := Items(b.pending, key);
    RemoveQueue(b.pending, b.saved, b.owner, b.home, key);
    SizeAt(b.pending, key, []);
    assert ItemsPlaced(items, key, b.saved, b.owner, b.home);
    QueueTransfers(items, key, b.saved, b.owner, b.home);
  }

  /** Fates that are decided stay as they are. */
  ghost predicate FatesStay(fate: map<nat, Fate>, fate': map<nat, Fate>) {
    forall id :: id in fate ==> id in fate' && (fate'[id] == fate[id] || fate[id] == Waiting)
  }

  lemma QueuePlacedAt(b: Books, limit: nat, key: Handle)
    requires Sound(b, limit) && key in b.pending
    ensures ItemsPlaced(b.pending[key], key, b.saved, b.owner, b.home)
  {
  }

  lemma UnqueuedFates(b: Books, key: Handle)
    requires AllPlaced(b.pending, b.saved, b.owner, b.home) && Accounted(b.home, b.fate, b.nextId)
    ensures FatesStay(b.fate, Unqueued(b, key).fate)
  {
    var items := Items(b.pending, key);
    assert ItemsPlaced(items, key, b.saved, b.owner, b.home);
    QueueTransfers(items, key, b.saved, b.owner, b.home);
  }

  lemma NothingJustified(owner: Owners, home: Homes)
    requires AllJustified(map[], map[], owner, home) && AllQueued(map[], home)
    ensures owner == map[] && home == map[]
  {
    assert forall id, g :: !Queued([], id, g);
    assert owner.Keys == {};
    assert home.Keys == {};
  }

  /** With empty tables nothing is held any more, and no fate is open. */
  lemma EmptyOwesNothing(b: Books, limit: nat)
    requires Sound(b, limit) && b.pending == map[] && b.saved == map[]
    ensures b.owner == map[] && (forall g: nat :: g in b.released <==> g < b.acquired)
    ensures forall id :: id in b.fate ==> b.fate[id] != Waiting
  {
    assert forall k :: Items(b.pending, k) == [];
    NothingJustified(b.owner, b.home);
  }

  ghost function Unsaved(b: Books, key: Handle): Books {
    b.(
      saved := b.saved - {key},
      owner := Dropped(b.owner, PeersOf(b.saved, key)), released := Freed(b.released, PeersOf(b.saved, key)))
  }

  lemma DroppedBalanced(b: Books, key: Handle)
    requires AllHeld(b.saved, b.owner) && Balanced(b.owner, b.released, b.acquired)
    ensures Balanced(Dropped(b.owner, PeersOf(b.saved, key)), Freed(b.released, PeersOf(b.saved, key)), b.acquired)
  {
  }

  lemma UnsavedSound(b: Books, limit: nat, key: Handle)
    requires Sound(b, limit) && key !in b.pending
    ensures Sound(Unsaved(b, key), limit)
  {
    WithoutSaved(b, key);
    DroppedBalanced(b, key);
    assert |b.saved - {key}| <= |b.saved|;
  }
}
