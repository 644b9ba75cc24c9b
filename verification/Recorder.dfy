/**
 The event recorder of one rank. Counters are updated by the application's threads; events are
 buffered, and a writer swaps the buffer out, writes it and counts what it wrote, with records
 arriving in between.
 */
module Recorder {
  import opened Prelude
  import opened Telemetry

  /** The linear search over the table of names; an unknown name is counted under the last index. */
  method OperationIndex(operation: string) returns (index: nat)
    ensures index == IndexOf(operation)
  {
    index := 0;
    while index < |Names| && Names[index] != operation
      invariant index <= |Names| && Search(operation, index) == IndexOf(operation)
    {
      index := index + 1;
    }
  }

  // Counters.

  datatype Tally = Tally(
    operations: seq<Stats>, mpiTime: nat, apiCalls: nat, completions: nat, failed: nat, sent: nat, received: nat)

  /** Calls of one kind among the first `n` operations. */
  function CallsOf(operations: seq<Stats>, kind: Kind, n: nat): nat
    requires n <= |operations|
  {
    if n == 0 then 0
    else CallsOf(operations, kind, n - 1) + if KindOf(n - 1) == kind then operations[n - 1].calls else 0
  }

  /** The counters beside the table agree with the table. */
  ghost predicate Consistent(t: Tally) {
    && |t.operations| == 33
    && t.apiCalls == CallsOf(t.operations, ApiCall, 33)
    && t.completions == CallsOf(t.operations, RequestCompletion, 33)
    && t.sent == t.operations[0].bytes + t.operations[2].bytes
    && t.received == t.operations[1].bytes + t.operations[31].bytes
    && t.failed <= t.apiCalls
  }

  function Grown(s: Stats, duration: nat, bytes: nat): Stats {
    Stats(s.calls + 1, s.duration + duration, s.bytes + bytes)
  }

  function Counted(t: Tally, index: nat, duration: nat, bytes: nat, error: int): Tally
    requires index < |t.operations|
  {
    Tally(
      t.operations[index := Grown(t.operations[index], duration, bytes)],
      t.mpiTime + duration,
      if IsCompletion(index) then t.apiCalls else t.apiCalls + 1,
      if IsCompletion(index) then t.completions + 1 else t.completions,
      if !IsCompletion(index) && error != 0 then t.failed + 1 else t.failed,
      if IsSent(index) then t.sent + bytes else t.sent,
      if IsReceived(index) then t.received + bytes else t.received)
  }

  lemma {:induction false} CallsGrow(operations: seq<Stats>, kind: Kind, n: nat, index: nat, s: Stats)
    requires n <= |operations| && index < |operations| && s.calls == operations[index].calls + 1
    ensures CallsOf(operations[index := s], kind, n) ==
            CallsOf(operations, kind, n) + if index < n && KindOf(index) == kind then 1 else 0
  {
    if n > 0 {
      CallsGrow(operations, kind, n - 1, index, s);
    }
  }

  lemma CountedConsistent(t: Tally, index: nat, duration: nat, bytes: nat, error: int)
    requires Consistent(t) && index <= 32
    ensures Consistent(Counted(t, index, duration, bytes, error))
  {
    var s := Grown(t.operations[index], duration, bytes);
    CallsGrow(t.operations, ApiCall, 33, index, s);
    CallsGrow(t.operations, RequestCompletion, 33, index, s);
  }

  // Events.

  /** `out` is how many events of the buffer being written are in the file already. */
  datatype Trace = Trace(
    file: seq<Event>, staging: seq<Event>, out: nat, active: seq<Event>,
    issued: nat, accepted: nat, written: nat, dropped: nat)

  /** The events in the order in which they reach the file. */
  function InFlight(t: Trace): seq<Event>
    requires t.out <= |t.staging|
  {
    t.file + t.staging[t.out..] + t.active
  }

  ghost predicate Increasing(events: seq<Event>, bound: nat) {
    && (forall i :: 0 <= i < |events| ==> events[i].sequence < bound)
    && (forall i, j :: 0 <= i < j < |events| ==> events[i].sequence < events[j].sequence)
  }

  ghost predicate Orderly(t: Trace, capacity: nat, limit: nat) {
    && t.out <= |t.staging|
    && |t.file| == t.written + t.out
    && t.issued == t.written + |t.staging| + |t.active| + t.dropped
    && t.accepted == t.written + |t.staging| + |t.active| <= limit
    && |t.active| <= capacity
    && Increasing(InFlight(t), t.issued)
  }

  /** A new event takes the next number; it is dropped where the limit or the buffer is full. */
  function Accepted(t: Trace, e: Event, capacity: nat, limit: nat): Trace {
    if t.accepted >= limit || |t.active| >= capacity then t.(issued := t.issued + 1, dropped := t.dropped + 1)
    else t.(issued := t.issued + 1, accepted := t.accepted + 1, active := t.active + [e.(sequence := t.issued)])
  }

  lemma AcceptedOrderly(t: Trace, e: Event, capacity: nat, limit: nat)
    requires Orderly(t, capacity, limit)
    ensures Orderly(Accepted(t, e, capacity, limit), capacity, limit)
  {
    var t' := Accepted(t, e, capacity, limit);
    if t'.accepted != t.accepted {
      assert InFlight(t') == InFlight(t) + [e.(sequence := t.issued)];
    }
  }

  function Swapped(t: Trace): Trace {
    t.(staging := t.active, active := t.staging, out := 0)
  }

  lemma SwappedOrderly(t: Trace, capacity: nat, limit: nat)
    requires Orderly(t, capacity, limit) && t.staging == []
    ensures Orderly(Swapped(t), capacity, limit) && InFlight(Swapped(t)) == InFlight(t)
  {
    assert InFlight(t) == t.file + t.active;
    assert InFlight(Swapped(t)) == t.file + t.active;
  }

  function WroteNext(t: Trace): Trace {
    if t.out < |t.staging| then t.(file := t.file + [t.staging[t.out]], out := t.out + 1) else t
  }

  lemma WroteNextOrderly(t: Trace, capacity: nat, limit: nat)
    requires Orderly(t, capacity, limit)
    ensures Orderly(WroteNext(t), capacity, limit) && InFlight(WroteNext(t)) == InFlight(t)
  {
    if t.out < |t.staging| {
      assert t.staging[t.out..] == [t.staging[t.out]] + t.staging[t.out + 1..];
      assert InFlight(WroteNext(t)) == InFlight(t);
    }
  }

  function Cleared(t: Trace): Trace {
    t.(written := t.written + |t.staging|, staging := [], out := 0)
  }

  lemma ClearedOrderly(t: Trace, capacity: nat, limit: nat)
    requires Orderly(t, capacity, limit) && t.out == |t.staging|
    ensures Orderly(Cleared(t), capacity, limit) && InFlight(Cleared(t)) == InFlight(t)
  {
  }

  // Bytes sent, as events tell them.

  function SentBytes(events: seq<Event>): nat {
    if events == [] then 0
    else SentBytes(events[..|events| - 1]) + SentIn(events[|events| - 1])
  }

  function SentIn(e: Event): nat {
    if e.operation in {"MPI_Send", "MPI_Isend"} then e.bytes else 0
  }

  lemma {:induction false} SentBytesJoin(x: seq<Event>, y: seq<Event>)
    ensures SentBytes(x + y) == SentBytes(x) + SentBytes(y)
    decreases |y|
  {
    if y == [] {
      assert x + y == x;
    } else {
      assert (x + y)[..|x + y| - 1] == x + y[..|y| - 1];
      SentBytesJoin(x, y[..|y| - 1]);
    }
  }

  /** Every send that is in the file or on its way there has been counted. */
  ghost predicate Covered(t: Trace, sent: nat) {
    t.out <= |t.staging| && SentBytes(InFlight(t)) <= sent
  }

  lemma AcceptedCovered(t: Trace, e: Event, capacity: nat, limit: nat, sent: nat)
    requires Covered(t, sent)
    ensures Covered(Accepted(t, e, capacity, limit), sent + SentIn(e))
  {
    var t' := Accepted(t, e, capacity, limit);
    if t'.accepted != t.accepted {
      assert InFlight(t') == InFlight(t) + [e.(sequence := t.issued)];
      SentBytesJoin(InFlight(t), [e.(sequence := t.issued)]);
    } else {
      assert InFlight(t') == InFlight(t);
    }
  }

  /** What is in the file has been counted. */
  lemma FileCovered(t: Trace, sent: nat)
    requires Covered(t, sent)
    ensures SentBytes(t.file) <= sent
  {
    SentBytesJoin(t.file + t.staging[t.out..], t.active);
    SentBytesJoin(t.file, t.staging[t.out..]);
  }

  /** Counters, buffers and file agree with each other. */
  ghost predicate Honest(tally: Tally, t: Trace, capacity: nat, limit: nat) {
    Consistent(tally) && Orderly(t, capacity, limit) && Covered(t, tally.sent)
  }

  lemma RecordedHonest(tally: Tally, t: Trace, capacity: nat, limit: nat, e: Event, tracing: bool)
    requires Honest(tally, t, capacity, limit)
    ensures |Names| == 32 && IndexOf(e.operation) < |tally.operations|
    ensures Honest(Counted(tally, IndexOf(e.operation), e.duration, e.bytes, e.error),
                   if tracing then Accepted(t, e, capacity, limit) else t, capacity, limit)
  {
    CountedConsistent(tally, IndexOf(e.operation), e.duration, e.bytes, e.error);
    AcceptedOrderly(t, e, capacity, limit);
    AcceptedCovered(t, e, capacity, limit, tally.sent);
    SentByIndex(e.operation);
  }

  // Summaries.

  /** The operations that occurred, under their names. */
  function Table(operations: seq<Stats>, n: nat): map<string, Entry>
    requires n <= |operations|
  {
    if n == 0 then map[]
    else
      var rest := Table(operations, n - 1);
      if operations[n - 1].calls == 0 then rest else rest[NameOf(n - 1) := Entry(operations[n - 1], KindOf(n - 1))]
  }

  function SummaryOf(t: Tally, rank: nat, worldSize: nat, complete: bool, state: CaptureState, code: int): Summary {
    Summary(2, complete, state, code, rank, worldSize, t.mpiTime, t.apiCalls, t.completions, t.failed,
            t.sent, t.received, Table(t.operations, |t.operations|))
  }

  class RankRecorder {
    const rank: nat
    const worldSize: nat
    const capacity: nat
    const limit: nat
    const tracing: bool
    const disabled: bool
    const operations: array<Stats>
    var mpiTime: nat
    var apiCalls: nat
    var completions: nat
    var failed: nat
    var sent: nat
    var received: nat
    var active: seq<Event>
    var staging: seq<Event>
    var issued: nat
    var accepted: nat
    var written: nat
    var dropped: nat
    var file: seq<Event>
    var out: nat

    ghost function Counters(): Tally
      reads this, operations
    {
      Tally(operations[..], mpiTime, apiCalls, completions, failed, sent, received)
    }

    ghost function Events(): Trace
      reads this
    {
      Trace(file, staging, out, active, issued, accepted, written, dropped)
    }

    ghost predicate Valid()
      reads this, operations
    {
      Honest(Counters(), Events(), capacity, limit)
    }

    constructor (rank: nat, worldSize: nat, capacity: nat, limit: nat, tracing: bool, disabled: bool)
      ensures Valid() && fresh(operations) && Events() == Trace([], [], 0, [], 0, 0, 0, 0)
    {
      this.rank, this.worldSize, this.capacity, this.limit := rank, worldSize, capacity, limit;
      this.tracing, this.disabled := tracing, disabled;
      operations := new Stats[33](_ => Stats(0, 0, 0));
      mpiTime, apiCalls, completions, failed, sent, received := 0, 0, 0, 0, 0, 0;
      active, staging, issued, accepted, written, dropped, file, out := [], [], 0, 0, 0, 0, [], 0;
      new;
      NoCalls(operations[..], ApiCall, 33);
      NoCalls(operations[..], RequestCompletion, 33);
    }

    method Count(index: nat, duration: nat, bytes: nat, error: int)
      requires index < operations.Length
      modifies operations, this`mpiTime, this`apiCalls, this`completions, this`failed, this`sent, this`received
      ensures Counters() == Counted(old(Counters()), index, duration, bytes, error)
    {
      operations[index] := Stats(
        operations[index].calls + 1, operations[index].duration + duration, operations[index].bytes + bytes);
      mpiTime := mpiTime + duration;
      if IsCompletion(index) {
        completions := completions + 1;
      } else {
        apiCalls := apiCalls + 1;
        if error != 0 {
          failed := failed + 1;
        }
      }
      if IsSent(index) {
        sent := sent + bytes;
      }
      if IsReceived(index) {
        received := received + bytes;
      }
    }

    method Keep(e: Event)
      modifies this`active, this`issued, this`accepted, this`dropped
      ensures Events() == Accepted(old(Events()), e, capacity, limit)
    {
      var sequence := issued;
      issued := issued + 1;
      if accepted >= limit || |active| >= capacity {
        dropped := dropped + 1;
      } else {
        active := active + [e.(sequence := sequence)];
        accepted := accepted + 1;
      }
    }

    /** Records one call or completion; `bytes` may be negative where the size is not known. */
    method Record(operation: string, timestamp: nat, duration: nat, bytes: int, peer: int, tag: int, error: int,
                  communicator: int, request: int)
      requires Valid()
      modifies this, operations
      ensures Valid()
      ensures Counters() == if disabled then old(Counters())
                            else Counted(old(Counters()), IndexOf(operation), duration, Max(bytes, 0), error)
      ensures var e := Event(operation, 0, timestamp, duration, Max(bytes, 0), peer, tag, error, communicator, request);
              Events() == if tracing && !disabled then Accepted(old(Events()), e, capacity, limit) else old(Events())
    {
      if disabled {
        return;
      }
      var e := Event(operation, 0, timestamp, duration, if bytes > 0 then bytes else 0, peer, tag, error, communicator, request);
      RecordedHonest(Counters(), Events(), capacity, limit, e, tracing);
      Note(e);
    }

    method Note(e: Event)
      requires IndexOf(e.operation) < operations.Length
      modifies operations, this`mpiTime, this`apiCalls, this`completions, this`failed, this`sent, this`received,
        this`active, this`issued, this`accepted, this`dropped
      ensures Counters() == Counted(old(Counters()), IndexOf(e.operation), e.duration, e.bytes, e.error)
      ensures Events() == if tracing then Accepted(old(Events()), e, capacity, limit) else old(Events())
    {
      var index := OperationIndex(e.operation);
      Count(index, e.duration, e.bytes, e.error);
      if tracing {
        Keep(e);
      }
    }

    /** The writer takes the buffered events over. */
    method Swap()
      requires Valid() && staging == []
      modifies this`active, this`staging, this`out
      ensures Valid() && Events() == Swapped(old(Events()))
    {
      SwappedOrderly(Events(), capacity, limit);
      active, staging, out := staging, active, 0;
    }

    method WriteNext()
      requires Valid() && out < |staging|
      modifies this`file, this`out
      ensures Valid() && Events() == WroteNext(old(Events()))
    {
      WroteNextOrderly(Events(), capacity, limit);
      file := file + [staging[out]];
      out := out + 1;
    }

    /** The written events are counted, and the buffer is free again. */
    method EndDrain()
      requires Valid() && out == |staging|
      modifies this`written, this`staging, this`out
      ensures Valid() && Events() == Cleared(old(Events()))
    {
      ClearedOrderly(Events(), capacity, limit);
      written := written + |staging|;
      staging, out := [], 0;
    }

    method WriteAll()
      requires Valid() && out == 0
      modifies this`file, this`out
      ensures Valid() && out == |staging| && file == old(file) + staging
    {
      while out < |staging|
        invariant Valid() && out <= |staging| && file == old(file) + staging[..out]
        decreases |staging| - out
      {
        WriteNext();
      }
      assert staging[..out] == staging;
    }

    /** Writes the counters out, with a row for each operation that occurred. */
    method WriteSummary(complete: bool, state: CaptureState, code: int) returns (s: Summary)
      ensures s == SummaryOf(Counters(), rank, worldSize, complete, state, code)
    {
      var table: map<string, Entry> := map[];
      for i := 0 to operations.Length
        invariant table == Table(operations[..], i)
      {
        if operations[i].calls != 0 {
          table := table[NameOf(i) := Entry(operations[i], KindOf(i))];
        }
      }
      s := Summary(2, complete, state, code, rank, worldSize, mpiTime, apiCalls, completions, failed, sent, received, table);
    }

    /** A whole drain: everything that was buffered is in the file, in order. */
    method Drain()
      requires Valid() && staging == []
      modifies this`file, this`out, this`active, this`staging, this`written
      ensures Valid() && staging == [] && active == []
      ensures file == old(file) + old(active) && written == old(written) + |old(active)|
    {
      Swap();
      WriteAll();
      EndDrain();
    }
  }

  lemma {:induction false} NoCalls(operations: seq<Stats>, kind: Kind, n: nat)
    requires n <= |operations| && forall i :: 0 <= i < |operations| ==> operations[i].calls == 0
    ensures CallsOf(operations, kind, n) == 0
  {
    if n > 0 {
      NoCalls(operations, kind, n - 1);
    }
  }
}
