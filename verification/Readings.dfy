/**
 What the analyzer makes of event files: of any file, and of the files that recorders leave. Traffic and
 timeline of a recorder's file are exactly its finished sends and its finished calls.
 */
module Readings {
  import opened Prelude
  import opened Telemetry
  import opened Recorder
  import opened Capture
  import opened Accounts
  import A = Analyzer

  // Any file.

  /** A line of either version that names the rank it was found under. */
  ghost predicate Addressed(line: Line, rank: nat) {
    (line.schema == 1 || line.schema == 2) && line.rank == rank
  }

  /** What version 2 adds: the line comes after all before it, and says of which kind it is as its name does. */
  ghost predicate Credible(line: Line, last: int) {
    line.schema == 2 ==>
      && last < line.event.sequence
      && line.kind == if EndsWith(line.event.operation, "_complete") then RequestCompletion else ApiCall
  }

  /** A send without error between two ranks of the world, credibly reported. */
  lemma SentExactly(line: Line, rank: nat, last: int, world: nat)
    ensures A.Judge(line, rank, last, world) == A.Sent <==>
      && Addressed(line, rank) && Credible(line, last) && line.event.error == 0
      && (line.event.operation == "MPI_Send" || line.event.operation == "MPI_Isend")
      && rank < world && 0 <= line.event.peer < world
  {
  }

  /** The number remembered after some lines of a file. */
  function LastAfter(lines: seq<Line>, rank: nat, last: int): (after: int)
    ensures last <= after
    ensures forall i :: 0 <= i < |lines| && Addressed(lines[i], rank) && lines[i].schema == 2 ==> lines[i].event.sequence <= after
    decreases |lines|
  {
    if lines == [] then last else LastAfter(lines[1..], rank, A.NextLast(lines[0], rank, last))
  }

  lemma {:induction false} TrafficJoins(x: seq<Line>, y: seq<Line>, rank: nat, last: int, world: nat, d: int)
    ensures A.TrafficTo(x + y, rank, last, world, d) ==
            A.Plus(A.TrafficTo(x, rank, last, world, d), A.TrafficTo(y, rank, LastAfter(x, rank, last), world, d))
    decreases |x|
  {
    if x == [] {
      assert x + y == y;
    } else {
      assert (x + y)[0] == x[0] && (x + y)[1..] == x[1..] + y;
      TrafficJoins(x[1..], y, rank, A.NextLast(x[0], rank, last), world, d);
    }
  }

  lemma {:induction false} OldLinesAddNothing(lines: seq<Line>, rank: nat, last: int, world: nat, d: int)
    requires forall i :: 0 <= i < |lines| && Addressed(lines[i], rank) ==> lines[i].schema == 2 && lines[i].event.sequence <= last
    ensures A.TrafficTo(lines, rank, last, world, d) == A.Edge(0, 0)
    decreases |lines|
  {
    if lines != [] {
      OldLinesAddNothing(lines[1..], rank, last, world, d);
    }
  }

  /** Whatever is in a file of version 2: reading any of its lines again after it adds no traffic. */
  lemma RepeatedLinesAddNothing(lines: seq<Line>, again: seq<Line>, rank: nat, world: nat, d: int)
    requires forall i :: 0 <= i < |again| ==> again[i] in lines && again[i].schema == 2
    ensures A.TrafficTo(lines + again, rank, -1, world, d) == A.TrafficTo(lines, rank, -1, world, d)
  {
    TrafficJoins(lines, again, rank, -1, world, d);
    OldLinesAddNothing(again, rank, LastAfter(lines, rank, -1), world, d);
  }

  // Traffic of a recorder's file.

  predicate SentTo(e: Event, d: int) {
    e.operation in {"MPI_Send", "MPI_Isend"} && e.error == 0 && e.peer == d
  }

  ghost function BytesTo(d: int): Event -> nat { (e: Event) => if SentTo(e, d) then e.bytes else 0 }

  ghost function MessagesTo(d: int): Event -> nat { (e: Event) => if SentTo(e, d) then 1 else 0 }

  ghost function Sends(events: seq<Event>, d: int): A.Edge {
    A.Edge(Adding(events, BytesTo(d)), Adding(events, MessagesTo(d)))
  }

  lemma {:induction false} AddingFirst(events: seq<Event>, weight: Event -> nat)
    requires events != []
    ensures Adding(events, weight) == weight(events[0]) + Adding(events[1..], weight)
    decreases |events|
  {
    var n := |events| - 1;
    if n > 0 {
      AddingFirst(events[..n], weight);
      assert events[..n][1..] == events[1..][..n - 1] && events[1..][n - 1] == events[n];
    } else {
      assert events[..0] == [] && events[1..] == [];
    }
  }

  /** A recorded send is credible, wherever it stands in rising order. */
  lemma SendJudged(e: Event, rank: nat, last: int, world: nat, d: int)
    requires last < e.sequence && rank < world && 0 <= d < world
    ensures A.Judge(LineOf(e, rank), rank, last, world) == A.Sent && e.peer == d <==> SentTo(e, d)
    ensures A.NextLast(LineOf(e, rank), rank, last) == e.sequence
  {
    SendIsNoCompletion(e.operation);
  }

  lemma SendIsNoCompletion(operation: string)
    ensures operation in {"MPI_Send", "MPI_Isend"} ==> !EndsWith(operation, "_complete") && !IsCompletion(IndexOf(operation))
  {
    PlaceOf(operation, 0);
    PlaceOf(operation, 2);
    if operation in {"MPI_Send", "MPI_Isend"} {
      CompletionsBySuffix(IndexOf(operation));
    }
  }

  ghost predicate Rising(events: seq<Event>, last: int) {
    && (forall i :: 0 <= i < |events| ==> last < events[i].sequence)
    && (forall i, j :: 0 <= i < j < |events| ==> events[i].sequence < events[j].sequence)
  }

  lemma {:induction false} RisingTraffic(events: seq<Event>, rank: nat, last: int, world: nat, d: int)
    requires Rising(events, last) && rank < world && 0 <= d < world
    ensures A.TrafficTo(Lines(events, rank), rank, last, world, d) == Sends(events, d)
    decreases |events|
  {
    if events != [] {
      var lines := Lines(events, rank);
      assert lines[1..] == Lines(events[1..], rank);
      SendJudged(events[0], rank, last, world, d);
      RisingTraffic(events[1..], rank, events[0].sequence, world, d);
      AddingFirst(events, BytesTo(d));
      AddingFirst(events, MessagesTo(d));
    }
  }

  lemma {:induction false} NoTrafficOutside(lines: seq<Line>, rank: nat, last: int, world: nat, d: int)
    requires !(0 <= d < world) || world <= rank
    ensures A.TrafficTo(lines, rank, last, world, d) == A.Edge(0, 0)
    decreases |lines|
  {
    if lines != [] {
      NoTrafficOutside(lines[1..], rank, A.NextLast(lines[0], rank, last), world, d);
    }
  }

  /** Over every run: to each rank of the world, the traffic read from the file is exactly the sends in it that did not fail. */
  lemma TrafficIsWhatWasSent(c: Config, run: seq<Step>, d: int)
    requires c.rank < c.worldSize
    ensures var file := After(c, run).trace.file;
            A.TrafficTo(Lines(file, c.rank), c.rank, -1, c.worldSize, d) ==
              if 0 <= d < c.worldSize then Sends(file, d) else A.Edge(0, 0)
  {
    var file := After(c, run).trace.file;
    FileIncreasing(After(c, run).trace);
    if 0 <= d < c.worldSize {
      RisingTraffic(file, c.rank, -1, c.worldSize, d);
    } else {
      NoTrafficOutside(Lines(file, c.rank), c.rank, -1, c.worldSize, d);
    }
  }

  // The timeline of a recorder's file.

  /** The fifty buckets divide the longest runtime evenly; what comes later is in the last one. */
  lemma BucketsDivideTheRuntime(timestamp: nat, runtime: nat, b: nat)
    requires b < 50
    ensures var length := Max(runtime, 1);
            A.BucketOf(timestamp, runtime) == b <==>
              b * length <= timestamp * 50 && (b < 49 ==> timestamp * 50 < (b + 1) * length)
  {
    var length := Max(runtime, 1);
    Quotient(timestamp * 50, length, b);
    Quotient(timestamp * 50, length, 49);
  }

  lemma Quotient(n: nat, d: nat, q: nat)
    requires d > 0
    ensures q <= n / d <==> q * d <= n
    ensures n / d == q <==> q * d <= n < (q + 1) * d
  {
    var k, r := n / d, n % d;
    assert n == k * d + r;
    if q <= k {
      Scaled(d, q, k);
      assert q * d <= k * d;
    } else {
      Scaled(d, k + 1, q);
      assert (k + 1) * d <= q * d;
    }
    if q < k {
      Scaled(d, q + 1, k);
      assert (q + 1) * d <= k * d;
    }
  }

  predicate Falls(e: Event, runtime: nat, b: nat) {
    e.error == 0 && Tellable(e.operation) && A.BucketOf(e.timestamp, runtime) == b
  }

  ghost function CallsIn(runtime: nat, b: nat): Event -> nat { (e: Event) => if Falls(e, runtime, b) then 1 else 0 }

  ghost function TimeIn(runtime: nat, b: nat): Event -> nat { (e: Event) => if Falls(e, runtime, b) then e.duration else 0 }

  lemma CallCounts(e: Event, rank: nat, last: int)
    requires last < e.sequence
    ensures A.Counts(LineOf(e, rank), rank, last) <==> e.error == 0 && Tellable(e.operation)
    ensures A.NextLast(LineOf(e, rank), rank, last) == e.sequence
  {
    TellableExactly(e.operation);
  }

  lemma {:induction false} RisingTimeline(events: seq<Event>, rank: nat, last: int, runtime: nat, b: nat)
    requires Rising(events, last)
    ensures A.Within(Lines(events, rank), rank, last, runtime, b) ==
            A.Bucket(Adding(events, CallsIn(runtime, b)), Adding(events, TimeIn(runtime, b)))
    decreases |events|
  {
    if events != [] {
      var lines := Lines(events, rank);
      assert lines[1..] == Lines(events[1..], rank);
      CallCounts(events[0], rank, last);
      RisingTimeline(events[1..], rank, events[0].sequence, runtime, b);
      AddingFirst(events, CallsIn(runtime, b));
      AddingFirst(events, TimeIn(runtime, b));
    }
  }

  /** Over every run: a bucket gets exactly the calls and the time of the file's events that did not fail and fall into it. */
  lemma TimelineIsWhatHappened(c: Config, run: seq<Step>, runtime: nat, b: nat)
    ensures var file := After(c, run).trace.file;
            A.Within(Lines(file, c.rank), c.rank, -1, runtime, b) ==
              A.Bucket(Adding(file, CallsIn(runtime, b)), Adding(file, TimeIn(runtime, b)))
  {
    FileIncreasing(After(c, run).trace);
    RisingTimeline(After(c, run).trace.file, c.rank, -1, runtime, b);
  }

  // Summaries that were changed.

  /**
   A snapshot with one checked field changed is accepted exactly if the field is as it was, or is still within
   its range; counts and the final code are not checked in version 1.
   */
  lemma ChangedSnapshotsAreRefused(c: Config, run: seq<Step>, complete: bool, state: CaptureState, code: nat, other: int, count: nat)
    requires c.rank < c.worldSize
    ensures var s := SummaryOf(After(c, run).tally, c.rank, c.worldSize, complete, state, code);
            && (A.Acceptable(s.(schema := other)) <==> other == 1 || other == 2)
            && (A.Acceptable(s.(finalizeCode := other)) <==> 0 <= other)
            && (A.Acceptable(s.(mpiCalls := count)) <==> count == s.mpiCalls)
            && (A.Acceptable(s.(completions := count)) <==> count == s.completions)
            && (A.Acceptable(s.(rank := count)) <==> count < s.worldSize)
            && (A.Acceptable(s.(worldSize := count)) <==> s.rank < count)
            && A.Acceptable(s.(schema := 1, finalizeCode := other, mpiCalls := count, completions := count))
  {
    SnapshotsAreAccepted(c, run, complete, state, code);
  }
}
