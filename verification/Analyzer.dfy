/** The analyzer's side of the telemetry contract: which summaries and event lines it accepts. */
module Analyzer {
  import opened Prelude
  import opened Telemetry

  ghost function CallsIn(operations: map<string, Entry>, kind: Kind): string -> nat {
    name => if name in operations && operations[name].kind == kind then operations[name].stats.calls else 0
  }

  ghost function TotalCalls(operations: map<string, Entry>, kind: Kind): nat {
    Total(operations.Keys, CallsIn(operations, kind))
  }

  /** The numbers a version 2 summary gives must agree with its table. */
  ghost predicate Acceptable(s: Summary) {
    && s.schema in {1, 2}
    && (s.schema == 2 ==>
          && s.finalizeCode >= 0
          && s.mpiCalls == TotalCalls(s.operations, ApiCall)
          && s.completions == TotalCalls(s.operations, RequestCompletion))
    && s.rank < s.worldSize
  }

  method LoadSummary(s: Summary) returns (ok: bool)
    ensures ok <==> Acceptable(s)
  {
    var api, completed := 0, 0;
    var todo := s.operations.Keys;
    while todo != {}
      invariant todo <= s.operations.Keys
      invariant api + Total(todo, CallsIn(s.operations, ApiCall)) == TotalCalls(s.operations, ApiCall)
      invariant completed + Total(todo, CallsIn(s.operations, RequestCompletion)) == TotalCalls(s.operations, RequestCompletion)
      decreases |todo|
    {
      var name :| name in todo;
      TotalRemove(todo, CallsIn(s.operations, ApiCall), name);
      TotalRemove(todo, CallsIn(s.operations, RequestCompletion), name);
      if s.operations[name].kind == RequestCompletion {
        completed := completed + s.operations[name].stats.calls;
      } else {
        api := api + s.operations[name].stats.calls;
      }
      todo := todo - {name};
    }
    ok := s.schema in {1, 2} && s.rank < s.worldSize
      && (s.schema == 2 ==> s.finalizeCode >= 0 && s.mpiCalls == api && s.completions == completed);
  }

  // Event lines.

  datatype Verdict = Ignored | Skipped | Sent

  /** Schema and rank are checked first; then a version 2 line must come after the last one. */
  predicate InSequence(line: Line, rank: nat, last: int) {
    line.schema in {1, 2} && line.rank == rank && (line.schema == 2 ==> line.event.sequence > last)
  }

  /** The kind a version 2 line claims must fit the suffix of its operation. */
  predicate KindFits(line: Line) {
    line.schema == 2 ==> (line.kind == RequestCompletion <==> EndsWith(line.event.operation, "_complete"))
  }

  /** `Ignored` lines draw a warning; `Skipped` ones are fine but no traffic. */
  function Judge(line: Line, rank: nat, last: int, world: nat): Verdict {
    if !InSequence(line, rank, last) || !KindFits(line) then Ignored
    else if line.event.error != 0 || line.event.operation !in {"MPI_Send", "MPI_Isend"} then Skipped
    else if rank < world && 0 <= line.event.peer < world then Sent
    else Ignored
  }

  function NextLast(line: Line, rank: nat, last: int): int {
    if line.schema == 2 && InSequence(line, rank, last) then line.event.sequence else last
  }

  /** Bytes of the lines of one file that count as traffic. */
  function Traffic(lines: seq<Line>, rank: nat, last: int, world: nat): nat
    decreases |lines|
  {
    if lines == [] then 0
    else
      (if Judge(lines[0], rank, last, world) == Sent then lines[0].event.bytes else 0)
      + Traffic(lines[1..], rank, NextLast(lines[0], rank, last), world)
  }

  datatype Edge = Edge(bytes: nat, messages: nat)

  type Edges = map<(int, int), Edge>

  ghost function BytesIn(edges: Edges): ((int, int)) -> nat {
    pair => if pair in edges then edges[pair].bytes else 0
  }

  ghost function EdgeBytes(edges: Edges): nat {
    Total(edges.Keys, BytesIn(edges))
  }

  function Added(edges: Edges, source: int, destination: int, bytes: nat): Edges {
    var pair := (source, destination);
    var e := if pair in edges then edges[pair] else Edge(0, 0);
    edges[pair := Edge(e.bytes + bytes, e.messages + 1)]
  }

  lemma AddedBytes(edges: Edges, source: int, destination: int, bytes: nat)
    ensures EdgeBytes(Added(edges, source, destination, bytes)) == EdgeBytes(edges) + bytes
  {
    var pair := (source, destination);
    var edges' := Added(edges, source, destination, bytes);
    var rest := edges'.Keys - {pair};
    TotalRemove(edges'.Keys, BytesIn(edges'), pair);
    TotalCongruent(rest, BytesIn(edges'), BytesIn(edges));
    if pair in edges {
      TotalRemove(edges.Keys, BytesIn(edges), pair);
      assert edges.Keys - {pair} == rest;
    } else {
      assert edges.Keys == rest;
    }
  }

  /** Bytes and messages of the lines of one file that count as traffic to one rank. */
  function TrafficTo(lines: seq<Line>, rank: nat, last: int, world: nat, destination: int): (e: Edge)
    decreases |lines|
  {
    if lines == [] then Edge(0, 0)
    else
      var rest := TrafficTo(lines[1..], rank, NextLast(lines[0], rank, last), world, destination);
      if Judge(lines[0], rank, last, world) == Sent && lines[0].event.peer == destination
      then Edge(lines[0].event.bytes + rest.bytes, 1 + rest.messages)
      else rest
  }

  function EdgeAt(edges: Edges, source: int, destination: int): Edge {
    if (source, destination) in edges then edges[(source, destination)] else Edge(0, 0)
  }

  function Plus(x: Edge, y: Edge): Edge {
    Edge(x.bytes + y.bytes, x.messages + y.messages)
  }

  /** Every edge from the rank grows by the traffic of the lines, and no other edge changes. */
  ghost predicate Grown(edges: Edges, result: Edges, lines: seq<Line>, rank: nat, last: int, world: nat) {
    forall s, d ::
      EdgeAt(result, s, d) == if s == rank then Plus(EdgeAt(edges, s, d), TrafficTo(lines, rank, last, world, d)) else EdgeAt(edges, s, d)
  }

  lemma GrownFirst(edges: Edges, result: Edges, lines: seq<Line>, rank: nat, last: int, world: nat)
    requires lines != []
    requires var first := lines[0];
             var next := if Judge(first, rank, last, world) == Sent then Added(edges, rank, first.event.peer, first.event.bytes) else edges;
             Grown(next, result, lines[1..], rank, NextLast(first, rank, last), world)
    ensures Grown(edges, result, lines, rank, last, world)
  {
  }

  /** Reads one event file and adds its traffic to the edges, line by line. */
  method LoadFile(edges: Edges, lines: seq<Line>, rank: nat, world: nat) returns (result: Edges)
    ensures EdgeBytes(result) == EdgeBytes(edges) + Traffic(lines, rank, -1, world)
    ensures Grown(edges, result, lines, rank, -1, world)
  {
    result := edges;
    var last, i := -1, 0;
    while i < |lines|
      invariant 0 <= i <= |lines|
      invariant EdgeBytes(result) + Traffic(lines[i..], rank, last, world) == EdgeBytes(edges) + Traffic(lines, rank, -1, world)
      invariant forall r :: Grown(result, r, lines[i..], rank, last, world) ==> Grown(edges, r, lines, rank, -1, world)
    {
      var line := lines[i];
      assert lines[i..][0] == line && lines[i..][1..] == lines[i + 1..];
      ghost var before, was := result, last;
      if Judge(line, rank, last, world) == Sent {
        AddedBytes(result, rank, line.event.peer, line.event.bytes);
        result := Added(result, rank, line.event.peer, line.event.bytes);
      }
      last := NextLast(line, rank, last);
      forall r | Grown(result, r, lines[i + 1..], rank, last, world)
        ensures Grown(before, r, lines[i..], rank, was, world)
      {
        GrownFirst(before, r, lines[i..], rank, was, world);
      }
      i := i + 1;
    }
    assert Grown(result, result, lines[i..], rank, last, world);
  }

  // The timeline of calls.

  datatype Bucket = Bucket(calls: nat, duration: nat)

  /** A line that is in order and reports no error counts as a call, whatever its peer. */
  predicate Counts(line: Line, rank: nat, last: int) {
    InSequence(line, rank, last) && KindFits(line) && line.event.error == 0
  }

  function BucketOf(timestamp: nat, runtime: nat): (b: nat)
    ensures b < 50
  {
    Min(49, timestamp * 50 / Max(runtime, 1))
  }

  /** Calls and time of the lines of one file that fall into one bucket. */
  function Within(lines: seq<Line>, rank: nat, last: int, runtime: nat, b: nat): Bucket
    decreases |lines|
  {
    if lines == [] then Bucket(0, 0)
    else
      var rest := Within(lines[1..], rank, NextLast(lines[0], rank, last), runtime, b);
      if Counts(lines[0], rank, last) && BucketOf(lines[0].event.timestamp, runtime) == b
      then Bucket(1 + rest.calls, lines[0].event.duration + rest.duration)
      else rest
  }

  function Sum(x: Bucket, y: Bucket): Bucket {
    Bucket(x.calls + y.calls, x.duration + y.duration)
  }

  /** Adds the calls of one file to the timeline: each bucket grows by exactly what falls into it. */
  method FillTimeline(timeline: array<Bucket>, lines: seq<Line>, rank: nat, runtime: nat)
    requires timeline.Length == 50
    modifies timeline
    ensures forall b :: 0 <= b < 50 ==> timeline[b] == Sum(old(timeline[b]), Within(lines, rank, -1, runtime, b))
  {
    var last, i := -1, 0;
    while i < |lines|
      invariant 0 <= i <= |lines|
      invariant forall b :: 0 <= b < 50 ==>
        Sum(timeline[b], Within(lines[i..], rank, last, runtime, b)) == Sum(old(timeline[b]), Within(lines, rank, -1, runtime, b))
    {
      var line := lines[i];
      assert lines[i..][0] == line && lines[i..][1..] == lines[i + 1..];
      if Counts(line, rank, last) {
        var b := BucketOf(line.event.timestamp, runtime);
        timeline[b] := Bucket(timeline[b].calls + 1, timeline[b].duration + line.event.duration);
      }
      last := NextLast(line, rank, last);
      i := i + 1;
    }
  }
}
