/**
 The recorder satisfies the analyzer: whatever calls are recorded and however the writer's steps fall
 between them, summaries and event files are accepted, and traffic never exceeds the bytes sent.
 */
module Capture {
  import opened Prelude
  import opened Telemetry
  import opened Recorder
  import A = Analyzer

  // Runs of the recorder: records interleave with the three steps of the writer.

  datatype Step = Record(event: Event) | Swap | WriteOne | Count

  datatype State = State(tally: Tally, trace: Trace)

  datatype Config = Config(rank: nat, worldSize: nat, capacity: nat, limit: nat, tracing: bool)

  ghost predicate Good(c: Config, s: State) {
    Honest(s.tally, s.trace, c.capacity, c.limit)
  }

  /** The writer takes over only an empty buffer, and counts only what it has written. */
  ghost function Apply(c: Config, s: State, step: Step): State
    requires Good(c, s)
  {
    match step
    case Record(e) =>
      RecordedHonest(s.tally, s.trace, c.capacity, c.limit, e, c.tracing);
      State(
        Counted(s.tally, IndexOf(e.operation), e.duration, e.bytes, e.error),
        if c.tracing then Accepted(s.trace, e, c.capacity, c.limit) else s.trace)
    case Swap => if s.trace.staging == [] then s.(trace := Swapped(s.trace)) else s
    case WriteOne => s.(trace := WroteNext(s.trace))
    case Count => if s.trace.out == |s.trace.staging| then s.(trace := Cleared(s.trace)) else s
  }

  lemma StepGood(c: Config, s: State, step: Step)
    requires Good(c, s)
    ensures Good(c, Apply(c, s, step))
  {
    match step {
      case Record(e) => RecordedHonest(s.tally, s.trace, c.capacity, c.limit, e, c.tracing);
      case Swap => if s.trace.staging == [] { SwappedOrderly(s.trace, c.capacity, c.limit); }
      case WriteOne => WroteNextOrderly(s.trace, c.capacity, c.limit);
      case Count => if s.trace.out == |s.trace.staging| { ClearedOrderly(s.trace, c.capacity, c.limit); }
    }
  }

  function NothingYet(n: nat): (operations: seq<Stats>)
    ensures |operations| == n && forall i :: 0 <= i < n ==> operations[i] == Stats(0, 0, 0)
  {
    if n == 0 then [] else NothingYet(n - 1) + [Stats(0, 0, 0)]
  }

  function Start(): State {
    State(Tally(NothingYet(33), 0, 0, 0, 0, 0, 0), Trace([], [], 0, [], 0, 0, 0, 0))
  }

  lemma StartGood(c: Config)
    ensures Good(c, Start())
  {
    NoCalls(NothingYet(33), ApiCall, 33);
    NoCalls(NothingYet(33), RequestCompletion, 33);
  }

  /** Where a run leads; every sequence of steps leads somewhere, and counters and buffers agree there. */
  ghost function After(c: Config, run: seq<Step>): (s: State)
    ensures Good(c, s)
    decreases |run|
  {
    if run == [] then
      StartGood(c);
      Start()
    else
      var s := After(c, run[..|run| - 1]);
      StepGood(c, s, run[|run| - 1]);
      Apply(c, s, run[|run| - 1])
  }

  // Summaries.

  lemma {:induction false} TableNames(operations: seq<Stats>, n: nat, name: string)
    requires n <= |operations| && name in Table(operations, n)
    ensures exists i :: 0 <= i < n && NameOf(i) == name
  {
    if name != NameOf(n - 1) {
      TableNames(operations, n - 1, name);
    }
  }

  lemma NameIsNew(operations: seq<Stats>, n: nat)
    requires n < |operations| == 33
    ensures NameOf(n) !in Table(operations, n)
  {
    if NameOf(n) in Table(operations, n) {
      TableNames(operations, n, NameOf(n));
      var i :| 0 <= i < n && NameOf(i) == NameOf(n);
      NamesAreDistinct(i, n);
    }
  }

  lemma RowAdds(rest: map<string, Entry>, name: string, e: Entry, kind: Kind)
    requires name !in rest
    ensures A.TotalCalls(rest[name := e], kind) == A.TotalCalls(rest, kind) + if e.kind == kind then e.stats.calls else 0
  {
    var table := rest[name := e];
    TotalRemove(table.Keys, A.CallsIn(table, kind), name);
    assert table.Keys - {name} == rest.Keys;
    TotalCongruent(rest.Keys, A.CallsIn(table, kind), A.CallsIn(rest, kind));
  }

  lemma {:induction false} TableCalls(operations: seq<Stats>, kind: Kind, n: nat)
    requires n <= |operations| == 33
    ensures A.TotalCalls(Table(operations, n), kind) == CallsOf(operations, kind, n)
  {
    if n > 0 {
      TableCalls(operations, kind, n - 1);
      NameIsNew(operations, n - 1);
      RowAdds(Table(operations, n - 1), NameOf(n - 1), Entry(operations[n - 1], KindOf(n - 1)), kind);
    }
  }

  /** Every snapshot passes the analyzer's cross-checks, at whatever moment it is taken. */
  lemma SnapshotsAreAccepted(c: Config, run: seq<Step>, complete: bool, state: CaptureState, code: nat)
    requires c.rank < c.worldSize
    ensures A.Acceptable(SummaryOf(After(c, run).tally, c.rank, c.worldSize, complete, state, code))
  {
    var s := After(c, run);
    TableCalls(s.tally.operations, ApiCall, 33);
    TableCalls(s.tally.operations, RequestCompletion, 33);
  }

  /** Every number issued belongs to an event that is written, buffered or dropped. */
  lemma EveryNumberIsAccountedFor(c: Config, run: seq<Step>)
    ensures var t := After(c, run).trace;
            t.issued == |t.file| + (|t.staging| - t.out) + |t.active| + t.dropped
  {
    var s := After(c, run);
  }

  // Event files.

  function Lines(events: seq<Event>, rank: nat): (lines: seq<Line>)
    ensures |lines| == |events| && forall i :: 0 <= i < |events| ==> lines[i] == LineOf(events[i], rank)
  {
    seq(|events|, i requires 0 <= i < |events| => LineOf(events[i], rank))
  }

  /** The number the analyzer remembers when it comes to line `i`. */
  function LastBefore(events: seq<Event>, i: nat): int
    requires i <= |events|
  {
    if i == 0 then -1 else events[i - 1].sequence
  }

  /** Schema, rank and sequence of every line are in order; its kind fits exactly if its name tells it. */
  lemma LinesAreAccepted(c: Config, run: seq<Step>, i: nat)
    requires i < |After(c, run).trace.file|
    ensures var file := After(c, run).trace.file;
            var line, last := Lines(file, c.rank)[i], LastBefore(file, i);
            && A.InSequence(line, c.rank, last)
            && A.NextLast(line, c.rank, last) == LastBefore(file, i + 1)
            && (A.KindFits(line) <==> Tellable(line.event.operation))
  {
    var s := After(c, run);
    FileIncreasing(s.trace);
    TellableExactly(s.trace.file[i].operation);
  }

  lemma FileIncreasing(t: Trace)
    requires t.out <= |t.staging| && Increasing(InFlight(t), t.issued)
    ensures Increasing(t.file, t.issued)
  {
    assert forall i :: 0 <= i < |t.file| ==> t.file[i] == InFlight(t)[i];
  }

  // Traffic.

  lemma {:induction false} TrafficIsSent(events: seq<Event>, rank: nat, last: int, world: nat)
    ensures A.Traffic(Lines(events, rank), rank, last, world) <= SentBytes(events)
    decreases |events|
  {
    if events != [] {
      var lines := Lines(events, rank);
      assert lines[1..] == Lines(events[1..], rank);
      assert events == [events[0]] + events[1..];
      SentBytesJoin([events[0]], events[1..]);
      assert SentBytes([events[0]]) == SentIn(events[0]);
      TrafficIsSent(events[1..], rank, A.NextLast(lines[0], rank, last), world);
    }
  }

  /** The traffic read from a rank's file is among the bytes that a summary taken then reports as sent. */
  lemma TrafficIsCounted(c: Config, run: seq<Step>)
    ensures var s := After(c, run); A.Traffic(Lines(s.trace.file, c.rank), c.rank, -1, c.worldSize) <= s.tally.sent
  {
    var s := After(c, run);
    FileCovered(s.trace, s.tally.sent);
    TrafficIsSent(s.trace.file, c.rank, -1, c.worldSize);
  }

  /** What one rank leaves behind: its event file and its last summary. */
  datatype RankFiles = RankFiles(rank: nat, lines: seq<Line>, summary: Summary)

  /** The files of a rank whose writer has stopped and whose summary was taken last. */
  ghost predicate Left(files: RankFiles, world: nat) {
    exists c: Config, run, state, code :: c.worldSize == world && files == FilesOf(c, After(c, run), state, code)
  }

  function FilesOf(c: Config, s: State, state: CaptureState, code: nat): RankFiles {
    RankFiles(c.rank, Lines(s.trace.file, c.rank), SummaryOf(s.tally, c.rank, c.worldSize, code == 0, state, code))
  }

  lemma FilesAreBounded(ranks: seq<RankFiles>, world: nat)
    requires forall i :: 0 <= i < |ranks| ==> Left(ranks[i], world)
    ensures Bounded(ranks, world)
  {
    forall i | 0 <= i < |ranks|
      ensures A.Traffic(ranks[i].lines, ranks[i].rank, -1, world) <= ranks[i].summary.sent
    {
      assert Left(ranks[i], world);
      var c: Config, run, state, code :| c.worldSize == world && ranks[i] == FilesOf(c, After(c, run), state, code);
      TrafficIsCounted(c, run);
    }
  }

  function TotalSent(ranks: seq<RankFiles>): nat {
    if ranks == [] then 0 else TotalSent(ranks[..|ranks| - 1]) + ranks[|ranks| - 1].summary.sent
  }

  ghost predicate Bounded(ranks: seq<RankFiles>, world: nat) {
    forall i :: 0 <= i < |ranks| ==> A.Traffic(ranks[i].lines, ranks[i].rank, -1, world) <= ranks[i].summary.sent
  }

  function TotalTraffic(ranks: seq<RankFiles>, world: nat): nat {
    if ranks == [] then 0
    else
      var r := ranks[|ranks| - 1];
      TotalTraffic(ranks[..|ranks| - 1], world) + A.Traffic(r.lines, r.rank, -1, world)
  }

  /** Traffic from one rank to another in the files of the first. */
  function Between(ranks: seq<RankFiles>, world: nat, source: int, destination: int): A.Edge {
    if ranks == [] then A.Edge(0, 0)
    else
      var r, before := ranks[|ranks| - 1], Between(ranks[..|ranks| - 1], world, source, destination);
      if source == r.rank then A.Plus(before, A.TrafficTo(r.lines, r.rank, -1, world, destination)) else before
  }

  /** Adds up the traffic of all ranks, edge by edge, whatever their files hold. */
  method LoadEdges(ranks: seq<RankFiles>, world: nat) returns (edges: A.Edges)
    ensures A.EdgeBytes(edges) == TotalTraffic(ranks, world)
    ensures forall s, d :: A.EdgeAt(edges, s, d) == Between(ranks, world, s, d)
  {
    edges := map[];
    for i := 0 to |ranks|
      invariant A.EdgeBytes(edges) == TotalTraffic(ranks[..i], world)
      invariant forall s, d :: A.EdgeAt(edges, s, d) == Between(ranks[..i], world, s, d)
    {
      ghost var before := edges;
      edges := A.LoadFile(edges, ranks[i].lines, ranks[i].rank, world);
      assert ranks[..i + 1][..i] == ranks[..i];
      forall s, d
        ensures A.EdgeAt(edges, s, d) == Between(ranks[..i + 1], world, s, d)
      {
        assert A.EdgeAt(before, s, d) == Between(ranks[..i], world, s, d);
      }
    }
    assert ranks[..|ranks|] == ranks;
  }

  lemma {:induction false} TrafficIsBounded(ranks: seq<RankFiles>, world: nat)
    requires Bounded(ranks, world)
    ensures TotalTraffic(ranks, world) <= TotalSent(ranks)
    decreases |ranks|
  {
    if ranks != [] {
      TrafficIsBounded(ranks[..|ranks| - 1], world);
    }
  }

  /** An edge's share of the traffic; with nothing sent the analyzer divides by one. */
  function Share(bytes: nat, total: nat): real {
    bytes as real / (if total == 0 then 1 else total) as real
  }

  ghost function Shares(pairs: set<(int, int)>, bytes: ((int, int)) -> nat, total: nat): real {
    if pairs == {} then 0.0 else
    var p :| p in pairs;
    Share(bytes(p), total) + Shares(pairs - {p}, bytes, total)
  }

  lemma {:induction false} SharesAddUp(pairs: set<(int, int)>, bytes: ((int, int)) -> nat, total: nat)
    ensures Shares(pairs, bytes, total) == Share(Total(pairs, bytes), total)
    decreases pairs
  {
    if pairs != {} {
      var p :| p in pairs && Shares(pairs, bytes, total) == Share(bytes(p), total) + Shares(pairs - {p}, bytes, total);
      SharesAddUp(pairs - {p}, bytes, total);
      TotalRemove(pairs, bytes, p);
      ShareAdds(bytes(p), Total(pairs - {p}, bytes), total);
    }
  }

  lemma ShareAdds(x: nat, y: nat, total: nat)
    ensures Share(x, total) + Share(y, total) == Share(x + y, total)
  {
    var d := (if total == 0 then 1 else total) as real;
    assert (x + y) as real == x as real + y as real;
    assert (x as real + y as real) / d == x as real / d + y as real / d;
  }

  /** Over the files that recorders leave, the shares of all edges add up to at most one. */
  lemma SharesAreAtMostOne(ranks: seq<RankFiles>, world: nat, edges: A.Edges)
    requires forall i :: 0 <= i < |ranks| ==> Left(ranks[i], world)
    requires A.EdgeBytes(edges) == TotalTraffic(ranks, world)
    ensures A.EdgeBytes(edges) <= TotalSent(ranks)
    ensures Shares(edges.Keys, A.BytesIn(edges), TotalSent(ranks)) <= 1.0
  {
    FilesAreBounded(ranks, world);
    TrafficIsBounded(ranks, world);
    var total := TotalSent(ranks);
    SharesAddUp(edges.Keys, A.BytesIn(edges), total);
    AtMostWhole(A.EdgeBytes(edges) as real, (if total == 0 then 1 else total) as real);
  }

  lemma AtMostWhole(x: real, d: real)
    requires 0.0 < d && x <= d
    ensures x / d <= 1.0
  {
  }
}
