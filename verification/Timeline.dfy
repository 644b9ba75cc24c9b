/** Allocation intervals derived from the observations of one scheduler job. */
module Timeline {
  import opened Prelude

  datatype JobState = JobPending | Running | Completing | Succeeded | JobFailed | Cancelled | Preempted | TimedOut | Unknown

  datatype Resources = Resources(nodes: Option<nat>, cpus: Option<nat>, partition: Option<string>)

  datatype Observation = Observation(
    identity: string, job: string, observedAt: int, state: JobState, startedAt: Option<int>, endedAt: Option<int>, resources: Resources)

  datatype Interval = Interval(start: int, end: Option<int>, resources: Resources)

  datatype Reason =
    | NonMonotonicObservation | MissingAllocationSize | InvalidTerminalInterval | NoObservedAllocation
    | MissingSchedulerStart | MissingSchedulerEnd | AttemptNotTerminal | PollSampled

  datatype Allocation = Allocation(
    identity: string, job: string, latestState: JobState, latestAt: int, reasons: set<Reason>, intervals: seq<Interval>)

  datatype Outcome = Derived(value: Allocation) | Refused(error: string)

  predicate Terminal(s: JobState) {
    s in {Succeeded, JobFailed, Cancelled, Preempted, TimedOut}
  }

  predicate Active(s: JobState) {
    s == Running || s == Completing
  }

  predicate Sized(r: Resources) {
    r.nodes.Some? || r.cpus.Some?
  }

  predicate CanOpen(o: Observation) {
    Active(o.state) || (Terminal(o.state) && o.startedAt.Some?)
  }

  // Ordering by observation time; observations of the same time keep their order.

  predicate InTime(rows: seq<Observation>) {
    forall i, j :: 0 <= i < j < |rows| ==> rows[i].observedAt <= rows[j].observedAt
  }

  function Insert(o: Observation, rows: seq<Observation>): (r: seq<Observation>)
    requires InTime(rows)
    ensures InTime(r) && multiset(r) == multiset(rows) + multiset{o} && |r| == |rows| + 1
    ensures forall i :: 0 <= i < |r| ==> r[i] == o || r[i] in rows
  {
    if rows == [] || rows[|rows| - 1].observedAt <= o.observedAt then rows + [o]
    else
      var last, init := rows[|rows| - 1], rows[..|rows| - 1];
      assert rows == init + [last];
      var r := Insert(o, init);
      assert forall i :: 0 <= i < |r| ==> r[i].observedAt <= last.observedAt;
      r + [last]
  }

  function Ordered(rows: seq<Observation>): (r: seq<Observation>)
    ensures InTime(r) && multiset(r) == multiset(rows) && |r| == |rows|
  {
    if rows == [] then []
    else
      assert rows == rows[..|rows| - 1] + [rows[|rows| - 1]];
      Insert(rows[|rows| - 1], Ordered(rows[..|rows| - 1]))
  }

  predicate DistinctTimes(rows: seq<Observation>) {
    forall x, y :: x in multiset(rows) && y in multiset(rows) && x.observedAt == y.observedAt ==> x == y
  }

  lemma InitOf(rows: seq<Observation>)
    requires rows != []
    ensures var n := |rows| - 1;
            rows == rows[..n] + [rows[n]] && multiset(rows[..n]) == multiset(rows) - multiset{rows[n]} && rows[n] in multiset(rows)
  {
    var n := |rows| - 1;
    assert rows == rows[..n] + [rows[n]];
  }

  lemma SameLast(x: seq<Observation>, y: seq<Observation>)
    requires InTime(x) && InTime(y) && multiset(x) == multiset(y) && DistinctTimes(x) && x != [] && y != []
    ensures x[|x| - 1] == y[|y| - 1]
  {
    InitOf(x);
    InitOf(y);
    LastIsLatest(x, y[|y| - 1]);
    LastIsLatest(y, x[|x| - 1]);
  }

  lemma InTimePrefix(rows: seq<Observation>, n: nat)
    requires InTime(rows) && n <= |rows|
    ensures InTime(rows[..n])
  {
  }

  lemma DistinctInit(rows: seq<Observation>)
    requires rows != [] && DistinctTimes(rows)
    ensures DistinctTimes(rows[..|rows| - 1])
  {
    InitOf(rows);
  }

  /** Rows in order are determined by which rows they are, where times tell them apart. */
  lemma {:induction false} InTimeUnique(x: seq<Observation>, y: seq<Observation>)
    requires InTime(x) && InTime(y) && multiset(x) == multiset(y) && DistinctTimes(x)
    ensures x == y
    decreases |x|
  {
    assert |x| == |multiset(x)| && |y| == |multiset(y)|;
    if x != [] {
      var n := |x| - 1;
      SameLast(x, y);
      InitOf(x);
      InitOf(y);
      DistinctInit(x);
      InTimePrefix(x, n);
      InTimePrefix(y, n);
      InTimeUnique(x[..n], y[..n]);
    }
  }

  lemma LastIsLatest(rows: seq<Observation>, o: Observation)
    requires InTime(rows) && o in multiset(rows) && rows != []
    ensures o.observedAt <= rows[|rows| - 1].observedAt
  {
    var i :| 0 <= i < |rows| && rows[i] == o;
  }

  // One observation after another.

  datatype Draft = Draft(current: Option<Interval>, intervals: seq<Interval>, reasons: set<Reason>)

  function Closed(i: Interval, end: int): Interval {
    i.(end := Some(end))
  }

  /** When an allocation that an observation opens began. */
  function StartOf(o: Observation): int {
    if o.startedAt.Some? then o.startedAt.value else o.observedAt
  }

  /** When a terminal observation says that the allocation ended. */
  function BoundaryOf(o: Observation): int {
    if o.endedAt.Some? then o.endedAt.value else o.observedAt
  }

  /** A running allocation opens, or changes its resources. */
  function Opened(d: Draft, o: Observation): Draft {
    if d.current.None? then
      if CanOpen(o) && Sized(o.resources) then d.(current := Some(Interval(StartOf(o), None, o.resources))) else d
    else if Active(o.state) && Sized(o.resources) && o.resources != d.current.value.resources then
      if o.observedAt >= d.current.value.start then
        d.(current := Some(Interval(o.observedAt, None, o.resources)), intervals := d.intervals + [Closed(d.current.value, o.observedAt)])
      else d.(reasons := d.reasons + {NonMonotonicObservation})
    else d
  }

  /** A terminal observation closes the allocation, unless it would end before it began. */
  function Ended(d: Draft, o: Observation): Draft {
    if !Terminal(o.state) || d.current.None? then d
    else
      if BoundaryOf(o) >= d.current.value.start then
        d.(current := None, intervals := d.intervals + [Closed(d.current.value, BoundaryOf(o))])
      else d.(current := None, reasons := d.reasons + {InvalidTerminalInterval})
  }

  function Noted(d: Draft, o: Observation): Draft {
    if CanOpen(o) && !Sized(o.resources) then d.(reasons := d.reasons + {MissingAllocationSize}) else d
  }

  function Extended(d: Draft, o: Observation): Draft {
    Ended(Noted(Opened(d, o), o), o)
  }

  function Drafted(rows: seq<Observation>): Draft {
    if rows == [] then Draft(None, [], {})
    else Extended(Drafted(rows[..|rows| - 1]), rows[|rows| - 1])
  }

  function IntervalsOf(d: Draft): seq<Interval> {
    if d.current.Some? then d.intervals + [d.current.value] else d.intervals
  }

  predicate Uniform(rows: seq<Observation>) {
    forall i :: 0 <= i < |rows| ==> rows[i].identity == rows[0].identity
  }

  function ReasonsOf(d: Draft, rows: seq<Observation>): set<Reason>
    requires rows != []
  {
    var latest := rows[|rows| - 1];
    d.reasons
    + (if IntervalsOf(d) == [] then {NoObservedAllocation} else {PollSampled})
    + (if exists i :: 0 <= i < |rows| && rows[i].startedAt.Some? then {} else {MissingSchedulerStart})
    + (if Terminal(latest.state) && latest.endedAt.None? then {MissingSchedulerEnd} else {})
    + (if Terminal(latest.state) then {} else {AttemptNotTerminal})
  }

  ghost function AllocationOf(rows: seq<Observation>): Allocation
    requires rows != []
  {
    var d, latest := Drafted(rows), rows[|rows| - 1];
    Allocation(rows[0].identity, latest.job, latest.state, latest.observedAt, ReasonsOf(d, rows), IntervalsOf(d))
  }

  /** What one observation does to the interval in progress. */
  method Extend(d: Draft, row: Observation) returns (r: Draft)
    ensures r == Extended(d, row)
  {
    var current, intervals, reasons := d.current, d.intervals, d.reasons;
    if current.None? && CanOpen(row) && Sized(row.resources) {
      current := Some(Interval(if row.startedAt.Some? then row.startedAt.value else row.observedAt, None, row.resources));
    } else if current.Some? && Active(row.state) {
      if Sized(row.resources) && row.resources != current.value.resources {
        if row.observedAt >= current.value.start {
          intervals := intervals + [current.value.(end := Some(row.observedAt))];
          current := Some(Interval(row.observedAt, None, row.resources));
        } else {
          reasons := reasons + {NonMonotonicObservation};
        }
      }
    }
    if CanOpen(row) && !Sized(row.resources) {
      reasons := reasons + {MissingAllocationSize};
    }
    if Terminal(row.state) && current.Some? {
      var boundary := if row.endedAt.Some? then row.endedAt.value else row.observedAt;
      if boundary >= current.value.start {
        intervals := intervals + [current.value.(end := Some(boundary))];
      } else {
        reasons := reasons + {InvalidTerminalInterval};
      }
      current := None;
    }
    r := Draft(current, intervals, reasons);
  }

  method Draw(ordered: seq<Observation>) returns (d: Draft)
    ensures d == Drafted(ordered)
  {
    d := Draft(None, [], {});
    for n := 0 to |ordered|
      invariant d == Drafted(ordered[..n])
    {
      assert ordered[..n + 1][..n] == ordered[..n];
      d := Extend(d, ordered[n]);
    }
    assert ordered[..|ordered|] == ordered;
  }

  /** Derives the intervals from the observations in the order of their times. */
  method Derive(observations: seq<Observation>) returns (r: Outcome)
    ensures r.Derived? <==> observations != [] && Uniform(observations)
    ensures r.Derived? ==> r.value == AllocationOf(Ordered(observations))
  {
    var ordered := Ordered(observations);
    UniformAnyOrder(observations, ordered);
    if ordered == [] {
      r := Refused("at least one scheduler observation is required");
    } else if !Uniform(ordered) {
      r := Refused("observations must belong to one scheduler source identity");
    } else {
      var d := Draw(ordered);
      var latest := ordered[|ordered| - 1];
      r := Derived(Allocation(
        ordered[0].identity, latest.job, latest.state, latest.observedAt, ReasonsOf(d, ordered), IntervalsOf(d)));
    }
  }

  lemma UniformAnyOrder(x: seq<Observation>, y: seq<Observation>)
    requires multiset(x) == multiset(y)
    ensures Uniform(x) <==> Uniform(y)
  {
    if Uniform(x) {
      UniformInOrder(x, y);
    }
    if Uniform(y) {
      UniformInOrder(y, x);
    }
  }

  lemma UniformInOrder(x: seq<Observation>, y: seq<Observation>)
    requires multiset(x) == multiset(y) && Uniform(x)
    ensures Uniform(y)
  {
    forall i | 0 <= i < |y|
      ensures y[i].identity == y[0].identity
    {
      assert y[i] in multiset(x) && y[0] in multiset(x);
    }
  }

  // Every timeline is well formed.

  predicate ClosedWell(i: Interval) {
    i.end.Some? && i.start <= i.end.value
  }

  ghost predicate Tidy(d: Draft) {
    (forall i :: 0 <= i < |d.intervals| ==> ClosedWell(d.intervals[i])) && (d.current.Some? ==> d.current.value.end.None?)
  }

  lemma {:induction false} DraftedTidy(rows: seq<Observation>)
    ensures Tidy(Drafted(rows))
    ensures rows != [] && Terminal(rows[|rows| - 1].state) ==> Drafted(rows).current.None?
    decreases |rows|
  {
    if rows != [] {
      DraftedTidy(rows[..|rows| - 1]);
    }
  }

  /** All intervals but the last are closed and end after they start; the last is open only for a job still going. */
  lemma TimelinesAreWellFormed(rows: seq<Observation>, i: nat)
    requires rows != [] && i < |AllocationOf(rows).intervals|
    ensures var a := AllocationOf(rows);
            ClosedWell(a.intervals[i]) || (i == |a.intervals| - 1 && a.intervals[i].end.None? && !Terminal(a.latestState))
  {
    DraftedTidy(rows);
  }

  /** The order in which observations arrive does not matter if no two have the same time. */
  lemma OrderDoesNotMatter(x: seq<Observation>, y: seq<Observation>)
    requires multiset(x) == multiset(y) && DistinctTimes(x)
    ensures Ordered(x) == Ordered(y)
  {
    InTimeUnique(Ordered(x), Ordered(y));
  }
}
