/** What a derived timeline shows of a job, and which gaps in the evidence it admits. */
module Coverage {
  import opened Prelude
  import opened Timeline

  // The order of the observations.

  /** The observations made at one time. */
  function At(rows: seq<Observation>, time: int): seq<Observation> {
    if rows == [] then [] else
    var last := rows[|rows| - 1];
    At(rows[..|rows| - 1], time) + if last.observedAt == time then [last] else []
  }

  lemma AtOne(rows: seq<Observation>, o: Observation, time: int)
    ensures At(rows + [o], time) == At(rows, time) + if o.observedAt == time then [o] else []
  {
    assert (rows + [o])[..|rows|] == rows;
  }

  lemma {:induction false} InsertIsStable(o: Observation, rows: seq<Observation>, time: int)
    requires InTime(rows)
    ensures At(Insert(o, rows), time) == At(rows, time) + if o.observedAt == time then [o] else []
    decreases |rows|
  {
    if rows == [] || rows[|rows| - 1].observedAt <= o.observedAt {
      InsertedLast(o, rows);
      AtOne(rows, o, time);
    } else {
      var init, last := rows[..|rows| - 1], rows[|rows| - 1];
      InsertedFirst(o, rows);
      InsertIsStable(o, init, time);
      AddedBefore(Insert(o, init), init, o, last, rows, time);
    }
  }

  lemma InsertedLast(o: Observation, rows: seq<Observation>)
    requires InTime(rows) && (rows == [] || rows[|rows| - 1].observedAt <= o.observedAt)
    ensures Insert(o, rows) == rows + [o]
  {
  }

  lemma InsertedFirst(o: Observation, rows: seq<Observation>)
    requires InTime(rows) && rows != [] && o.observedAt < rows[|rows| - 1].observedAt
    ensures InTime(rows[..|rows| - 1]) && Insert(o, rows) == Insert(o, rows[..|rows| - 1]) + [rows[|rows| - 1]]
  {
  }

  /** What is added before the last row is added before what the last row adds. */
  lemma AddedBefore(
    early: seq<Observation>, init: seq<Observation>, o: Observation, last: Observation, rows: seq<Observation>, time: int)
    requires o.observedAt < last.observedAt && rows == init + [last]
    requires At(early, time) == At(init, time) + if o.observedAt == time then [o] else []
    ensures At(early + [last], time) == At(rows, time) + if o.observedAt == time then [o] else []
  {
    AtOne(early, last, time);
    AtOne(init, last, time);
  }

  /** Observations made at the same time keep the order in which they are given. */
  lemma {:induction false} SortingIsStable(rows: seq<Observation>, time: int)
    ensures At(Ordered(rows), time) == At(rows, time)
    decreases |rows|
  {
    if rows != [] {
      SortingIsStable(rows[..|rows| - 1], time);
      InsertIsStable(rows[|rows| - 1], Ordered(rows[..|rows| - 1]), time);
    }
  }

  /** The timeline reports the state and the job number that were observed last. */
  lemma ReportsTheLatest(observations: seq<Observation>)
    requires observations != []
    ensures var a := AllocationOf(Ordered(observations));
            && (forall o :: o in multiset(observations) ==> o.observedAt <= a.latestAt)
            && exists o :: o in multiset(observations) && o.observedAt == a.latestAt && o.state == a.latestState && o.job == a.job
  {
    var rows := Ordered(observations);
    assert rows[|rows| - 1] in multiset(rows);
    forall o | o in multiset(observations)
      ensures o.observedAt <= rows[|rows| - 1].observedAt
    {
      LastIsLatest(rows, o);
    }
  }

  // A job as it is usually seen.

  predicate Over(s: JobState) {
    s == Succeeded || s == JobFailed || s == Cancelled || s == Preempted || s == TimedOut
  }

  predicate InUse(s: JobState) {
    s == Running || s == Completing
  }

  predicate Unsized(o: Observation) {
    o.resources.nodes == None && o.resources.cpus == None
  }

  /** Shows no allocation: the job is not in use and does not say when it was, or it does not say what it uses. */
  predicate Idle(o: Observation) {
    (!InUse(o.state) && !(Over(o.state) && o.startedAt.Some?)) || Unsized(o)
  }

  /** Shows nothing new of a job that uses these resources. */
  predicate Steady(o: Observation, resources: Resources) {
    !Over(o.state) && (InUse(o.state) ==> Unsized(o) || o.resources == resources)
  }

  lemma DraftOne(rows: seq<Observation>, o: Observation)
    ensures Drafted(rows + [o]) == Extended(Drafted(rows), o)
  {
    assert (rows + [o])[..|rows|] == rows;
  }

  lemma {:induction false} IdleShowsNothing(rows: seq<Observation>)
    requires forall i :: 0 <= i < |rows| ==> Idle(rows[i])
    ensures Drafted(rows).current == None && Drafted(rows).intervals == []
    decreases |rows|
  {
    if rows != [] {
      IdleShowsNothing(rows[..|rows| - 1]);
    }
  }

  lemma SteadyKeeps(d: Draft, o: Observation)
    requires d.current.Some? && Steady(o, d.current.value.resources)
    ensures Extended(d, o).current == d.current && Extended(d, o).intervals == d.intervals
  {
  }

  lemma {:induction false} SteadyChangesNothing(rows: seq<Observation>, during: seq<Observation>, current: Interval)
    requires Drafted(rows).current == Some(current)
    requires forall i :: 0 <= i < |during| ==> Steady(during[i], current.resources)
    ensures Drafted(rows + during).current == Some(current) && Drafted(rows + during).intervals == Drafted(rows).intervals
    decreases |during|
  {
    if during == [] {
      assert rows + during == rows;
    } else {
      var init, last := during[..|during| - 1], during[|during| - 1];
      SteadyChangesNothing(rows, init, current);
      DraftOne(rows + init, last);
      SteadyKeeps(Drafted(rows + init), last);
      assert rows + init + [last] == rows + during;
    }
  }

  function FirstOf(time: Option<int>, otherwise: int): int {
    if time.Some? then time.value else otherwise
  }

  lemma InProgress(before: seq<Observation>, o: Observation, during: seq<Observation>)
    requires forall i :: 0 <= i < |before| ==> Idle(before[i])
    requires InUse(o.state) && !Unsized(o) && forall i :: 0 <= i < |during| ==> Steady(during[i], o.resources)
    ensures var d := Drafted(before + [o] + during);
            d.intervals == [] && d.current == Some(Interval(FirstOf(o.startedAt, o.observedAt), None, o.resources))
  {
    FirstInUse(before, o);
    SteadyChangesNothing(before + [o], during, Interval(FirstOf(o.startedAt, o.observedAt), None, o.resources));
  }

  lemma FirstInUse(before: seq<Observation>, o: Observation)
    requires forall i :: 0 <= i < |before| ==> Idle(before[i])
    requires InUse(o.state) && !Unsized(o)
    ensures var d := Drafted(before + [o]);
            d.intervals == [] && d.current == Some(Interval(FirstOf(o.startedAt, o.observedAt), None, o.resources))
  {
    IdleShowsNothing(before);
    DraftOne(before, o);
    UseOpens(Drafted(before), o);
  }

  lemma UseOpens(d: Draft, o: Observation)
    requires d.current == None && InUse(o.state) && !Unsized(o)
    ensures Extended(d, o).intervals == d.intervals
    ensures Extended(d, o).current == Some(Interval(FirstOf(o.startedAt, o.observedAt), None, o.resources))
  {
  }

  /** A job seen running and then over, with nothing new in between, has one interval: from its start to its end as far as it tells them. */
  lemma SteadyJobIsOneInterval(before: seq<Observation>, o: Observation, during: seq<Observation>, last: Observation)
    requires forall i :: 0 <= i < |before| ==> Idle(before[i])
    requires InUse(o.state) && !Unsized(o) && forall i :: 0 <= i < |during| ==> Steady(during[i], o.resources)
    requires Over(last.state)
    ensures var start, end := FirstOf(o.startedAt, o.observedAt), FirstOf(last.endedAt, last.observedAt);
            AllocationOf(before + [o] + during + [last]).intervals ==
              if start <= end then [Interval(start, Some(end), o.resources)] else []
  {
    InProgress(before, o, during);
    DraftOne(before + [o] + during, last);
  }

  /** A job seen running, with nothing new since, has one interval that is still open. */
  lemma RunningJobIsOpen(before: seq<Observation>, o: Observation, during: seq<Observation>)
    requires forall i :: 0 <= i < |before| ==> Idle(before[i])
    requires InUse(o.state) && !Unsized(o) && forall i :: 0 <= i < |during| ==> Steady(during[i], o.resources)
    ensures AllocationOf(before + [o] + during).intervals == [Interval(FirstOf(o.startedAt, o.observedAt), None, o.resources)]
  {
    InProgress(before, o, during);
  }

  /** A job whose resources change has an interval for each, which meet where the change was observed. */
  lemma ChangedJobIsTwoIntervals(before: seq<Observation>, o: Observation, during: seq<Observation>, p: Observation)
    requires forall i :: 0 <= i < |before| ==> Idle(before[i])
    requires InUse(o.state) && !Unsized(o) && forall i :: 0 <= i < |during| ==> Steady(during[i], o.resources)
    requires InUse(p.state) && !Unsized(p) && p.resources != o.resources
    ensures var start := FirstOf(o.startedAt, o.observedAt);
            AllocationOf(before + [o] + during + [p]).intervals ==
              if start <= p.observedAt
              then [Interval(start, Some(p.observedAt), o.resources), Interval(p.observedAt, None, p.resources)]
              else [Interval(start, None, o.resources)]
  {
    InProgress(before, o, during);
    DraftOne(before + [o] + during, p);
  }

  /** A job first seen when it is over has one interval exactly if it tells its size and its start. */
  lemma EndedJobIsOneInterval(before: seq<Observation>, last: Observation)
    requires forall i :: 0 <= i < |before| ==> Idle(before[i])
    requires Over(last.state)
    ensures var end := FirstOf(last.endedAt, last.observedAt);
            AllocationOf(before + [last]).intervals ==
              if last.startedAt.Some? && !Unsized(last) && last.startedAt.value <= end
              then [Interval(last.startedAt.value, Some(end), last.resources)] else []
  {
    IdleShowsNothing(before);
    DraftOne(before, last);
  }

  // The gaps a timeline admits.

  /** Changes the resources of an allocation in progress that starts later. */
  predicate Reverses(current: Option<Interval>, o: Observation) {
    InUse(o.state) && !Unsized(o) &&
    current.Some? && current.value.resources != o.resources && o.observedAt < current.value.start
  }

  /** Ends an allocation, in progress or told of by the observation itself, before that starts. */
  predicate Contradicts(current: Option<Interval>, o: Observation) {
    Over(o.state) &&
      if current.Some? then FirstOf(o.endedAt, o.observedAt) < current.value.start
      else o.startedAt.Some? && !Unsized(o) && FirstOf(o.endedAt, o.observedAt) < o.startedAt.value
  }

  /** Shows an allocation without its size. */
  predicate Hides(o: Observation) {
    (InUse(o.state) || (Over(o.state) && o.startedAt.Some?)) && Unsized(o)
  }

  ghost predicate GoesBack(rows: seq<Observation>, n: nat)
    requires n < |rows|
  {
    Reverses(Drafted(rows[..n]).current, rows[n])
  }

  ghost predicate EndsTooEarly(rows: seq<Observation>, n: nat)
    requires n < |rows|
  {
    Contradicts(Drafted(rows[..n]).current, rows[n])
  }

  predicate HidesItsSize(rows: seq<Observation>, n: nat)
    requires n < |rows|
  {
    Hides(rows[n])
  }

  lemma ExtendedReasons(d: Draft, o: Observation)
    ensures Extended(d, o).reasons ==
      d.reasons
      + (if Reverses(d.current, o) then {NonMonotonicObservation} else {})
      + (if Contradicts(d.current, o) then {InvalidTerminalInterval} else {})
      + (if Hides(o) then {MissingAllocationSize} else {})
  {
  }

  /** What one observation adds to the reasons. */
  ghost predicate Adds(rows: seq<Observation>, n: nat, before: set<Reason>, after: set<Reason>)
    requires n < |rows|
  {
    && (NonMonotonicObservation in after <==> NonMonotonicObservation in before || GoesBack(rows, n))
    && (InvalidTerminalInterval in after <==> InvalidTerminalInterval in before || EndsTooEarly(rows, n))
    && (MissingAllocationSize in after <==> MissingAllocationSize in before || HidesItsSize(rows, n))
    && after <= before + {NonMonotonicObservation, InvalidTerminalInterval, MissingAllocationSize}
  }

  lemma ReasonsOfOne(rows: seq<Observation>)
    requires rows != []
    ensures Adds(rows, |rows| - 1, Drafted(rows[..|rows| - 1]).reasons, Drafted(rows).reasons)
  {
    ExtendedReasons(Drafted(rows[..|rows| - 1]), rows[|rows| - 1]);
  }

  ghost predicate SomeGoesBack(rows: seq<Observation>) {
    exists n: nat :: n < |rows| && GoesBack(rows, n)
  }

  ghost predicate SomeEndsTooEarly(rows: seq<Observation>) {
    exists n: nat :: n < |rows| && EndsTooEarly(rows, n)
  }

  ghost predicate SomeHidesItsSize(rows: seq<Observation>) {
    exists n: nat :: n < |rows| && HidesItsSize(rows, n)
  }

  /** What an observation does does not depend on those after it. */
  lemma SamePlace(rows: seq<Observation>, m: nat)
    requires m + 1 < |rows|
    ensures var init := rows[..|rows| - 1];
            && (GoesBack(rows, m) <==> GoesBack(init, m))
            && (EndsTooEarly(rows, m) <==> EndsTooEarly(init, m))
            && (HidesItsSize(rows, m) <==> HidesItsSize(init, m))
  {
    assert rows[..m] == rows[..|rows| - 1][..m];
  }

  lemma BackwardPlaces(rows: seq<Observation>)
    requires rows != []
    ensures SomeGoesBack(rows) <==> SomeGoesBack(rows[..|rows| - 1]) || GoesBack(rows, |rows| - 1)
  {
    var init := rows[..|rows| - 1];
    forall m: nat | m < |init|
      ensures GoesBack(rows, m) <==> GoesBack(init, m)
    {
      SamePlace(rows, m);
    }
  }

  lemma EarlyPlaces(rows: seq<Observation>)
    requires rows != []
    ensures SomeEndsTooEarly(rows) <==> SomeEndsTooEarly(rows[..|rows| - 1]) || EndsTooEarly(rows, |rows| - 1)
  {
    var init := rows[..|rows| - 1];
    forall m: nat | m < |init|
      ensures EndsTooEarly(rows, m) <==> EndsTooEarly(init, m)
    {
      SamePlace(rows, m);
    }
  }

  lemma HidingPlaces(rows: seq<Observation>)
    requires rows != []
    ensures SomeHidesItsSize(rows) <==> SomeHidesItsSize(rows[..|rows| - 1]) || HidesItsSize(rows, |rows| - 1)
  {
    var init := rows[..|rows| - 1];
    forall m: nat | m < |init|
      ensures HidesItsSize(rows, m) <==> HidesItsSize(init, m)
    {
      SamePlace(rows, m);
    }
  }

  ghost predicate ReasonsFit(rows: seq<Observation>, reasons: set<Reason>) {
    && (NonMonotonicObservation in reasons <==> SomeGoesBack(rows))
    && (InvalidTerminalInterval in reasons <==> SomeEndsTooEarly(rows))
    && (MissingAllocationSize in reasons <==> SomeHidesItsSize(rows))
    && reasons <= {NonMonotonicObservation, InvalidTerminalInterval, MissingAllocationSize}
  }

  lemma {:induction false} DraftReasons(rows: seq<Observation>)
    ensures ReasonsFit(rows, Drafted(rows).reasons)
    decreases |rows|
  {
    if rows != [] {
      DraftReasons(rows[..|rows| - 1]);
      ReasonsOfOne(rows);
      ReasonsJoin(rows, Drafted(rows[..|rows| - 1]).reasons, Drafted(rows).reasons);
    }
  }

  lemma ReasonsJoin(rows: seq<Observation>, before: set<Reason>, after: set<Reason>)
    requires rows != [] && ReasonsFit(rows[..|rows| - 1], before) && Adds(rows, |rows| - 1, before, after)
    ensures ReasonsFit(rows, after)
  {
    BackwardPlaces(rows);
    EarlyPlaces(rows);
    HidingPlaces(rows);
  }

  /** Every reason that a timeline gives, and exactly when it gives it. */
  lemma ReasonsExactly(rows: seq<Observation>, reason: Reason)
    requires rows != []
    ensures var last := rows[|rows| - 1];
            reason in AllocationOf(rows).reasons <==>
              match reason
              case NonMonotonicObservation => SomeGoesBack(rows)
              case InvalidTerminalInterval => SomeEndsTooEarly(rows)
              case MissingAllocationSize => SomeHidesItsSize(rows)
              case NoObservedAllocation => AllocationOf(rows).intervals == []
              case PollSampled => AllocationOf(rows).intervals != []
              case MissingSchedulerStart => forall n :: 0 <= n < |rows| ==> rows[n].startedAt == None
              case MissingSchedulerEnd => Over(last.state) && last.endedAt == None
              case AttemptNotTerminal => !Over(last.state)
  {
    DraftReasons(rows);
  }
}
