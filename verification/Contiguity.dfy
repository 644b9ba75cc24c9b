/**
 When the intervals of an allocation timeline join end to start. An interval that is opened after
 another one was closed need not continue it: a job that has ended is observed again with each poll.
 */
module Contiguity {
  import opened Prelude
  import opened Timeline

  predicate Follows(x: Interval, y: Interval) {
    x.end == Some(y.start) && x.resources != y.resources
  }

  /** Each interval begins where the one before ends, with other resources. */
  ghost predicate Contiguous(intervals: seq<Interval>) {
    forall i :: 0 <= i < |intervals| - 1 ==> Follows(intervals[i], intervals[i + 1])
  }

  /** A timeline so far goes on with the next interval, if there is anything to go on from. */
  predicate Continues(intervals: seq<Interval>, next: Interval) {
    intervals != [] ==> Follows(intervals[|intervals| - 1], next)
  }

  lemma AppendContiguous(intervals: seq<Interval>, next: Interval)
    ensures Contiguous(intervals + [next]) <==> Contiguous(intervals) && Continues(intervals, next)
  {
    var x := intervals + [next];
    if Contiguous(x) {
      forall i | 0 <= i < |intervals| - 1
        ensures Follows(intervals[i], intervals[i + 1])
      {
        assert Follows(x[i], x[i + 1]);
      }
      assert intervals != [] ==> Follows(x[|intervals| - 1], x[|intervals|]);
    } else if Contiguous(intervals) && Continues(intervals, next) {
      forall i | 0 <= i < |x| - 1
        ensures Follows(x[i], x[i + 1])
      {
        assert i < |intervals| - 1 ==> Follows(intervals[i], intervals[i + 1]);
      }
    }
  }

  // What the observations say, without deriving anything.

  /** An allocation is running just before observation `k`. */
  predicate InProgress(rows: seq<Observation>, k: nat)
    requires k <= |rows|
  {
    exists j :: 0 <= j < k && Active(rows[j].state) && Sized(rows[j].resources) && NoneTerminal(rows, j, k)
  }

  /** Strictly between two observations the job does not end. */
  predicate NoneTerminal(rows: seq<Observation>, j: int, k: nat)
    requires -1 <= j < k <= |rows|
  {
    forall t :: j < t < k ==> !Terminal(rows[t].state)
  }

  /** Observation `k` finds no running allocation and opens one. */
  predicate Opens(rows: seq<Observation>, k: nat) {
    k < |rows| && !InProgress(rows, k) && CanOpen(rows[k]) && Sized(rows[k].resources)
  }

  function OpenedBy(o: Observation): Interval {
    Interval(StartOf(o), None, o.resources)
  }

  /** An observation that splits the interval opened by `x`. */
  predicate Changes(x: Observation, o: Observation) {
    Active(o.state) && Sized(o.resources) && o.resources != x.resources && o.observedAt >= StartOf(x)
  }

  /** Up to observation `to`, nothing has ended or split the interval opened by `k`. */
  predicate Untouched(rows: seq<Observation>, k: nat, to: nat)
    requires k < |rows| && to <= |rows|
  {
    forall i :: k <= i < to ==> !Terminal(rows[i].state) && (i > k ==> !Changes(rows[k], rows[i]))
  }

  /** The interval opened by `k` is dropped, since it would end before it began. */
  predicate Abandoned(rows: seq<Observation>, k: nat)
    requires k < |rows|
  {
    exists t :: k <= t < |rows| && Untouched(rows, k, t) && Terminal(rows[t].state) && BoundaryOf(rows[t]) < StartOf(rows[k])
  }

  /** Observation `k` opens an interval that is kept, after others were closed. */
  ghost predicate Reopens(rows: seq<Observation>, k: nat) {
    Opens(rows, k) && !Abandoned(rows, k) && IntervalsOf(Drafted(rows[..k])) != []
  }

  /** What an interval opened by `k` must do for the timeline to stay in one piece. */
  ghost predicate JoinsAt(rows: seq<Observation>, k: nat)
    requires k < |rows|
  {
    Continues(IntervalsOf(Drafted(rows[..k])), OpenedBy(rows[k]))
  }

  ghost predicate EveryReopeningJoins(rows: seq<Observation>) {
    forall k :: Reopens(rows, k) ==> JoinsAt(rows, k)
  }

  // The same with one more observation.

  lemma SameProgress(init: seq<Observation>, o: Observation, k: nat)
    requires k <= |init|
    ensures InProgress(init + [o], k) <==> InProgress(init, k)
  {
    var rows := init + [o];
    assert forall i :: 0 <= i < |init| ==> rows[i] == init[i];
    assert forall j :: 0 <= j < k ==> (NoneTerminal(rows, j, k) <==> NoneTerminal(init, j, k));
  }

  lemma OneMoreProgress(init: seq<Observation>, o: Observation)
    ensures InProgress(init + [o], |init| + 1) <==>
              !Terminal(o.state) && (InProgress(init, |init|) || (Active(o.state) && Sized(o.resources)))
  {
    var rows, n := init + [o], |init|;
    assert forall i :: 0 <= i < n ==> rows[i] == init[i];
    assert rows[n] == o && NoneTerminal(rows, n, n + 1);
    forall j | 0 <= j < n
      ensures NoneTerminal(rows, j, n + 1) <==> NoneTerminal(init, j, n) && !Terminal(o.state)
    {
      if NoneTerminal(rows, j, n + 1) {
        assert !Terminal(rows[n].state);
      }
    }
  }

  lemma OneMore(init: seq<Observation>, o: Observation, k: nat)
    requires k < |init|
    ensures Opens(init + [o], k) <==> Opens(init, k)
    ensures JoinsAt(init + [o], k) <==> JoinsAt(init, k)
    ensures IntervalsOf(Drafted((init + [o])[..k])) == IntervalsOf(Drafted(init[..k]))
    ensures Untouched(init + [o], k, |init| + 1) <==>
              Untouched(init, k, |init|) && !Terminal(o.state) && !Changes(init[k], o)
    ensures Abandoned(init + [o], k) <==>
              Abandoned(init, k) || (Untouched(init, k, |init|) && Terminal(o.state) && BoundaryOf(o) < StartOf(init[k]))
  {
    var rows, n := init + [o], |init|;
    assert rows[..k] == init[..k] && forall i :: 0 <= i < n ==> rows[i] == init[i];
    assert forall to :: 0 <= to <= n ==> (Untouched(rows, k, to) <==> Untouched(init, k, to));
    SameProgress(init, o, k);
    if Abandoned(rows, k) {
      var t :| k <= t < |rows| && Untouched(rows, k, t) && Terminal(rows[t].state) && BoundaryOf(rows[t]) < StartOf(rows[k]);
      assert Untouched(init, k, t);
    }
    if Abandoned(init, k) {
      var t :| k <= t < n && Untouched(init, k, t) && Terminal(init[t].state) && BoundaryOf(init[t]) < StartOf(init[k]);
      assert Untouched(rows, k, t);
    }
    if Untouched(init, k, n) && Terminal(o.state) && BoundaryOf(o) < StartOf(init[k]) {
      assert Untouched(rows, k, n) && rows[n] == o;
    }
  }

  lemma {:induction false} CurrentIsInProgress(rows: seq<Observation>)
    ensures Drafted(rows).current.Some? <==> InProgress(rows, |rows|)
    decreases |rows|
  {
    if rows != [] {
      var init, o := rows[..|rows| - 1], rows[|rows| - 1];
      assert rows == init + [o];
      CurrentIsInProgress(init);
      OneMoreProgress(init, o);
    }
  }

  /** While nothing touches it, the interval in progress is the one that was opened. */
  lemma {:induction false} OpenerIsCurrent(rows: seq<Observation>, k: nat)
    requires Opens(rows, k) && Untouched(rows, k, |rows|)
    ensures Drafted(rows).current == Some(OpenedBy(rows[k]))
    decreases |rows|
  {
    var init, o := rows[..|rows| - 1], rows[|rows| - 1];
    assert rows == init + [o];
    if k == |init| {
      SameProgress(init, o, k);
      CurrentIsInProgress(init);
    } else {
      OneMore(init, o, k);
      OpenerIsCurrent(init, k);
    }
  }

  /** The same as `EveryReopeningJoins`, but for intervals that something has touched. */
  ghost predicate EverySettledJoins(rows: seq<Observation>) {
    forall k :: Reopens(rows, k) && !Untouched(rows, k, |rows|) ==> JoinsAt(rows, k)
  }

  /** Joining end to start is the same as every reopening going on where the timeline had ended. */
  ghost predicate Matched(rows: seq<Observation>) {
    && (Contiguous(IntervalsOf(Drafted(rows))) <==> EveryReopeningJoins(rows))
    && (Contiguous(Drafted(rows).intervals) <==> EverySettledJoins(rows))
  }

  lemma LastRow(init: seq<Observation>, o: Observation)
    ensures var rows, n := init + [o], |init|;
            && Drafted(rows) == Extended(Drafted(init), o)
            && (Opens(rows, n) <==> Drafted(init).current.None? && CanOpen(o) && Sized(o.resources))
            && (JoinsAt(rows, n) <==> Continues(IntervalsOf(Drafted(init)), OpenedBy(o)))
            && (Untouched(rows, n, n + 1) <==> !Terminal(o.state))
            && (Abandoned(rows, n) <==> Terminal(o.state) && BoundaryOf(o) < StartOf(o))
  {
    var rows, n := init + [o], |init|;
    assert rows[..n] == init && rows[n] == o;
    SameProgress(init, o, n);
    CurrentIsInProgress(init);
    assert Untouched(rows, n, n);
  }

  lemma IdleReopenings(init: seq<Observation>, o: Observation)
    requires Drafted(init).current.None?
    ensures var rows, n := init + [o], |init|;
            && (EveryReopeningJoins(rows) <==>
                  EveryReopeningJoins(init) && (Opens(rows, n) && !Abandoned(rows, n) ==> JoinsAt(rows, n)))
            && (EverySettledJoins(init) <==> EveryReopeningJoins(init))
  {
    var rows, n := init + [o], |init|;
    forall k | 0 <= k < n
      ensures Reopens(rows, k) <==> Reopens(init, k)
      ensures JoinsAt(rows, k) <==> JoinsAt(init, k)
      ensures Opens(init, k) ==> !Untouched(init, k, n)
    {
      OneMore(init, o, k);
      if Opens(init, k) && Untouched(init, k, n) {
        OpenerIsCurrent(init, k);
      }
    }
  }

  /** What one observation does to a draft with nothing in progress. */
  lemma IdleDraft(d: Draft, o: Observation)
    requires d.current.None?
    ensures var opens, dropped := CanOpen(o) && Sized(o.resources), Terminal(o.state) && BoundaryOf(o) < StartOf(o);
            && (Contiguous(IntervalsOf(Extended(d, o))) <==>
                  Contiguous(d.intervals) && (opens && !dropped ==> Continues(d.intervals, OpenedBy(o))))
            && (Contiguous(Extended(d, o).intervals) <==>
                  Contiguous(d.intervals) && (opens && !dropped && Terminal(o.state) ==> Continues(d.intervals, OpenedBy(o))))
  {
    AppendContiguous(d.intervals, OpenedBy(o));
    AppendContiguous(d.intervals, Closed(OpenedBy(o), BoundaryOf(o)));
  }

  lemma IdleMatched(init: seq<Observation>, o: Observation)
    requires Matched(init) && Drafted(init).current.None?
    ensures Matched(init + [o])
  {
    LastRow(init, o);
    IdleReopenings(init, o);
    IdleSettled(init, o);
    IdleDraft(Drafted(init), o);
  }

  lemma IdleSettled(init: seq<Observation>, o: Observation)
    requires Drafted(init).current.None?
    ensures var rows, n := init + [o], |init|;
            EverySettledJoins(rows) <==>
              EveryReopeningJoins(init) && (Opens(rows, n) && !Abandoned(rows, n) && Terminal(o.state) ==> JoinsAt(rows, n))
  {
    var rows, n := init + [o], |init|;
    LastRow(init, o);
    forall k | 0 <= k < n
      ensures Reopens(rows, k) <==> Reopens(init, k)
      ensures JoinsAt(rows, k) <==> JoinsAt(init, k)
      ensures Opens(init, k) ==> !Untouched(rows, k, n + 1)
    {
      OneMore(init, o, k);
      if Opens(init, k) && Untouched(init, k, n) {
        OpenerIsCurrent(init, k);
      }
    }
  }

  /** While an allocation runs, the next observation reopens nothing; it may drop what is in progress. */
  lemma RunningReopenings(init: seq<Observation>, o: Observation)
    requires Drafted(init).current.Some?
    ensures var dropped := Terminal(o.state) && BoundaryOf(o) < Drafted(init).current.value.start;
            EveryReopeningJoins(init + [o]) <==> if dropped then EverySettledJoins(init) else EveryReopeningJoins(init)
  {
    var rows, n := init + [o], |init|;
    var dropped := Terminal(o.state) && BoundaryOf(o) < Drafted(init).current.value.start;
    LastRow(init, o);
    forall k | 0 <= k < n
      ensures Reopens(rows, k) <==> Reopens(init, k) && !(dropped && Untouched(init, k, n))
      ensures JoinsAt(rows, k) <==> JoinsAt(init, k)
    {
      OneMore(init, o, k);
      if Opens(init, k) && Untouched(init, k, n) {
        OpenerIsCurrent(init, k);
      }
    }
  }

  lemma RunningSettled(init: seq<Observation>, o: Observation)
    requires Drafted(init).current.Some?
    ensures var touched := Terminal(o.state) || Opened(Drafted(init), o).intervals != Drafted(init).intervals;
            EverySettledJoins(init + [o]) <==> if touched then EveryReopeningJoins(init + [o]) else EverySettledJoins(init)
  {
    var rows, n, c := init + [o], |init|, Drafted(init).current.value;
    LastRow(init, o);
    forall k | 0 <= k < n
      ensures JoinsAt(rows, k) <==> JoinsAt(init, k)
      ensures !Terminal(o.state) ==> (Reopens(rows, k) <==> Reopens(init, k))
      ensures Untouched(rows, k, n + 1) ==> !Terminal(o.state) && Untouched(init, k, n)
      ensures Opens(init, k) && Untouched(init, k, n) && !Terminal(o.state) ==>
                (Untouched(rows, k, n + 1) <==> Opened(Drafted(init), o).intervals == Drafted(init).intervals)
    {
      OneMore(init, o, k);
      if Opens(init, k) && Untouched(init, k, n) {
        OpenerIsCurrent(init, k);
      }
    }
  }

  /** What one observation does to a draft with an interval in progress. */
  lemma RunningDraft(d: Draft, o: Observation)
    requires d.current.Some?
    ensures var dropped := Terminal(o.state) && BoundaryOf(o) < d.current.value.start;
            var touched := Terminal(o.state) || Opened(d, o).intervals != d.intervals;
            && (Contiguous(IntervalsOf(Extended(d, o))) <==> if dropped then Contiguous(d.intervals) else Contiguous(IntervalsOf(d)))
            && (Contiguous(Extended(d, o).intervals) <==>
                  if touched then Contiguous(IntervalsOf(Extended(d, o))) else Contiguous(d.intervals))
  {
    var c := d.current.value;
    AppendContiguous(d.intervals, c);
    if Terminal(o.state) {
      AppendContiguous(d.intervals, Closed(c, BoundaryOf(o)));
    } else {
      AppendContiguous(d.intervals, Closed(c, o.observedAt));
      AppendContiguous(d.intervals + [Closed(c, o.observedAt)], Interval(o.observedAt, None, o.resources));
    }
  }

  lemma RunningMatched(init: seq<Observation>, o: Observation)
    requires Matched(init) && Drafted(init).current.Some?
    ensures Matched(init + [o])
  {
    LastRow(init, o);
    RunningReopenings(init, o);
    RunningSettled(init, o);
    RunningDraft(Drafted(init), o);
  }

  lemma {:induction false} AlwaysMatched(rows: seq<Observation>)
    ensures Matched(rows)
    decreases |rows|
  {
    if rows != [] {
      var init, o := rows[..|rows| - 1], rows[|rows| - 1];
      assert rows == init + [o];
      AlwaysMatched(init);
      if Drafted(init).current.None? {
        IdleMatched(init, o);
      } else {
        RunningMatched(init, o);
      }
    }
  }

  // Where the timeline had ended, told from the observations.

  /** The observation that gave the allocation running before `k` its resources. */
  function Setter(rows: seq<Observation>, k: nat): (j: Option<nat>)
    requires k <= |rows|
    ensures j.Some? ==> j.value < k
    decreases k, 0
  {
    if k == 0 then None
    else
      var o, j := rows[k - 1], Setter(rows, k - 1);
      if Terminal(o.state) then None
      else if Active(o.state) && Sized(o.resources) && (j.None? || Splits(rows, j.value, o)) then Some(k - 1)
      else j
  }

  /** When the interval that observation `j` set began. */
  function Began(rows: seq<Observation>, j: nat): int
    requires j < |rows|
    decreases j, 1
  {
    if Setter(rows, j).None? then StartOf(rows[j]) else rows[j].observedAt
  }

  /** An active observation ends the interval set by `j` and begins another. */
  predicate Splits(rows: seq<Observation>, j: nat, o: Observation)
    requires j < |rows|
    decreases j, 2
  {
    o.resources != rows[j].resources && o.observedAt >= Began(rows, j)
  }

  /** Observation `e` ends an interval, and the interval is kept. */
  predicate Closes(rows: seq<Observation>, e: nat) {
    && e < |rows|
    && var o, j := rows[e], Setter(rows, e);
       if Terminal(o.state) then
         (j.Some? || (CanOpen(o) && Sized(o.resources)))
         && BoundaryOf(o) >= if j.Some? then Began(rows, j.value) else StartOf(o)
       else j.Some? && Active(o.state) && Sized(o.resources) && Splits(rows, j.value, o)
  }

  function EndAt(o: Observation): int {
    if Terminal(o.state) then BoundaryOf(o) else o.observedAt
  }

  /** The resources of the interval that observation `e` ends. */
  function HeldUntil(rows: seq<Observation>, e: nat): Resources
    requires e < |rows|
  {
    if Setter(rows, e).Some? then rows[Setter(rows, e).value].resources else rows[e].resources
  }

  /** Observation `e` is the last before `k` to end an interval that is kept. */
  ghost predicate LastClosing(rows: seq<Observation>, e: nat, k: nat) {
    e < k <= |rows| && Closes(rows, e) && forall i :: e < i < k ==> !Closes(rows, i)
  }

  lemma {:induction false} SetterBefore(rows: seq<Observation>, n: nat, k: nat)
    requires k <= n <= |rows|
    ensures Setter(rows[..n], k) == Setter(rows, k)
    ensures k < n ==> Began(rows[..n], k) == Began(rows, k)
    decreases k
  {
    if k > 0 {
      SetterBefore(rows, n, k - 1);
      var j := Setter(rows, k - 1);
      if j.Some? {
        SetterBefore(rows, n, j.value);
      }
    }
  }

  lemma ClosesBefore(rows: seq<Observation>, n: nat, e: nat)
    requires e < n <= |rows|
    ensures Closes(rows[..n], e) <==> Closes(rows, e)
    ensures HeldUntil(rows[..n], e) == HeldUntil(rows, e)
  {
    SetterBefore(rows, n, e);
    var j := Setter(rows, e);
    if j.Some? {
      SetterBefore(rows, n, j.value);
    }
  }

  /** The interval in progress, as the observations tell it. */
  ghost function Told(rows: seq<Observation>): Option<Interval> {
    var j := Setter(rows, |rows|);
    if j.None? then None else Some(Interval(Began(rows, j.value), None, rows[j.value].resources))
  }

  ghost predicate EndsAt(rows: seq<Observation>, intervals: seq<Interval>, e: nat)
    requires e < |rows|
  {
    intervals != [] && intervals[|intervals| - 1].end == Some(EndAt(rows[e])) && intervals[|intervals| - 1].resources == HeldUntil(rows, e)
  }

  /** The derivation and the observations agree on what runs and on what was closed last. */
  ghost predicate Agrees(rows: seq<Observation>) {
    && Drafted(rows).current == Told(rows)
    && (Drafted(rows).intervals != [] ==> exists e :: LastClosing(rows, e, |rows|))
    && (forall e :: LastClosing(rows, e, |rows|) ==> EndsAt(rows, Drafted(rows).intervals, e))
  }

  lemma LastClosingStep(rows: seq<Observation>, e: nat)
    requires rows != []
    ensures var n := |rows| - 1;
            LastClosing(rows, e, n + 1) <==>
              (e == n && Closes(rows, n)) || (!Closes(rows, n) && LastClosing(rows[..n], e, n))
    ensures var n := |rows| - 1;
            e < n ==> HeldUntil(rows[..n], e) == HeldUntil(rows, e)
  {
    var n := |rows| - 1;
    forall i | 0 <= i < n
      ensures Closes(rows[..n], i) <==> Closes(rows, i)
      ensures HeldUntil(rows[..n], i) == HeldUntil(rows, i)
    {
      ClosesBefore(rows, n, i);
    }
    if LastClosing(rows, e, n + 1) && e < n {
      assert !Closes(rows, n);
    }
  }

  /** The draft after the last observation is what the observations tell, given the draft before it. */
  ghost predicate Keeps(rows: seq<Observation>, d: Draft) {
    var n, d' := |rows| - 1, Drafted(rows);
    && rows != []
    && d'.current == Told(rows)
    && (if Closes(rows, n) then EndsAt(rows, d'.intervals, n) else d'.intervals == d.intervals)
  }

  lemma DraftToldIdle(rows: seq<Observation>, d: Draft)
    requires rows != [] && d == Drafted(rows[..|rows| - 1]) && d.current.None? && Setter(rows, |rows| - 1).None?
    ensures Keeps(rows, d)
  {
    var o := rows[|rows| - 1];
    if Terminal(o.state) {
      assert Told(rows).None?;
    } else {
      assert Drafted(rows).intervals == d.intervals;
    }
  }

  lemma DraftToldRunning(rows: seq<Observation>, d: Draft, j: nat)
    requires rows != [] && d == Drafted(rows[..|rows| - 1]) && j < |rows| - 1 && Setter(rows, |rows| - 1) == Some(j)
    requires d.current == Some(Interval(Began(rows, j), None, rows[j].resources))
    ensures Keeps(rows, d)
  {
    var o := rows[|rows| - 1];
    if Terminal(o.state) {
      assert Told(rows).None?;
    } else if Active(o.state) && Sized(o.resources) && Splits(rows, j, o) {
      assert Told(rows) == Some(Interval(o.observedAt, None, o.resources));
    } else {
      assert Told(rows) == d.current;
    }
  }

  /** One observation changes the draft as it changes what the observations tell. */
  lemma DraftTold(rows: seq<Observation>)
    requires rows != [] && Drafted(rows[..|rows| - 1]).current == Told(rows[..|rows| - 1])
    ensures Keeps(rows, Drafted(rows[..|rows| - 1]))
  {
    var n := |rows| - 1;
    SetterBefore(rows, n, n);
    var j := Setter(rows, n);
    if j.Some? {
      SetterBefore(rows, n, j.value);
      DraftToldRunning(rows, Drafted(rows[..n]), j.value);
    } else {
      DraftToldIdle(rows, Drafted(rows[..n]));
    }
  }

  lemma {:induction false} AlwaysAgrees(rows: seq<Observation>)
    ensures Agrees(rows)
    decreases |rows|
  {
    if rows != [] {
      var n := |rows| - 1;
      var init := rows[..n];
      AlwaysAgrees(init);
      DraftTold(rows);
      forall e: nat
        ensures LastClosing(rows, e, |rows|) <==> (e == n && Closes(rows, n)) || (!Closes(rows, n) && LastClosing(init, e, n))
        ensures LastClosing(rows, e, |rows|) ==> EndsAt(rows, Drafted(rows).intervals, e)
      {
        LastClosingStep(rows, e);
      }
      if Closes(rows, n) {
        assert LastClosing(rows, n, |rows|);
      } else if Drafted(rows).intervals != [] {
        var e :| LastClosing(init, e, n);
        assert LastClosing(rows, e, |rows|);
      }
    }
  }

  /** An opening goes on from the end of the interval that was closed last. */
  ghost predicate Meets(rows: seq<Observation>, e: nat, k: nat)
    requires e < k < |rows|
  {
    EndAt(rows[e]) == StartOf(rows[k]) && HeldUntil(rows, e) != rows[k].resources
  }

  lemma JoinsExactlyIfMeets(rows: seq<Observation>, k: nat)
    requires Opens(rows, k)
    ensures JoinsAt(rows, k) <==> forall e :: LastClosing(rows, e, k) ==> Meets(rows, e, k)
  {
    var init := rows[..k];
    AlwaysAgrees(init);
    ProgressBefore(rows, k);
    CurrentIsInProgress(init);
    forall e: nat
      ensures LastClosing(rows, e, k) <==> LastClosing(init, e, k)
      ensures e < k ==> HeldUntil(rows, e) == HeldUntil(init, e)
    {
      forall i | 0 <= i < k
        ensures Closes(init, i) <==> Closes(rows, i)
        ensures HeldUntil(init, i) == HeldUntil(rows, i)
      {
        ClosesBefore(rows, k, i);
      }
    }
  }

  // The main results.

  /**
   The intervals join end to start exactly if every observation that opens a kept interval after
   others were closed starts at the last end, with other resources. All of this is told from the
   observations: nothing has to be derived.
   */
  lemma IntervalsJoinExactly(rows: seq<Observation>)
    requires rows != []
    ensures Contiguous(AllocationOf(rows).intervals) <==>
              forall k, e :: Opens(rows, k) && !Abandoned(rows, k) && LastClosing(rows, e, k) ==> Meets(rows, e, k)
  {
    AlwaysMatched(rows);
    forall k: nat | Opens(rows, k)
      ensures JoinsAt(rows, k) <==> forall e :: LastClosing(rows, e, k) ==> Meets(rows, e, k)
    {
      JoinsExactlyIfMeets(rows, k);
    }
  }

  predicate NothingAfterTheEnd(rows: seq<Observation>) {
    forall i :: 0 <= i < |rows| - 1 ==> !Terminal(rows[i].state)
  }

  lemma {:induction false} NothingClosedYet(rows: seq<Observation>)
    requires (forall i :: 0 <= i < |rows| ==> !Terminal(rows[i].state)) && Drafted(rows).current.None?
    ensures Drafted(rows).intervals == []
    decreases |rows|
  {
    if rows != [] {
      NothingClosedYet(rows[..|rows| - 1]);
    }
  }

  /** Where nothing follows a terminal observation, nothing reopens, so the intervals join. */
  lemma IntervalsJoin(rows: seq<Observation>)
    requires rows != [] && NothingAfterTheEnd(rows)
    ensures Contiguous(AllocationOf(rows).intervals)
  {
    forall k: nat
      ensures !Reopens(rows, k)
    {
      if Opens(rows, k) {
        ProgressBefore(rows, k);
        CurrentIsInProgress(rows[..k]);
        NothingClosedYet(rows[..k]);
      }
    }
    AlwaysMatched(rows);
  }

  lemma ProgressBefore(rows: seq<Observation>, k: nat)
    requires k <= |rows|
    ensures InProgress(rows[..k], k) <==> InProgress(rows, k)
  {
    var init := rows[..k];
    assert forall j :: 0 <= j < k ==> (NoneTerminal(init, j, k) <==> NoneTerminal(rows, j, k));
  }

  /** Every sized terminal observation after the end adds the whole allocation once more. */
  lemma RepeatedEndReopens(rows: seq<Observation>, o: Observation)
    requires rows != [] && Terminal(rows[|rows| - 1].state)
    requires Terminal(o.state) && o.startedAt.Some? && Sized(o.resources) && BoundaryOf(o) >= o.startedAt.value
    ensures AllocationOf(rows + [o]).intervals ==
            AllocationOf(rows).intervals + [Interval(o.startedAt.value, Some(BoundaryOf(o)), o.resources)]
  {
    DraftedTidy(rows);
    assert (rows + [o])[..|rows|] == rows;
  }

  /** It keeps the timeline in one piece exactly if the job started anew where it had ended. */
  lemma RepeatedEndJoinsExactly(rows: seq<Observation>, o: Observation)
    requires rows != [] && Terminal(rows[|rows| - 1].state)
    requires Terminal(o.state) && o.startedAt.Some? && Sized(o.resources) && BoundaryOf(o) >= o.startedAt.value
    ensures Contiguous(AllocationOf(rows + [o]).intervals) <==>
              Contiguous(AllocationOf(rows).intervals) && Continues(AllocationOf(rows).intervals, OpenedBy(o))
  {
    RepeatedEndReopens(rows, o);
    AppendContiguous(AllocationOf(rows).intervals, Interval(o.startedAt.value, Some(BoundaryOf(o)), o.resources));
  }

  const Once := Observation("job", "1", 9, Succeeded, Some(1), Some(5), Resources(Some(2), None, None))

  /** A job that has ended and is polled twice: the same interval is there twice. */
  lemma RepeatedEndOverlaps()
    ensures AllocationOf([Once] + [Once.(observedAt := 10)]).intervals ==
            [Interval(1, Some(5), Once.resources), Interval(1, Some(5), Once.resources)]
  {
    RepeatedEndReopens([Once], Once.(observedAt := 10));
    assert Drafted([Once]) == Extended(Drafted([Once][..0]), Once);
  }
}
