/**
 What the files of a rank say about the run that wrote them: the summary counts exactly what was recorded,
 and the event file holds recorded events unaltered, each under the number it was recorded as.
 */
module Accounts {
  import opened Prelude
  import opened Telemetry
  import opened Recorder
  import opened Capture

  /** The events recorded in a run, in order. */
  ghost function Recorded(run: seq<Step>): seq<Event> {
    if run == [] then [] else
    Recorded(run[..|run| - 1]) + Noted(run[|run| - 1])
  }

  ghost function Noted(step: Step): seq<Event> {
    if step.Record? then [step.event] else []
  }

  ghost function Adding(events: seq<Event>, weight: Event -> nat): nat {
    if events == [] then 0 else Adding(events[..|events| - 1], weight) + weight(events[|events| - 1])
  }

  lemma AddingOne(events: seq<Event>, e: Event, weight: Event -> nat)
    ensures Adding(events + [e], weight) == Adding(events, weight) + weight(e)
  {
    assert (events + [e])[..|events|] == events;
  }

  predicate Completing(e: Event) {
    e.operation in {"MPI_Isend_complete", "MPI_Irecv_complete"}
  }

  ghost function Times(): Event -> nat { (e: Event) => e.duration }

  ghost function Completions(): Event -> nat { (e: Event) => if Completing(e) then 1 else 0 }

  ghost function Calls(): Event -> nat { (e: Event) => if Completing(e) then 0 else 1 }

  ghost function Failures(): Event -> nat { (e: Event) => if !Completing(e) && e.error != 0 then 1 else 0 }

  ghost function BytesSent(): Event -> nat {
    (e: Event) => if e.operation in {"MPI_Send", "MPI_Isend"} then e.bytes else 0
  }

  ghost function BytesReceived(): Event -> nat {
    (e: Event) => if e.operation in {"MPI_Recv", "MPI_Irecv_complete"} then e.bytes else 0
  }

  // Names and places in the table.

  lemma PlaceOf(operation: string, i: nat)
    requires i < 32
    ensures |Names| == 32 && (operation == Names[i] <==> IndexOf(operation) == i)
  {
    var index := IndexOf(operation);
    if operation == Names[i] && index < i {
      NamesAreDistinct(index, i);
    }
  }

  lemma PlacesInTheTable()
    ensures |Names| == 32
    ensures Names[0] == "MPI_Send" && Names[1] == "MPI_Recv" && Names[2] == "MPI_Isend"
    ensures Names[30] == "MPI_Isend_complete" && Names[31] == "MPI_Irecv_complete"
  {
  }

  lemma SendPlaces(operation: string)
    ensures operation in {"MPI_Send", "MPI_Isend"} <==> IsSent(IndexOf(operation))
  {
    PlacesInTheTable();
    PlaceOf(operation, 0);
    PlaceOf(operation, 2);
  }

  lemma ReceivePlaces(operation: string)
    ensures operation in {"MPI_Recv", "MPI_Irecv_complete"} <==> IsReceived(IndexOf(operation))
  {
    PlacesInTheTable();
    PlaceOf(operation, 1);
    PlaceOf(operation, 31);
  }

  lemma CompletionPlaces(operation: string)
    ensures operation in {"MPI_Isend_complete", "MPI_Irecv_complete"} <==> IsCompletion(IndexOf(operation))
  {
    PlacesInTheTable();
    PlaceOf(operation, 30);
    PlaceOf(operation, 31);
  }

  /** The name an operation is reported under. */
  function Under(operation: string): string {
    if operation in Names then operation else "Other"
  }

  lemma UnderItsPlace(operation: string, i: nat)
    requires i <= 32
    ensures Under(operation) == NameOf(i) <==> IndexOf(operation) == i
  {
    var index := IndexOf(operation);
    assert |Names| == 32;
    assert Under(operation) == NameOf(index);
    if index < i {
      NamesAreDistinct(index, i);
    } else if i < index {
      NamesAreDistinct(i, index);
    }
  }

  // The counters.

  /** Calls, time and bytes of the events reported under a name. */
  ghost function Usage(events: seq<Event>, name: string): Stats {
    if events == [] then Stats(0, 0, 0) else
    var e, before := events[|events| - 1], Usage(events[..|events| - 1], name);
    if Under(e.operation) == name then Stats(before.calls + 1, before.duration + e.duration, before.bytes + e.bytes) else before
  }

  /** The same for the events counted under an index. */
  ghost function UsageAt(events: seq<Event>, index: nat): Stats {
    if events == [] then Stats(0, 0, 0) else
    var e, before := events[|events| - 1], UsageAt(events[..|events| - 1], index);
    if IndexOf(e.operation) == index then Grown(before, e.duration, e.bytes) else before
  }

  lemma {:induction false} UsageByName(events: seq<Event>, index: nat)
    requires index <= 32
    ensures Usage(events, NameOf(index)) == UsageAt(events, index)
    decreases |events|
  {
    if events != [] {
      UsageByName(events[..|events| - 1], index);
      UnderItsPlace(events[|events| - 1].operation, index);
    }
  }

  ghost predicate Totals(t: Tally, events: seq<Event>) {
    && t.mpiTime == Adding(events, Times())
    && t.apiCalls == Adding(events, Calls())
    && t.completions == Adding(events, Completions())
    && t.failed == Adding(events, Failures())
    && t.sent == Adding(events, BytesSent())
    && t.received == Adding(events, BytesReceived())
  }

  ghost predicate Rows(t: Tally, events: seq<Event>) {
    |t.operations| == 33 && forall i :: 0 <= i <= 32 ==> t.operations[i] == UsageAt(events, i)
  }

  lemma CountedTotals(t: Tally, events: seq<Event>, e: Event)
    requires Totals(t, events) && IndexOf(e.operation) < |t.operations|
    ensures Totals(Counted(t, IndexOf(e.operation), e.duration, e.bytes, e.error), events + [e])
  {
    SendPlaces(e.operation);
    ReceivePlaces(e.operation);
    CompletionPlaces(e.operation);
    AddingOne(events, e, Times());
    AddingOne(events, e, Calls());
    AddingOne(events, e, Completions());
    AddingOne(events, e, Failures());
    AddingOne(events, e, BytesSent());
    AddingOne(events, e, BytesReceived());
  }

  lemma CountedRows(t: Tally, events: seq<Event>, e: Event)
    requires Rows(t, events) && IndexOf(e.operation) < |t.operations|
    ensures Rows(Counted(t, IndexOf(e.operation), e.duration, e.bytes, e.error), events + [e])
  {
    assert (events + [e])[..|events|] == events;
  }

  lemma StepTotals(c: Config, s: State, step: Step, events: seq<Event>)
    requires Good(c, s) && Totals(s.tally, events) && Rows(s.tally, events)
    ensures var tally, events' := Apply(c, s, step).tally, events + Noted(step);
            Totals(tally, events') && Rows(tally, events')
  {
    if step.Record? {
      RecordedHonest(s.tally, s.trace, c.capacity, c.limit, step.event, c.tracing);
      CountedTotals(s.tally, events, step.event);
      CountedRows(s.tally, events, step.event);
    } else {
      assert events + [] == events;
    }
  }

  ghost predicate Agrees(t: Tally, events: seq<Event>) {
    Totals(t, events) && Rows(t, events)
  }

  ghost predicate CountsRight(c: Config, run: seq<Step>) {
    Agrees(After(c, run).tally, Recorded(run))
  }

  lemma AgreesAfter(c: Config, before: seq<Step>, step: Step, run: seq<Step>)
    requires CountsRight(c, before) && run == before + [step]
    ensures CountsRight(c, run)
  {
    AfterOne(c, before, step);
    StepTotals(c, After(c, before), step, Recorded(before));
  }

  lemma {:induction false} RunTotals(c: Config, run: seq<Step>)
    ensures CountsRight(c, run)
    decreases |run|
  {
    if run == [] {
      BlankAtFirst(c);
    } else {
      RunTotals(c, run[..|run| - 1]);
      AgreesAfter(c, run[..|run| - 1], run[|run| - 1], run);
    }
  }

  lemma StartIsBlank()
    ensures Agrees(Start().tally, [])
  {
  }

  lemma StartsBlank(c: Config)
    ensures After(c, []) == Start() && Recorded([]) == []
  {
  }

  lemma BlankAtFirst(c: Config)
    ensures CountsRight(c, [])
  {
    StartsBlank(c);
    StartIsBlank();
    assert Agrees(After(c, []).tally, Recorded([]));
  }

  /** The row of a name in a table, if the operation occurred. */
  ghost predicate HasRow(table: map<string, Entry>, name: string, stats: Stats, kind: Kind) {
    && (name in table <==> stats.calls > 0)
    && (name in table ==> table[name] == Entry(stats, kind))
  }

  lemma TableStep(operations: seq<Stats>, n: nat, name: string, stats: Stats, kind: Kind)
    requires n < |operations| && name != NameOf(n) && HasRow(Table(operations, n), name, stats, kind)
    ensures HasRow(Table(operations, n + 1), name, stats, kind)
  {
  }

  lemma TableEnd(operations: seq<Stats>, n: nat)
    requires n < |operations| && NameOf(n) !in Table(operations, n)
    ensures HasRow(Table(operations, n + 1), NameOf(n), operations[n], KindOf(n))
  {
  }

  lemma {:induction false} TableRow(operations: seq<Stats>, n: nat, i: nat)
    requires i < n <= |operations| == 33
    ensures HasRow(Table(operations, n), NameOf(i), operations[i], KindOf(i))
    decreases n
  {
    if i == n - 1 {
      NameIsNew(operations, i);
      TableEnd(operations, i);
    } else {
      NamesAreDistinct(i, n - 1);
      TableRow(operations, n - 1, i);
      TableStep(operations, n - 1, NameOf(i), operations[i], KindOf(i));
    }
  }

  lemma {:induction false} UsedUnderAName(events: seq<Event>, name: string)
    requires Usage(events, name).calls > 0
    ensures exists i :: 0 <= i <= 32 && NameOf(i) == name
    decreases |events|
  {
    var operation := events[|events| - 1].operation;
    if Under(operation) == name {
      UnderItsPlace(operation, IndexOf(operation));
    } else {
      UsedUnderAName(events[..|events| - 1], name);
    }
  }

  lemma KindByName(i: nat)
    requires i <= 32
    ensures KindOf(i) == RequestCompletion <==> NameOf(i) in {"MPI_Isend_complete", "MPI_Irecv_complete"}
  {
    assert NameOf(30) == "MPI_Isend_complete" && NameOf(31) == "MPI_Irecv_complete";
    if i < 30 {
      NamesAreDistinct(i, 30);
      NamesAreDistinct(i, 31);
    } else if i == 32 {
      NamesAreDistinct(30, i);
      NamesAreDistinct(31, i);
    }
  }

  /** Over every run: each counter of a summary is the total over what was recorded. */
  lemma SummariesCountTheRun(c: Config, run: seq<Step>, complete: bool, state: CaptureState, code: int)
    ensures var s, events := SummaryOf(After(c, run).tally, c.rank, c.worldSize, complete, state, code), Recorded(run);
            && s.rank == c.rank && s.worldSize == c.worldSize
            && s.complete == complete && s.state == state && s.finalizeCode == code
            && s.mpiTime == Adding(events, Times())
            && s.mpiCalls == Adding(events, Calls())
            && s.completions == Adding(events, Completions())
            && s.failed == Adding(events, Failures())
            && s.sent == Adding(events, BytesSent())
            && s.received == Adding(events, BytesReceived())
  {
    RunTotals(c, run);
  }

  /** Over every run: the summary has a row for exactly the names that occurred, with their calls, time, bytes and kind. */
  lemma SummariesListTheRun(c: Config, run: seq<Step>, complete: bool, state: CaptureState, code: int, name: string)
    ensures var table := SummaryOf(After(c, run).tally, c.rank, c.worldSize, complete, state, code).operations;
            var usage := Usage(Recorded(run), name);
            && (name in table <==> usage.calls > 0)
            && (name in table ==> table[name].stats == usage)
            && (name in table ==>
                  (table[name].kind == RequestCompletion <==> name in {"MPI_Isend_complete", "MPI_Irecv_complete"}))
  {
    RunTotals(c, run);
    var operations := After(c, run).tally.operations;
    if name in Table(operations, 33) {
      TableNames(operations, 33, name);
    }
    if Usage(Recorded(run), name).calls > 0 {
      UsedUnderAName(Recorded(run), name);
    }
    if i :| 0 <= i <= 32 && NameOf(i) == name {
      TableRow(operations, 33, i);
      UsageByName(Recorded(run), i);
      KindByName(i);
    }
  }

  // The event file.

  /** Every event on its way to the file is the one recorded under its number. */
  ghost predicate Genuine(flight: seq<Event>, events: seq<Event>) {
    forall i :: 0 <= i < |flight| ==>
      flight[i].sequence < |events| && flight[i] == events[flight[i].sequence].(sequence := flight[i].sequence)
  }

  /** A traced event takes the next number; it is dropped where the limit or the buffer is full, else it follows all others. */
  ghost predicate Takes(c: Config, t: Trace, t': Trace, e: Event) {
    && t.out <= |t.staging| && t'.out <= |t'.staging|
    && if !c.tracing then t' == t
       else if t.accepted >= c.limit || |t.active| >= c.capacity then
         InFlight(t') == InFlight(t) && t'.issued == t.issued + 1 && t'.dropped == t.dropped + 1
       else
         InFlight(t') == InFlight(t) + [e.(sequence := t.issued)] && t'.issued == t.issued + 1 && t'.dropped == t.dropped
  }

  lemma AcceptedTakes(c: Config, t: Trace, e: Event)
    requires t.out <= |t.staging|
    ensures Takes(c, t, if c.tracing then Accepted(t, e, c.capacity, c.limit) else t, e)
  {
    var t' := Accepted(t, e, c.capacity, c.limit);
    if t'.accepted != t.accepted {
      assert InFlight(t') == InFlight(t) + [e.(sequence := t.issued)];
    }
  }

  lemma RecordTakes(c: Config, s: State, e: Event)
    requires Good(c, s)
    ensures Takes(c, s.trace, Apply(c, s, Record(e)).trace, e)
  {
    RecordedHonest(s.tally, s.trace, c.capacity, c.limit, e, c.tracing);
    AcceptedTakes(c, s.trace, e);
  }

  lemma AfterOne(c: Config, run: seq<Step>, step: Step)
    ensures After(c, run + [step]) == Apply(c, After(c, run), step)
    ensures Recorded(run + [step]) == Recorded(run) + Noted(step)
  {
    assert (run + [step])[..|run|] == run;
  }

  /** Over every run: an event is dropped exactly where the limit or the buffer is full. */
  lemma DroppedExactly(c: Config, run: seq<Step>, e: Event)
    ensures Takes(c, After(c, run).trace, After(c, run + [Record(e)]).trace, e)
  {
    AfterOne(c, run, Record(e));
    RecordTakes(c, After(c, run), e);
  }

  /** The writer's steps change nothing in what is on its way to the file. */
  lemma WriterKeepsFlight(c: Config, s: State, step: Step)
    requires Good(c, s) && !step.Record?
    ensures var t, t' := s.trace, Apply(c, s, step).trace;
            t'.out <= |t'.staging| && InFlight(t') == InFlight(t) && t'.issued == t.issued && t'.dropped == t.dropped
  {
    StepGood(c, s, step);
    match step {
      case Swap => if s.trace.staging == [] { SwappedOrderly(s.trace, c.capacity, c.limit); }
      case WriteOne => WroteNextOrderly(s.trace, c.capacity, c.limit);
      case Count => if s.trace.out == |s.trace.staging| { ClearedOrderly(s.trace, c.capacity, c.limit); }
    }
  }

  lemma GenuineLater(flight: seq<Event>, events: seq<Event>, e: Event)
    requires Genuine(flight, events)
    ensures Genuine(flight, events + [e])
    ensures Genuine(flight + [e.(sequence := |events|)], events + [e])
  {
  }

  ghost predicate Traced(t: Trace, events: seq<Event>) {
    t.out <= |t.staging| && t.issued == |events| && Genuine(InFlight(t), events)
  }

  lemma TakesIsTraced(c: Config, t: Trace, t': Trace, events: seq<Event>, e: Event)
    requires c.tracing && Traced(t, events) && Takes(c, t, t', e)
    ensures Traced(t', events + [e])
  {
    GenuineLater(InFlight(t), events, e);
  }

  lemma StepIsTraced(c: Config, s: State, step: Step, events: seq<Event>)
    requires c.tracing && Good(c, s) && Traced(s.trace, events)
    ensures Traced(Apply(c, s, step).trace, events + Noted(step))
  {
    if step.Record? {
      RecordTakes(c, s, step.event);
      TakesIsTraced(c, s.trace, Apply(c, s, step).trace, events, step.event);
    } else {
      WriterKeepsFlight(c, s, step);
      assert events + [] == events;
    }
  }

  ghost predicate FileIsGenuine(c: Config, run: seq<Step>) {
    Traced(After(c, run).trace, Recorded(run))
  }

  lemma StaysGenuine(c: Config, before: seq<Step>, step: Step, run: seq<Step>)
    requires c.tracing && FileIsGenuine(c, before) && run == before + [step]
    ensures FileIsGenuine(c, run)
  {
    AfterOne(c, before, step);
    StepIsTraced(c, After(c, before), step, Recorded(before));
  }

  lemma GenuineAtFirst(c: Config)
    ensures FileIsGenuine(c, []) && NoneDropped(c, [])
  {
    StartsBlank(c);
  }

  lemma {:induction false} RunIsGenuine(c: Config, run: seq<Step>)
    requires c.tracing
    ensures FileIsGenuine(c, run)
    decreases |run|
  {
    if run == [] {
      GenuineAtFirst(c);
    } else {
      RunIsGenuine(c, run[..|run| - 1]);
      StaysGenuine(c, run[..|run| - 1], run[|run| - 1], run);
    }
  }

  /** Over every run with tracing: the file holds recorded events unaltered, each under its number, in the order they were recorded. */
  lemma FilesHoldWhatWasRecorded(c: Config, run: seq<Step>, i: nat)
    requires c.tracing && i < |After(c, run).trace.file|
    ensures var file, events := After(c, run).trace.file, Recorded(run);
            && file[i].sequence < |events| && file[i] == events[file[i].sequence].(sequence := file[i].sequence)
            && (i > 0 ==> file[i - 1].sequence < file[i].sequence)
  {
    RunIsGenuine(c, run);
    FileIncreasing(After(c, run).trace);
    assert InFlight(After(c, run).trace)[i] == After(c, run).trace.file[i];
  }

  /** The events under their numbers. */
  ghost function Numbered(events: seq<Event>): (numbered: seq<Event>)
    ensures |numbered| == |events| && forall i :: 0 <= i < |events| ==> numbered[i] == events[i].(sequence := i)
  {
    seq(|events|, i requires 0 <= i < |events| => events[i].(sequence := i))
  }

  ghost predicate Fits(c: Config, events: seq<Event>) {
    c.tracing && |events| <= c.capacity && |events| <= c.limit
  }

  ghost predicate NoneDropped(c: Config, run: seq<Step>) {
    After(c, run).trace.dropped == 0
  }

  lemma {:induction false} NothingIsDropped(c: Config, run: seq<Step>)
    requires Fits(c, Recorded(run))
    ensures NoneDropped(c, run)
    decreases |run|
  {
    if run == [] {
      GenuineAtFirst(c);
    } else {
      var before, last := run[..|run| - 1], run[|run| - 1];
      assert before + [last] == run;
      AfterOne(c, before, last);
      NothingIsDropped(c, before);
      NotDroppedYet(c, before, last);
    }
  }

  lemma NotDroppedYet(c: Config, run: seq<Step>, step: Step)
    requires NoneDropped(c, run) && Fits(c, Recorded(run) + Noted(step))
    ensures NoneDropped(c, run + [step])
  {
    RunIsGenuine(c, run);
    AfterOne(c, run, step);
    StepDropsNothing(c, After(c, run), step, Recorded(run));
  }

  lemma StepDropsNothing(c: Config, s: State, step: Step, events: seq<Event>)
    requires Good(c, s) && s.trace.dropped == 0 && Traced(s.trace, events) && Fits(c, events + Noted(step))
    ensures Apply(c, s, step).trace.dropped == 0
  {
    if step.Record? {
      RecordTakes(c, s, step.event);
    } else {
      WriterKeepsFlight(c, s, step);
    }
  }

  lemma CompleteFlight(flight: seq<Event>, events: seq<Event>)
    requires Genuine(flight, events) && Increasing(flight, |events|) && |flight| == |events|
    ensures flight == Numbered(events)
  {
    RisingFromZero(flight);
  }

  lemma {:induction false} RisingFromZero(flight: seq<Event>)
    requires Increasing(flight, |flight|)
    ensures forall i :: 0 <= i < |flight| ==> flight[i].sequence == i
    decreases |flight|
  {
    if flight != [] {
      var last := |flight| - 1;
      assert forall i :: 0 <= i < last ==> flight[i].sequence < flight[last].sequence;
      RisingFromZero(flight[..last]);
      assert last > 0 ==> flight[..last][last - 1] == flight[last - 1];
    }
  }

  /** Over every run that records no more than the buffer and the limit hold: once it is written out, the file is the whole recording. */
  lemma SmallRunsAreComplete(c: Config, run: seq<Step>)
    requires Fits(c, Recorded(run))
    requires After(c, run).trace.active == [] && After(c, run).trace.out == |After(c, run).trace.staging|
    ensures After(c, run).trace.file == Numbered(Recorded(run))
  {
    var t := After(c, run).trace;
    NothingIsDropped(c, run);
    RunIsGenuine(c, run);
    assert InFlight(t) == t.file;
    CompleteFlight(t.file, Recorded(run));
  }
}
