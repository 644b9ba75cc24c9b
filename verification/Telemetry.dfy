/** What the recorder writes and the analyzer reads: operation names, event lines and rank summaries. */
module Telemetry {

  const Names: seq<string> := [
    "MPI_Send", "MPI_Recv", "MPI_Isend", "MPI_Irecv", "MPI_Wait", "MPI_Test",
    "MPI_Waitall", "MPI_Waitany", "MPI_Waitsome", "MPI_Testall", "MPI_Testany",
    "MPI_Testsome", "MPI_Allreduce", "MPI_Bcast", "MPI_Barrier",
    "MPI_Cancel", "MPI_Request_free", "MPI_Send_init", "MPI_Recv_init",
    "MPI_Bsend_init", "MPI_Ssend_init", "MPI_Rsend_init", "MPI_Start",
    "MPI_Startall", "MPI_Psend_init", "MPI_Precv_init", "MPI_Pready",
    "MPI_Pready_range", "MPI_Pready_list", "MPI_Parrived",
    "MPI_Isend_complete", "MPI_Irecv_complete"]

  /** The name an operation index is reported under. */
  function NameOf(index: nat): string {
    if index < |Names| then Names[index] else "Other"
  }

  predicate IsCompletion(index: nat) {
    index == 30 || index == 31
  }

  predicate IsSent(index: nat) {
    index == 0 || index == 2
  }

  predicate IsReceived(index: nat) {
    index == 1 || index == 31
  }

  predicate EndsWith(s: string, suffix: string) {
    |s| >= |suffix| && s[|s| - |suffix|..] == suffix
  }

  lemma NamesAreDistinct(i: nat, j: nat)
    requires i < j <= 32
    ensures |Names| == 32 && NameOf(i) != NameOf(j)
  {
    var s, t := NameOf(i), NameOf(j);
    assert |s| == |t| ==> s[4] != t[4] || s[5] != t[5] || s[|s| - 2] != t[|s| - 2] || s[7] != t[7] || s[6] != t[6] || s[8] != t[8];
  }

  /** The analyzer tells completions by the suffix of the name, the recorder by the index. */
  lemma CompletionsBySuffix(i: nat)
    requires i < 32
    ensures |Names| == 32 && (EndsWith(Names[i], "_complete") <==> IsCompletion(i))
  {
    var s := Names[i];
    assert |"_complete"| == 9 && "_complete"[8] == 'e' && "_complete"[7] == 't';
    assert |s| >= 9 && i < 30 ==> s[|s| - 1] != 'e' || s[|s| - 2] != 't';
    assert |s| >= 9 ==> s[|s| - 9..][8] == s[|s| - 1] && s[|s| - 9..][7] == s[|s| - 2];
    if i >= 30 {
      assert s[|s| - 9..] == "_complete";
    }
  }

  lemma SendsByName(i: nat)
    requires i < 32
    ensures |Names| == 32 && (Names[i] in {"MPI_Send", "MPI_Isend"} <==> IsSent(i))
  {
    if i != 0 {
      NamesAreDistinct(0, i);
    }
    if i < 2 {
      NamesAreDistinct(i, 2);
    } else if i > 2 {
      NamesAreDistinct(2, i);
    }
  }

  /** The index of a name: its first place in the table, or one past the table. */
  function Search(operation: string, from: nat): (index: nat)
    requires from <= |Names|
    ensures from <= index <= |Names| && (index < |Names| ==> Names[index] == operation)
    ensures forall i :: from <= i < index ==> Names[i] != operation
    decreases |Names| - from
  {
    if from == |Names| || Names[from] == operation then from else Search(operation, from + 1)
  }

  function IndexOf(operation: string): nat {
    Search(operation, 0)
  }

  datatype Kind = ApiCall | RequestCompletion

  function KindOf(index: nat): Kind {
    if IsCompletion(index) then RequestCompletion else ApiCall
  }

  datatype Stats = Stats(calls: nat, duration: nat, bytes: nat)

  datatype Event = Event(
    operation: string, sequence: nat, timestamp: nat, duration: nat, bytes: nat, peer: int, tag: int, error: int,
    communicator: int, request: int)

  /** One line of an event file. */
  datatype Line = Line(schema: int, rank: int, kind: Kind, event: Event)

  datatype Entry = Entry(stats: Stats, kind: Kind)

  datatype CaptureState = Collecting | PreFinalize | Finalized | FinalizeFailed

  datatype Summary = Summary(
    schema: int, complete: bool, state: CaptureState, finalizeCode: int, rank: nat, worldSize: nat,
    mpiTime: nat, mpiCalls: nat, completions: nat, failed: nat, sent: nat, received: nat,
    operations: map<string, Entry>)

  function LineOf(e: Event, rank: nat): Line {
    Line(2, rank, KindOf(IndexOf(e.operation)), e)
  }

  /** A name whose suffix does not contradict how the recorder counts it. */
  predicate Tellable(operation: string) {
    operation in Names || !EndsWith(operation, "_complete")
  }

  lemma TellableExactly(operation: string)
    ensures Tellable(operation) <==> (EndsWith(operation, "_complete") <==> IsCompletion(IndexOf(operation)))
  {
    var index := IndexOf(operation);
    if index < 32 {
      CompletionsBySuffix(index);
    }
  }

  lemma SentByIndex(operation: string)
    ensures operation in {"MPI_Send", "MPI_Isend"} <==> IsSent(IndexOf(operation))
  {
    assert |Names| == 32 && Names[0] == "MPI_Send" && Names[2] == "MPI_Isend";
    var index := IndexOf(operation);
    if index < 32 {
      SendsByName(index);
    }
  }
}
