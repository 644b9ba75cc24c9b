/** Integrity incidents of protected objects, and the log of notifications they cause. */
module Incidents {
  import opened Prelude
  import opened Catalog

  /** One incident per collector row, tenant, cluster and category. */
  datatype Name = Name(candidate: nat, tenant: string, cluster: string, category: string)

  datatype Incident = Incident(
    attempt: Option<string>, resolved: bool, occurrences: nat, resolvedBy: Option<string>, resolution: Option<string>)

  datatype Kind = Detected | Resolved

  datatype Note = Note(name: Name, occurrence: nat, kind: Kind)

  datatype Resolution = Resolution(name: Name, actor: string, reason: string)

  datatype Log = Log(incidents: map<Name, Incident>, notes: seq<Note>, resolutions: seq<Resolution>)

  const NoIncidents := Log(map[], [], [])

  // Which attempts refer to an object.

  function Scopes(s: State, key: Key): set<Attempt> {
    (set r | r in s.manifests && s.manifests[r].key == key :: s.manifests[r].attempt)
    + (set x | x in s.reservations && s.reservations[x].key == key && s.reservations[x].state != Expired
         :: s.reservations[x].attempt)
    + (set v | v in s.revisions && (s.revisions[v].reportKey == key || s.revisions[v].projectionKey == key)
         :: s.revisions[v].attempt)
  }

  /** The collector keeps an object exactly if some attempt refers to it. */
  lemma ScopesKeepObjects(s: State, key: Key)
    ensures Referenced(s, key) <==> Scopes(s, key) != {}
  {
    if Referenced(s, key) {
      if r :| r in s.manifests && s.manifests[r].key == key {
        assert s.manifests[r].attempt in Scopes(s, key);
      } else if x :| x in s.reservations && s.reservations[x].key == key && s.reservations[x].state != Expired {
        assert s.reservations[x].attempt in Scopes(s, key);
      } else {
        var v :| v in s.revisions && (s.revisions[v].reportKey == key || s.revisions[v].projectionKey == key);
        assert s.revisions[v].attempt in Scopes(s, key);
      }
    }
  }

  // The two changes of an incident.

  function Detect(log: Log, name: Name, attempt: Option<string>): Log {
    var n := if name in log.incidents then log.incidents[name].occurrences + 1 else 1;
    log.(
      incidents := log.incidents[name := Incident(attempt, false, n, None, None)],
      notes := log.notes + [Note(name, n, Detected)])
  }

  function Resolve(log: Log, name: Name, actor: string, reason: string): Log {
    if name !in log.incidents || log.incidents[name].resolved then log
    else
      var i := log.incidents[name];
      log.(
        incidents := log.incidents[name := i.(resolved := true, resolvedBy := Some(actor), resolution := Some(reason))],
        notes := log.notes + [Note(name, i.occurrences, Resolved)],
        resolutions := log.resolutions + [Resolution(name, actor, reason)])
  }

  // The log is complete and has no duplicates.

  function Occurrences(log: Log, name: Name): nat {
    if name in log.incidents then log.incidents[name].occurrences else 0
  }

  predicate IsResolved(log: Log, name: Name) {
    name in log.incidents && log.incidents[name].resolved
  }

  function ResolvedNotes(notes: seq<Note>, name: Name): nat {
    if notes == [] then 0
    else
      var last := notes[|notes| - 1];
      ResolvedNotes(notes[..|notes| - 1], name) + if last.name == name && last.kind == Resolved then 1 else 0
  }

  function ResolutionsOf(resolutions: seq<Resolution>, name: Name): nat {
    if resolutions == [] then 0
    else ResolutionsOf(resolutions[..|resolutions| - 1], name) + if resolutions[|resolutions| - 1].name == name then 1 else 0
  }

  /** How often a notification is in the log, as the state of its incident determines it. */
  ghost predicate NoteFits(log: Log, note: Note) {
    var count, n := multiset(log.notes)[note], Occurrences(log, note.name);
    match note.kind
    case Detected => count == if 1 <= note.occurrence <= n then 1 else 0
    case Resolved =>
      && count <= 1
      && (note.occurrence == n ==> (count == 1 <==> IsResolved(log, note.name)))
      && (note.occurrence == 0 || note.occurrence > n ==> count == 0)
  }

  ghost predicate Complete(log: Log) {
    && (forall note :: NoteFits(log, note))
    && (forall name :: ResolvedNotes(log.notes, name) == ResolutionsOf(log.resolutions, name))
    && (forall name :: name in log.incidents ==> log.incidents[name].occurrences >= 1)
  }

  lemma AppendNote(notes: seq<Note>, note: Note)
    ensures multiset(notes + [note]) == multiset(notes) + multiset{note}
    ensures forall name :: ResolvedNotes(notes + [note], name) ==
              ResolvedNotes(notes, name) + if note.name == name && note.kind == Resolved then 1 else 0
  {
    assert (notes + [note])[..|notes|] == notes;
  }

  lemma AppendResolution(resolutions: seq<Resolution>, r: Resolution)
    ensures forall name :: ResolutionsOf(resolutions + [r], name) ==
              ResolutionsOf(resolutions, name) + if r.name == name then 1 else 0
  {
    assert (resolutions + [r])[..|resolutions|] == resolutions;
  }

  lemma DetectKeeps(log: Log, name: Name, attempt: Option<string>)
    requires Complete(log)
    ensures Complete(Detect(log, name, attempt))
  {
    var log' := Detect(log, name, attempt);
    AppendNote(log.notes, Note(name, Occurrences(log', name), Detected));
    forall note
      ensures NoteFits(log', note)
    {
      assert NoteFits(log, note);
    }
  }

  lemma ResolveKeeps(log: Log, name: Name, actor: string, reason: string)
    requires Complete(log)
    ensures Complete(Resolve(log, name, actor, reason))
  {
    var log' := Resolve(log, name, actor, reason);
    if name in log.incidents && !log.incidents[name].resolved {
      AppendNote(log.notes, Note(name, Occurrences(log, name), Resolved));
      AppendResolution(log.resolutions, Resolution(name, actor, reason));
      assert NoteFits(log, Note(name, Occurrences(log, name), Resolved));
      forall note
        ensures NoteFits(log', note)
      {
        assert NoteFits(log, note);
      }
    }
  }

  // Runs.

  datatype Change =
    | Detection(name: Name, attempt: Option<string>)
    | Settlement(name: Name, actor: string, reason: string)

  function Apply(log: Log, c: Change): Log {
    match c
    case Detection(name, attempt) => Detect(log, name, attempt)
    case Settlement(name, actor, reason) => Resolve(log, name, actor, reason)
  }

  function Exec(log: Log, run: seq<Change>): Log
    decreases |run|
  {
    if run == [] then log else Exec(Apply(log, run[0]), run[1..])
  }

  lemma {:induction false} RunKeeps(log: Log, run: seq<Change>)
    requires Complete(log)
    ensures Complete(Exec(log, run))
    decreases |run|
  {
    if run != [] {
      match run[0] {
        case Detection(name, attempt) => DetectKeeps(log, name, attempt);
        case Settlement(name, actor, reason) => ResolveKeeps(log, name, actor, reason);
      }
      RunKeeps(Apply(log, run[0]), run[1..]);
    }
  }

  /** Each of n occurrences is announced once, and the last one is closed exactly if the incident is. */
  lemma NotificationsAreComplete(run: seq<Change>, name: Name, m: nat)
    ensures var log := Exec(NoIncidents, run);
            && (1 <= m <= Occurrences(log, name) ==> multiset(log.notes)[Note(name, m, Detected)] == 1)
            && multiset(log.notes)[Note(name, m, Resolved)] <= 1
            && (name in log.incidents ==>
                  (multiset(log.notes)[Note(name, Occurrences(log, name), Resolved)] == 1 <==> IsResolved(log, name)))
            && ResolvedNotes(log.notes, name) == ResolutionsOf(log.resolutions, name)
  {
    assert Complete(NoIncidents);
    RunKeeps(NoIncidents, run);
    var log := Exec(NoIncidents, run);
    assert NoteFits(log, Note(name, m, Detected)) && NoteFits(log, Note(name, m, Resolved));
    assert NoteFits(log, Note(name, Occurrences(log, name), Resolved));
  }

  /** The unique constraint on notifications never fires. */
  lemma NotificationsAreUnique(run: seq<Change>, note: Note)
    ensures multiset(Exec(NoIncidents, run).notes)[note] <= 1
  {
    assert Complete(NoIncidents);
    RunKeeps(NoIncidents, run);
    assert NoteFits(Exec(NoIncidents, run), note);
  }

  lemma {:induction false} ExecAppend(log: Log, run: seq<Change>, c: Change)
    ensures Exec(log, run + [c]) == Apply(Exec(log, run), c)
    decreases |run|
  {
    if run == [] {
      assert run + [c] == [c] && [c][1..] == [];
    } else {
      assert (run + [c])[0] == run[0] && (run + [c])[1..] == run[1..] + [c];
      ExecAppend(Apply(log, run[0]), run[1..], c);
    }
  }

  /** How often an incident was detected in a run. */
  function DetectionsIn(run: seq<Change>, name: Name): nat {
    if run == [] then 0
    else
      var last := run[|run| - 1];
      DetectionsIn(run[..|run| - 1], name) + if last.Detection? && last.name == name then 1 else 0
  }

  /** Over every run, an incident exists exactly if it was detected, and counts how often. */
  lemma {:induction false} DetectionsAreCounted(run: seq<Change>, name: Name)
    ensures var log := Exec(NoIncidents, run);
            && (name in log.incidents <==> DetectionsIn(run, name) > 0)
            && Occurrences(log, name) == DetectionsIn(run, name)
    decreases |run|
  {
    if run != [] {
      var n := |run| - 1;
      DetectionsAreCounted(run[..n], name);
      ExecAppend(NoIncidents, run[..n], run[n]);
      assert run[..n] + [run[n]] == run;
    }
  }

  /** A detection leaves its incident open, with the attempt it names and no resolution, and no other incident changes. */
  lemma DetectionsReopen(run: seq<Change>, name: Name, attempt: Option<string>)
    ensures var log, log' := Exec(NoIncidents, run), Exec(NoIncidents, run + [Detection(name, attempt)]);
            && log'.incidents - {name} == log.incidents - {name}
            && name in log'.incidents
            && log'.incidents[name] == Incident(attempt, false, DetectionsIn(run, name) + 1, None, None)
            && log'.resolutions == log.resolutions
  {
    ExecAppend(NoIncidents, run, Detection(name, attempt));
    DetectionsAreCounted(run, name);
  }

  /** A settlement closes an open incident in its own name and for its own reason, and nothing else. */
  lemma SettlementsClose(run: seq<Change>, name: Name, actor: string, reason: string)
    ensures var log, log' := Exec(NoIncidents, run), Exec(NoIncidents, run + [Settlement(name, actor, reason)]);
            var open := name in log.incidents && !log.incidents[name].resolved;
            && (!open ==> log' == log)
            && (open ==>
                  && log'.incidents - {name} == log.incidents - {name}
                  && name in log'.incidents
                  && log'.incidents[name] ==
                       Incident(log.incidents[name].attempt, true, DetectionsIn(run, name), Some(actor), Some(reason))
                  && log'.resolutions == log.resolutions + [Resolution(name, actor, reason)])
  {
    ExecAppend(NoIncidents, run, Settlement(name, actor, reason));
    DetectionsAreCounted(run, name);
  }

  // The service as it runs.

  function GroupsOf(scopes: set<Attempt>): set<(string, string)> {
    set a | a in scopes :: (a.tenant, a.cluster)
  }

  /** The changes record one detection for every group. */
  ghost predicate OnePerGroup(run: seq<Change>, candidate: nat, category: string, groups: set<(string, string)>) {
    && |run| == |groups|
    && (forall i :: 0 <= i < |run| ==> run[i].Detection?)
    && (forall g :: g in groups <==> Name(candidate, g.0, g.1, category) in NamesIn(run))
    && (forall n :: n in NamesIn(run) ==> n == Name(candidate, n.tenant, n.cluster, category))
  }

  ghost function NamesIn(run: seq<Change>): set<Name> {
    set i | 0 <= i < |run| :: run[i].name
  }

  function AttemptsIn(scopes: set<Attempt>, group: (string, string)): set<string> {
    set a | a in scopes && (a.tenant, a.cluster) == group :: a.name
  }

  /** The attempt an incident is about, where a group has just one. */
  method SoleAttempt(scopes: set<Attempt>, group: (string, string)) returns (attempt: Option<string>)
    ensures attempt.Some? <==> |AttemptsIn(scopes, group)| == 1
    ensures attempt.Some? ==> AttemptsIn(scopes, group) == {attempt.value}
  {
    var attempts := AttemptsIn(scopes, group);
    attempt := None;
    if |attempts| == 1 {
      var one :| one in attempts;
      assert |attempts - {one}| == 0;
      assert attempts == {one};
      attempt := Some(one);
    }
  }

  datatype Verdict = Done | Acknowledged | Refused

  class IncidentService {
    var incidents: map<Name, Incident>
    var notes: seq<Note>
    var resolutions: seq<Resolution>

    function View(): Log
      reads this
    {
      Log(incidents, notes, resolutions)
    }

    constructor ()
      ensures View() == NoIncidents
    {
      incidents, notes, resolutions := map[], [], [];
    }

    method DetectOne(name: Name, attempt: Option<string>)
      modifies this
      ensures View() == Detect(old(View()), name, attempt)
    {
      if name !in incidents {
        incidents := incidents[name := Incident(attempt, false, 1, None, None)];
      } else {
        var row := incidents[name];
        row := row.(
          resolved := false, attempt := attempt, occurrences := row.occurrences + 1, resolvedBy := None, resolution := None);
        incidents := incidents[name := row];
      }
      notes := notes + [Note(name, incidents[name].occurrences, Detected)];
    }

    method DetectGroup(candidate: nat, category: string, scopes: set<Attempt>, g: (string, string)) returns (ghost c: Change)
      modifies this
      ensures c.Detection? && c.name == Name(candidate, g.0, g.1, category)
      ensures c.attempt.Some? ==> AttemptsIn(scopes, g) == {c.attempt.value}
      ensures View() == Apply(old(View()), c)
    {
      var attempt := SoleAttempt(scopes, g);
      DetectOne(Name(candidate, g.0, g.1, category), attempt);
      c := Detection(Name(candidate, g.0, g.1, category), attempt);
    }

    /** Opens or reopens one incident for each tenant and cluster that refers to the object. */
    method RecordIncidents(candidate: nat, category: string, scopes: set<Attempt>) returns (count: nat, ghost run: seq<Change>)
      modifies this
      ensures View() == Exec(old(View()), run)
      ensures count == |GroupsOf(scopes)| && OnePerGroup(run, candidate, category, GroupsOf(scopes))
    {
      var groups := GroupsOf(scopes);
      count := |groups|;
      run := [];
      ghost var done: set<(string, string)> := {};
      while groups != {}
        invariant done !! groups && done + groups == GroupsOf(scopes)
        invariant View() == Exec(old(View()), run) && OnePerGroup(run, candidate, category, done)
        decreases |groups|
      {
        var g :| g in groups;
        ghost var c := DetectGroup(candidate, category, scopes, g);
        ExecAppend(old(View()), run, c);
        OneMoreGroup(run, candidate, category, done, g, c);
        run, done, groups := run + [c], done + {g}, groups - {g};
      }
      assert done == GroupsOf(scopes);
    }

    /** An incident is closed only once no scope of its own still misses the object. */
    method ResolveIncident(name: Name, actor: string, reason: string, scopes: set<Attempt>, restored: bool) returns (v: Verdict)
      modifies this
      ensures View() == if v == Done then Resolve(old(View()), name, actor, reason) else old(View())
      ensures v == Done <==>
        && name in old(incidents) && !old(incidents)[name].resolved
        && ((name.tenant, name.cluster) in GroupsOf(scopes) ==> restored)
      ensures v == Acknowledged <==>
        && name in old(incidents) && old(incidents)[name].resolved
        && old(incidents)[name].resolvedBy == Some(actor) && old(incidents)[name].resolution == Some(reason)
    {
      v := Refused;
      if name in incidents {
        var row := incidents[name];
        if row.resolved {
          v := if row.resolvedBy == Some(actor) && row.resolution == Some(reason) then Acknowledged else Refused;
        } else if (name.tenant, name.cluster) !in GroupsOf(scopes) || restored {
          incidents := incidents[name := row.(resolved := true, resolvedBy := Some(actor), resolution := Some(reason))];
          resolutions := resolutions + [Resolution(name, actor, reason)];
          notes := notes + [Note(name, row.occurrences, Resolved)];
          v := Done;
        }
      }
    }
  }

  lemma OneMoreGroup(run: seq<Change>, candidate: nat, category: string, done: set<(string, string)>, g: (string, string), c: Change)
    requires OnePerGroup(run, candidate, category, done) && g !in done
    requires c.Detection? && c.name == Name(candidate, g.0, g.1, category)
    ensures OnePerGroup(run + [c], candidate, category, done + {g})
  {
    assert NamesIn(run + [c]) == NamesIn(run) + {c.name} by {
      assert forall i :: 0 <= i < |run| ==> (run + [c])[i] == run[i];
      assert (run + [c])[|run|] == c;
    }
  }
}
