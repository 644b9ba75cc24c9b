/**
 Retention policies of one tenant's cluster: versioned revisions, cancellation before they take
 effect, assignment at first admission, and reviewed backfill of existing assignments.
 */
module Retention {
  import opened Prelude

  datatype Policy = Policy(scope: Option<string>, seconds: nat, effective: nat)

  datatype Cancellation = Cancellation(reason: string, actor: string)

  /** An attempt's retention as its record has it. */
  datatype Assignment = Assignment(logicalCase: Option<string>, first: nat, version: Option<nat>, expires: Option<nat>)

  /** What a backfill remembers of an attempt it changed. */
  datatype Item = Item(previousVersion: Option<nat>, previousExpires: Option<nat>, version: nat, expires: Option<nat>)

  /**
   Revisions are numbered from 1 as they are created and never removed: version v is the v-th.
   An erased attempt stays fenced and is not admitted again. `log` holds the items of each backfill.
   */
  datatype State = State(
    policies: seq<Policy>, cancelled: map<nat, Cancellation>, attempts: map<string, Assignment>,
    deletions: set<string>, erased: set<string>, log: seq<map<string, Item>>, clock: nat)

  const MaxSeconds := 315_360_000
  const Horizon := 366 * 24 * 3600

  function Expiry(first: nat, seconds: nat): Option<nat> {
    if seconds > 0 then Some(first + seconds) else None
  }

  // Which policy is in force.

  predicate Exists(s: State, v: nat) {
    1 <= v <= |s.policies|
  }

  function PolicyAt(s: State, v: nat): Policy
    requires Exists(s, v)
  {
    s.policies[v - 1]
  }

  predicate InForce(s: State, v: nat) {
    Exists(s, v) && PolicyAt(s, v).effective <= s.clock && v !in s.cancelled
  }

  predicate Applies(s: State, v: nat, logicalCase: Option<string>) {
    InForce(s, v) && (PolicyAt(s, v).scope.None? || PolicyAt(s, v).scope == logicalCase)
  }

  /** The order of the admission query: policies for the case first, then newer versions first. */
  predicate Precedes(s: State, v: nat, w: nat)
    requires Exists(s, v) && Exists(s, w)
  {
    || (PolicyAt(s, v).scope.Some? && PolicyAt(s, w).scope.None?)
    || (PolicyAt(s, v).scope.Some? == PolicyAt(s, w).scope.Some? && v > w)
  }

  ghost predicate FirstInOrder(s: State, v: nat, logicalCase: Option<string>) {
    Applies(s, v, logicalCase) && forall w: nat :: Applies(s, w, logicalCase) && w != v ==> Precedes(s, v, w)
  }

  /** The highest version in force with exactly this scope, as the API groups them. */
  ghost predicate ActiveFor(s: State, v: nat, scope: Option<string>) {
    && InForce(s, v) && PolicyAt(s, v).scope == scope
    && forall w: nat :: InForce(s, w) && PolicyAt(s, w).scope == scope ==> w <= v
  }

  datatype Status = CancelledStatus | Scheduled | ActiveStatus | Superseded

  /** The status the API shows, given the version it found active for the policy's scope. */
  function StatusOf(s: State, v: nat, active: Option<nat>): Status
    requires Exists(s, v)
  {
    if v in s.cancelled then CancelledStatus
    else if PolicyAt(s, v).effective > s.clock then Scheduled
    else if active == Some(v) then ActiveStatus
    else Superseded
  }

  ghost predicate ActiveVersion(s: State, scope: Option<string>, active: Option<nat>) {
    match active
    case Some(v) => ActiveFor(s, v, scope)
    case None => forall v: nat :: InForce(s, v) ==> PolicyAt(s, v).scope != scope
  }

  /** The label "active" goes to exactly the policy in force with the highest version of its scope. */
  lemma LabelledActiveExactly(s: State, v: nat, active: Option<nat>)
    requires Exists(s, v) && ActiveVersion(s, PolicyAt(s, v).scope, active)
    ensures StatusOf(s, v, active) == ActiveStatus <==> ActiveFor(s, v, PolicyAt(s, v).scope)
  {
  }

  lemma {:induction false} HighestOf(versions: set<nat>) returns (v: nat)
    requires versions != {}
    ensures v in versions && forall w :: w in versions ==> w <= v
    decreases |versions|
  {
    var x :| x in versions;
    v := x;
    if versions - {x} != {} {
      var u := HighestOf(versions - {x});
      v := if u > x then u else x;
    }
    assert forall w :: w in versions ==> w == x || w in versions - {x};
  }

  /** Some version is active for a scope exactly if a policy with that scope is in force. */
  lemma ActiveIffInForce(s: State, scope: Option<string>)
    ensures (exists v: nat :: ActiveFor(s, v, scope)) <==> exists v: nat :: InForce(s, v) && PolicyAt(s, v).scope == scope
  {
    if u: nat :| InForce(s, u) && PolicyAt(s, u).scope == scope {
      var versions := set v: nat | 1 <= v <= |s.policies| && InForce(s, v) && PolicyAt(s, v).scope == scope;
      assert u in versions;
      var v := HighestOf(versions);
      forall w: nat | InForce(s, w) && PolicyAt(s, w).scope == scope
        ensures w <= v
      {
        assert w in versions;
      }
      assert ActiveFor(s, v, scope);
    }
  }

  /** Admission picks the policy the API calls active for the case, else the one for the cluster. */
  lemma AdmissionUsesTheActivePolicy(s: State, v: nat, logicalCase: Option<string>)
    ensures FirstInOrder(s, v, logicalCase) <==>
      || (logicalCase.Some? && ActiveFor(s, v, logicalCase))
      || (ActiveFor(s, v, None) && (logicalCase.Some? ==> forall w: nat :: !ActiveFor(s, w, logicalCase)))
  {
    ActiveIffInForce(s, logicalCase);
    if FirstInOrder(s, v, logicalCase) {
      var scope := PolicyAt(s, v).scope;
      forall w: nat | InForce(s, w) && PolicyAt(s, w).scope == scope
        ensures w <= v
      {
        assert Applies(s, w, logicalCase);
      }
      if scope.None? && logicalCase.Some? {
        forall w: nat
          ensures !ActiveFor(s, w, logicalCase)
        {
          assert InForce(s, w) && PolicyAt(s, w).scope == logicalCase ==> Applies(s, w, logicalCase);
        }
      }
    }
  }

  // The transactions.

  datatype Step =
    | Tick(seconds: nat)
    | Create(scope: Option<string>, seconds: nat, effective: Option<nat>)
    | Cancel(version: nat, cause: string, actor: string)
    | Admit(attempt: string, logicalCase: Option<string>, policy: Option<nat>)
    | Delete(attempt: string)
    | Erase(attempt: string)
    | Backfill(version: nat, source: Option<nat>, reason: Option<string>, limit: nat, expected: Preview)

  predicate Creatable(s: State, seconds: nat, effective: Option<nat>) {
    (seconds == 0 || 3600 <= seconds <= MaxSeconds) && (effective.Some? ==> effective.value <= s.clock + Horizon)
  }

  function Created(s: State, scope: Option<string>, seconds: nat, effective: Option<nat>): State {
    if !Creatable(s, seconds, effective) then s
    else s.(policies := s.policies + [Policy(scope, seconds, if effective.Some? then effective.value else s.clock)])
  }

  /** A revision can be cancelled once, and only before it takes effect. */
  function CancelledBy(s: State, v: nat, reason: string, actor: string): State {
    if !Exists(s, v) || v in s.cancelled || PolicyAt(s, v).effective <= s.clock then s
    else s.(cancelled := s.cancelled[v := Cancellation(reason, actor)])
  }

  /** What the admission query finds. */
  ghost predicate Finds(s: State, logicalCase: Option<string>, policy: Option<nat>) {
    match policy
    case Some(v) => FirstInOrder(s, v, logicalCase)
    case None => forall v: nat :: !Applies(s, v, logicalCase)
  }

  /** The first admission assigns a policy; later ones can only supply a case that was not known. */
  function Admitted(s: State, defaults: nat, a: string, logicalCase: Option<string>, policy: Option<nat>): State {
    if a in s.attempts then
      var r := s.attempts[a];
      if r.logicalCase.None? then s.(attempts := s.attempts[a := r.(logicalCase := logicalCase)]) else s
    else if a in s.erased then s
    else
      var seconds := if policy.Some? && Exists(s, policy.value) then PolicyAt(s, policy.value).seconds else defaults;
      s.(attempts := s.attempts[a := Assignment(logicalCase, s.clock, policy, Expiry(s.clock, seconds))])
  }

  datatype Reviewed = Reviewed(first: nat, version: Option<nat>, expires: Option<nat>)

  /** What a preview shows and its digest pins: the attempts that would change, and how many are due at once. */
  datatype Preview = Preview(eligible: map<string, Reviewed>, due: nat)

  datatype Decision = Shown(preview: Preview) | Refused(error: string)

  predicate Eligible(s: State, a: string, scope: Option<string>, source: Option<nat>) {
    && a in s.attempts && a !in s.deletions && s.attempts[a].version == source
    && (scope.Some? ==> s.attempts[a].logicalCase == scope)
  }

  function Candidates(s: State, scope: Option<string>, source: Option<nat>): set<string> {
    set a | a in s.attempts && Eligible(s, a, scope, source)
  }

  function ReviewOf(r: Assignment): Reviewed {
    Reviewed(r.first, r.version, r.expires)
  }

  function DueNow(s: State, candidates: set<string>, seconds: nat): nat {
    |set a | a in candidates && DueAt(s, a, seconds)|
  }

  predicate DueAt(s: State, a: string, seconds: nat) {
    a in s.attempts && seconds > 0 && s.attempts[a].first + seconds <= s.clock
  }

  function PreviewOf(s: State, scope: Option<string>, source: Option<nat>, seconds: nat): Preview {
    var candidates := Candidates(s, scope, source);
    Preview(map a | a in candidates :: ReviewOf(s.attempts[a]), DueNow(s, candidates, seconds))
  }

  function Decide(s: State, v: nat, source: Option<nat>, reason: Option<string>, limit: nat): Decision {
    if !(1 <= limit <= 1000) then Refused("max_attempts must be within [1, 1000]")
    else if !Exists(s, v) then Refused("retention policy revision does not exist")
    else if v in s.cancelled then Refused("retention policy revision is cancelled")
    else if PolicyAt(s, v).effective > s.clock then Refused("retention policy revision is not yet effective")
    else if source == Some(v) then Refused("source and target policy revisions must differ")
    else if source.Some? && !(reason.Some? && 1 <= |reason.value| <= 512) then Refused("versioned migration requires a reason")
    else if source.Some? && !Exists(s, source.value) then Refused("source retention policy revision does not exist")
    else if source.Some? && PolicyAt(s, source.value).scope != PolicyAt(s, v).scope then
      Refused("source and target policy revisions must have the same scope")
    else if source.None? && reason.Some? then Refused("legacy backfill cannot include a migration reason")
    else
      var candidates := Candidates(s, PolicyAt(s, v).scope, source);
      if |candidates| > limit then Refused("eligible attempts exceed max_attempts")
      else Shown(PreviewOf(s, PolicyAt(s, v).scope, source, PolicyAt(s, v).seconds))
  }

  function Moved(r: Assignment, v: nat, seconds: nat): Assignment {
    r.(version := Some(v), expires := Expiry(r.first, seconds))
  }

  function Reassigned(attempts: map<string, Assignment>, chosen: set<string>, v: nat, seconds: nat): map<string, Assignment> {
    map a | a in attempts :: if a in chosen then Moved(attempts[a], v, seconds) else attempts[a]
  }

  /** A backfill is applied only if a new preview is exactly the reviewed one. */
  predicate Confirmed(s: State, v: nat, source: Option<nat>, reason: Option<string>, limit: nat, expected: Preview) {
    Decide(s, v, source, reason, limit) == Shown(expected)
  }

  function Backfilled(s: State, v: nat, source: Option<nat>, reason: Option<string>, limit: nat, expected: Preview): State {
    if !Confirmed(s, v, source, reason, limit, expected) then s
    else s.(
      attempts := Reassigned(s.attempts, expected.eligible.Keys, v, PolicyAt(s, v).seconds),
      log := s.log + [ItemsOf(s.attempts, expected.eligible.Keys, v, PolicyAt(s, v).seconds)])
  }

  function Apply(s: State, defaults: nat, step: Step): State {
    match step
    case Tick(d) => s.(clock := s.clock + d)
    case Create(scope, seconds, effective) => Created(s, scope, seconds, effective)
    case Cancel(v, reason, actor) => CancelledBy(s, v, reason, actor)
    case Admit(a, logicalCase, policy) => Admitted(s, defaults, a, logicalCase, policy)
    case Delete(a) => s.(deletions := s.deletions + {a})
    case Erase(a) => s.(attempts := s.attempts - {a}, erased := s.erased + {a})
    case Backfill(v, source, reason, limit, expected) => Backfilled(s, v, source, reason, limit, expected)
  }

  // Assignments stay justified.

  ghost predicate Justified(s: State, defaults: nat, r: Assignment) {
    match r.version
    case None => r.expires == Expiry(r.first, defaults)
    case Some(v) =>
      && InForce(s, v)
      && (PolicyAt(s, v).scope.Some? ==> PolicyAt(s, v).scope == r.logicalCase)
      && r.expires == Expiry(r.first, PolicyAt(s, v).seconds)
  }

  ghost predicate Inv(s: State, defaults: nat) {
    forall a :: a in s.attempts ==> Justified(s, defaults, s.attempts[a])
  }

  /** The query's answer is not the caller's choice. */
  ghost predicate Truthful(s: State, step: Step) {
    step.Admit? && step.attempt !in s.attempts ==> Finds(s, step.logicalCase, step.policy)
  }

  /** What is in force stays in force, with the same terms. */
  ghost predicate Lasting(s: State, s': State) {
    forall v: nat :: InForce(s, v) ==> InForce(s', v) && PolicyAt(s', v) == PolicyAt(s, v)
  }

  lemma StepLasts(s: State, defaults: nat, step: Step)
    ensures Lasting(s, Apply(s, defaults, step))
  {
  }

  lemma StepJustified(s: State, defaults: nat, step: Step)
    requires Inv(s, defaults) && Truthful(s, step)
    ensures Inv(Apply(s, defaults, step), defaults)
  {
    var s' := Apply(s, defaults, step);
    forall a | a in s'.attempts
      ensures Justified(s', defaults, s'.attempts[a])
    {
      AttemptJustified(s, defaults, step, a);
    }
  }

  lemma AttemptJustified(s: State, defaults: nat, step: Step, a: string)
    requires Truthful(s, step) && a in Apply(s, defaults, step).attempts
    requires a in s.attempts ==> Justified(s, defaults, s.attempts[a])
    ensures var s' := Apply(s, defaults, step); Justified(s', defaults, s'.attempts[a])
  {
    StepLasts(s, defaults, step);
    if step.Backfill? {
      MovedJustified(s, defaults, step.version, step.source, step.reason, step.limit, step.expected, a);
    }
  }

  /** A backfill moves an attempt only to a policy in force whose scope it has. */
  lemma MovedJustified(
    s: State, defaults: nat, v: nat, source: Option<nat>, reason: Option<string>, limit: nat, expected: Preview, a: string)
    requires a in s.attempts && Justified(s, defaults, s.attempts[a])
    ensures var s' := Backfilled(s, v, source, reason, limit, expected);
            a in s'.attempts && Justified(s', defaults, s'.attempts[a])
  {
  }

  function Exec(s: State, defaults: nat, run: seq<Step>): State
    decreases |run|
  {
    if run == [] then s else Exec(Apply(s, defaults, run[0]), defaults, run[1..])
  }

  ghost predicate TruthfulRun(s: State, defaults: nat, run: seq<Step>)
    decreases |run|
  {
    run == [] || (Truthful(s, run[0]) && TruthfulRun(Apply(s, defaults, run[0]), defaults, run[1..]))
  }

  lemma {:induction false} RunJustified(s: State, defaults: nat, run: seq<Step>)
    requires Inv(s, defaults) && TruthfulRun(s, defaults, run)
    ensures Inv(Exec(s, defaults, run), defaults)
    decreases |run|
  {
    if run != [] {
      StepJustified(s, defaults, run[0]);
      RunJustified(Apply(s, defaults, run[0]), defaults, run[1..]);
    }
  }

  const Empty := State([], map[], map[], {}, {}, [], 0)

  /** In every reachable state a recorded version is in force, fits the attempt, and explains its expiry. */
  lemma AssignmentsStayJustified(defaults: nat, run: seq<Step>, a: string)
    requires TruthfulRun(Empty, defaults, run) && a in Exec(Empty, defaults, run).attempts
    ensures var s := Exec(Empty, defaults, run); Justified(s, defaults, s.attempts[a])
  {
    RunJustified(Empty, defaults, run);
  }

  // Backfill does exactly what was reviewed.

  /** Each reviewed attempt is as it was reviewed and moves to the policy; nothing else changes. */
  lemma BackfillAppliesWhatWasReviewed(
    s: State, v: nat, source: Option<nat>, reason: Option<string>, limit: nat, expected: Preview, a: string)
    requires Confirmed(s, v, source, reason, limit, expected)
    ensures var s' := Backfilled(s, v, source, reason, limit, expected);
            && s'.attempts.Keys == s.attempts.Keys && s' == s.(attempts := s'.attempts, log := s'.log)
            && (a in expected.eligible ==>
                  && a in s.attempts && a !in s.deletions && ReviewOf(s.attempts[a]) == expected.eligible[a]
                  && s'.attempts[a] == s.attempts[a].(version := Some(v), expires := Expiry(s.attempts[a].first, PolicyAt(s, v).seconds)))
            && (a in s.attempts && a !in expected.eligible ==> s'.attempts[a] == s.attempts[a])
  {
  }

  /** Between a preview and the backfill that it confirms, no reviewed assignment has changed. */
  lemma NothingChangedSinceTheReview(
    s: State, s': State, v: nat, source: Option<nat>, reason: Option<string>, limit: nat, expected: Preview, a: string)
    requires Decide(s, v, source, reason, limit) == Shown(expected) && Confirmed(s', v, source, reason, limit, expected)
    ensures Candidates(s, PolicyAt(s, v).scope, source) == Candidates(s', PolicyAt(s', v).scope, source) == expected.eligible.Keys
    ensures a in expected.eligible ==> a in s.attempts && a in s'.attempts && ReviewOf(s.attempts[a]) == ReviewOf(s'.attempts[a])
  {
    CandidatesAreEligible(s, v, source, reason, limit, expected);
    CandidatesAreEligible(s', v, source, reason, limit, expected);
  }

  lemma CandidatesAreEligible(s: State, v: nat, source: Option<nat>, reason: Option<string>, limit: nat, expected: Preview)
    requires Confirmed(s, v, source, reason, limit, expected)
    ensures Candidates(s, PolicyAt(s, v).scope, source) == expected.eligible.Keys
    ensures forall a :: a in expected.eligible ==> a in s.attempts && expected.eligible[a] == ReviewOf(s.attempts[a])
  {
  }

  /** An attempt that is to be deleted is never touched. */
  lemma BackfillSparesDeletions(s: State, v: nat, source: Option<nat>, reason: Option<string>, limit: nat, expected: Preview, a: string)
    requires a in s.attempts && a in s.deletions
    ensures var s' := Backfilled(s, v, source, reason, limit, expected); a in s'.attempts && s'.attempts[a] == s.attempts[a]
  {
  }

  /** The same preview right after a backfill has nothing left to do. */
  lemma SecondPreviewIsEmpty(s: State, v: nat, source: Option<nat>, reason: Option<string>, limit: nat, expected: Preview)
    requires Confirmed(s, v, source, reason, limit, expected)
    ensures var s' := Backfilled(s, v, source, reason, limit, expected);
            Decide(s', v, source, reason, limit) == Shown(Preview(map[], 0))
  {
    var s' := Backfilled(s, v, source, reason, limit, expected);
    var scope := PolicyAt(s, v).scope;
    assert Candidates(s', scope, source) == {} by {
      forall a | a in s'.attempts
        ensures !Eligible(s', a, scope, source)
      {
        assert a in expected.eligible <==> Eligible(s, a, scope, source);
      }
    }
    assert Decide(s', v, source, reason, limit).Shown?;
    NoneDue(s', PolicyAt(s', v).seconds);
  }

  lemma NoneDue(s: State, seconds: nat)
    ensures DueNow(s, {}, seconds) == 0
  {
    var none: set<string> := {};
    assert (set a | a in none && DueAt(s, a, seconds)) == {};
  }

  function ItemsOf(attempts: map<string, Assignment>, chosen: set<string>, v: nat, seconds: nat): map<string, Item> {
    map a | a in attempts && a in chosen ::
      Item(attempts[a].version, attempts[a].expires, v, Expiry(attempts[a].first, seconds))
  }

  /** Taking the recorded items back. */
  function Undone(attempts: map<string, Assignment>, items: map<string, Item>): map<string, Assignment> {
    map a | a in attempts ::
      if a in items then attempts[a].(version := items[a].previousVersion, expires := items[a].previousExpires) else attempts[a]
  }

  /** The items of a backfill suffice to restore every assignment it changed. */
  lemma ItemsUndoTheBackfill(attempts: map<string, Assignment>, chosen: set<string>, v: nat, seconds: nat)
    ensures Undone(Reassigned(attempts, chosen, v, seconds), ItemsOf(attempts, chosen, v, seconds)) == attempts
  {
  }

  // The log of all backfills takes every attempt back to its first assignment.

  function Restored(r: Assignment, a: string, items: map<string, Item>): Assignment {
    if a in items then r.(version := items[a].previousVersion, expires := items[a].previousExpires) else r
  }

  /** Undoes the logged backfills, the last one first. */
  function Rewound(r: Assignment, a: string, log: seq<map<string, Item>>): Assignment
    decreases |log|
  {
    if log == [] then r else Rewound(Restored(r, a, log[|log| - 1]), a, log[..|log| - 1])
  }

  /** The log speaks of attempts that have a record, or had one. */
  ghost predicate Logged(s: State) {
    forall i, a :: 0 <= i < |s.log| && a in s.log[i] ==> a in s.attempts || a in s.erased
  }

  lemma StepLogged(s: State, defaults: nat, step: Step)
    requires Logged(s)
    ensures Logged(Apply(s, defaults, step)) && s.erased <= Apply(s, defaults, step).erased
  {
  }

  lemma {:induction false} RunLogged(s: State, defaults: nat, run: seq<Step>)
    requires Logged(s)
    ensures Logged(Exec(s, defaults, run)) && s.erased <= Exec(s, defaults, run).erased
    decreases |run|
  {
    if run != [] {
      StepLogged(s, defaults, run[0]);
      RunLogged(Apply(s, defaults, run[0]), defaults, run[1..]);
    }
  }

  lemma {:induction false} UnloggedStays(r: Assignment, a: string, log: seq<map<string, Item>>)
    requires forall i :: 0 <= i < |log| ==> a !in log[i]
    ensures Rewound(r, a, log) == r
    decreases |log|
  {
    if log != [] {
      UnloggedStays(r, a, log[..|log| - 1]);
    }
  }

  /** Rewinding only replaces version and expiry, and does not look at the case. */
  lemma {:induction false} RewoundIgnoresCase(r: Assignment, a: string, log: seq<map<string, Item>>, logicalCase: Option<string>)
    ensures Rewound(r.(logicalCase := logicalCase), a, log) == Rewound(r, a, log).(logicalCase := logicalCase)
    decreases |log|
  {
    if log != [] {
      RewoundIgnoresCase(Restored(r, a, log[|log| - 1]), a, log[..|log| - 1], logicalCase);
    }
  }

  lemma BackfillRewinds(s: State, v: nat, source: Option<nat>, reason: Option<string>, limit: nat, expected: Preview, a: string)
    requires a in s.attempts
    ensures var s' := Backfilled(s, v, source, reason, limit, expected);
            a in s'.attempts && Rewound(s'.attempts[a], a, s'.log) == Rewound(s.attempts[a], a, s.log)
  {
    var s' := Backfilled(s, v, source, reason, limit, expected);
    if Confirmed(s, v, source, reason, limit, expected) {
      assert s'.log[..|s'.log| - 1] == s.log;
      assert Restored(s'.attempts[a], a, s'.log[|s'.log| - 1]) == s.attempts[a];
    }
  }

  /** What rewinding an attempt's assignment gives does not change while the attempt has a record. */
  lemma StepRewinds(s: State, defaults: nat, step: Step, a: string)
    requires a in s.attempts && a in Apply(s, defaults, step).attempts
    ensures var s' := Apply(s, defaults, step);
            ReviewOf(Rewound(s'.attempts[a], a, s'.log)) == ReviewOf(Rewound(s.attempts[a], a, s.log))
  {
    if step.Backfill? {
      BackfillRewinds(s, step.version, step.source, step.reason, step.limit, step.expected, a);
    } else if step.Admit? {
      RewoundIgnoresCase(s.attempts[a], a, s.log, step.logicalCase);
    }
  }

  lemma {:induction false} RunRewinds(s: State, defaults: nat, run: seq<Step>, a: string)
    requires Logged(s) && a in s.attempts && a in Exec(s, defaults, run).attempts
    ensures var s' := Exec(s, defaults, run);
            ReviewOf(Rewound(s'.attempts[a], a, s'.log)) == ReviewOf(Rewound(s.attempts[a], a, s.log))
    decreases |run|
  {
    if run != [] {
      var s1 := Apply(s, defaults, run[0]);
      StepLogged(s, defaults, run[0]);
      if a !in s1.attempts {
        ErasedStaysAway(s1, defaults, run[1..], a);
      } else {
        StepRewinds(s, defaults, run[0], a);
        RunRewinds(s1, defaults, run[1..], a);
      }
    }
  }

  lemma {:induction false} ErasedStaysAway(s: State, defaults: nat, run: seq<Step>, a: string)
    requires a in s.erased && a !in s.attempts
    ensures a !in Exec(s, defaults, run).attempts
    decreases |run|
  {
    if run != [] {
      ErasedStaysAway(Apply(s, defaults, run[0]), defaults, run[1..], a);
    }
  }

  /**
   Over every run, undoing the logged backfills in reverse gives each attempt the version, expiry and
   admission time that its first admission recorded.
   */
  lemma LogRestoresFirstAssignments(
    defaults: nat, run: seq<Step>, a: string, logicalCase: Option<string>, policy: Option<nat>, later: seq<Step>)
    requires a !in Exec(Empty, defaults, run).attempts
    requires var s := Apply(Exec(Empty, defaults, run), defaults, Admit(a, logicalCase, policy));
             a in s.attempts && a in Exec(s, defaults, later).attempts
    ensures var s := Apply(Exec(Empty, defaults, run), defaults, Admit(a, logicalCase, policy));
            var s' := Exec(s, defaults, later);
            ReviewOf(Rewound(s'.attempts[a], a, s'.log)) == ReviewOf(s.attempts[a])
  {
    var s0 := Exec(Empty, defaults, run);
    var s := Apply(s0, defaults, Admit(a, logicalCase, policy));
    RunLogged(Empty, defaults, run);
    StepLogged(s0, defaults, Admit(a, logicalCase, policy));
    UnloggedStays(s.attempts[a], a, s.log);
    RunRewinds(s, defaults, later, a);
  }

  // When a reviewed backfill is refused.

  /** Revisions are only added, time only passes, and what is in force stays so. */
  ghost predicate Extends(s: State, s': State) {
    && s.clock <= s'.clock
    && Lasting(s, s')
    && (forall v: nat :: Exists(s, v) ==> Exists(s', v) && PolicyAt(s', v) == PolicyAt(s, v))
  }

  lemma {:induction false} RunExtends(s: State, defaults: nat, run: seq<Step>)
    ensures Extends(s, Exec(s, defaults, run))
    decreases |run|
  {
    if run != [] {
      StepLasts(s, defaults, run[0]);
      RunExtends(Apply(s, defaults, run[0]), defaults, run[1..]);
    }
  }

  /** The deadline that a policy gives an attempt passed between two moments. */
  predicate CameDue(r: Assignment, seconds: nat, before: nat, after: nat) {
    seconds > 0 && before < r.first + seconds <= after
  }

  /** The same attempts are eligible, with the same assignments, and none of them came due meanwhile. */
  ghost predicate AsReviewed(s: State, s': State, scope: Option<string>, source: Option<nat>, seconds: nat) {
    && Candidates(s, scope, source) == Candidates(s', scope, source)
    && forall a :: a in Candidates(s, scope, source) && a in s'.attempts ==>
         ReviewOf(s.attempts[a]) == ReviewOf(s'.attempts[a]) && !CameDue(s.attempts[a], seconds, s.clock, s'.clock)
  }

  /** Where the assignments are the same, the count of due attempts grows exactly with those that came due. */
  lemma DueGrows(s: State, s': State, candidates: set<string>, seconds: nat)
    requires s.clock <= s'.clock && candidates <= s.attempts.Keys && candidates <= s'.attempts.Keys
    requires forall a :: a in candidates ==> s.attempts[a].first == s'.attempts[a].first
    ensures DueNow(s, candidates, seconds) == DueNow(s', candidates, seconds) <==>
              forall a :: a in candidates ==> !CameDue(s.attempts[a], seconds, s.clock, s'.clock)
  {
    var x := set a | a in candidates && DueAt(s, a, seconds);
    var y := set a | a in candidates && DueAt(s', a, seconds);
    assert x <= y;
    if a :| a in candidates && CameDue(s.attempts[a], seconds, s.clock, s'.clock) {
      assert a in y - x;
      assert |y| == |x| + |y - x|;
    } else {
      assert x == y;
    }
  }

  lemma DecidedFromTheSamePolicy(s: State, s': State, v: nat, source: Option<nat>, reason: Option<string>, limit: nat)
    requires Extends(s, s') && Decide(s, v, source, reason, limit).Shown?
    ensures InForce(s, v) && PolicyAt(s', v) == PolicyAt(s, v)
    ensures var scope, seconds := PolicyAt(s, v).scope, PolicyAt(s, v).seconds;
            Decide(s', v, source, reason, limit) ==
              if |Candidates(s', scope, source)| > limit then Refused("eligible attempts exceed max_attempts")
              else Shown(PreviewOf(s', scope, source, seconds))
  {
  }

  /**
   After any run, a reviewed backfill goes through exactly if the same attempts are eligible with the same
   assignments and none of them came due since the preview; otherwise it is refused as stale.
   */
  lemma RefusedExactlyIfStale(
    s: State, defaults: nat, run: seq<Step>, v: nat, source: Option<nat>, reason: Option<string>, limit: nat, expected: Preview)
    requires Decide(s, v, source, reason, limit) == Shown(expected)
    ensures var s' := Exec(s, defaults, run);
            Confirmed(s', v, source, reason, limit, expected) <==>
              AsReviewed(s, s', PolicyAt(s, v).scope, source, PolicyAt(s, v).seconds)
  {
    var s' := Exec(s, defaults, run);
    RunExtends(s, defaults, run);
    DecidedFromTheSamePolicy(s, s', v, source, reason, limit);
    DecidedFromTheSamePolicy(s, s, v, source, reason, limit);
    PreviewsAgree(s, s', PolicyAt(s, v).scope, source, PolicyAt(s, v).seconds);
  }

  lemma PreviewsAgree(s: State, s': State, scope: Option<string>, source: Option<nat>, seconds: nat)
    requires s.clock <= s'.clock
    ensures PreviewOf(s, scope, source, seconds) == PreviewOf(s', scope, source, seconds) <==>
              AsReviewed(s, s', scope, source, seconds)
  {
    var p, p' := PreviewOf(s, scope, source, seconds), PreviewOf(s', scope, source, seconds);
    var x, y := Candidates(s, scope, source), Candidates(s', scope, source);
    assert p.eligible.Keys == x && p'.eligible.Keys == y;
    assert forall a :: a in x ==> p.eligible[a] == ReviewOf(s.attempts[a]);
    assert forall a :: a in y ==> p'.eligible[a] == ReviewOf(s'.attempts[a]);
    if p.eligible == p'.eligible {
      DueGrows(s, s', x, seconds);
    }
  }

  // What becomes of revisions, assignments and previews.

  /**
   A revision with lawful terms is added as the next version, and from then on it is in force exactly from its
   effective time on, unless it was cancelled; any other is refused.
   */
  lemma RevisionsTakeEffectInTime(
    s: State, defaults: nat, scope: Option<string>, seconds: nat, effective: Option<nat>, later: seq<Step>)
    ensures var s' := Apply(s, defaults, Create(scope, seconds, effective));
            var v, start := |s.policies| + 1, if effective.Some? then effective.value else s.clock;
            var lawful := (seconds == 0 || 3600 <= seconds <= 315_360_000) && start <= s.clock + 31_622_400;
            var s2 := Exec(s', defaults, later);
            && (!lawful ==> s' == s)
            && (lawful ==>
                  && Exists(s2, v) && PolicyAt(s2, v).scope == scope && PolicyAt(s2, v).seconds == seconds
                  && (InForce(s2, v) <==> start <= s2.clock && v !in s2.cancelled))
  {
    RunExtends(Apply(s, defaults, Create(scope, seconds, effective)), defaults, later);
  }

  lemma {:induction false} CancellationsLast(s: State, defaults: nat, run: seq<Step>, v: nat)
    requires v in s.cancelled
    ensures var s' := Exec(s, defaults, run); v in s'.cancelled && s'.cancelled[v] == s.cancelled[v]
    decreases |run|
  {
    if run != [] {
      CancellationsLast(Apply(s, defaults, run[0]), defaults, run[1..], v);
    }
  }

  /** A revision that has not taken effect can be cancelled, and then it never does; one that has cannot. */
  lemma CancelledBeforeTheirTime(s: State, defaults: nat, v: nat, cause: string, actor: string, later: seq<Step>)
    requires Exists(s, v) && v !in s.cancelled
    ensures var s' := Apply(s, defaults, Cancel(v, cause, actor));
            var s2 := Exec(s', defaults, later);
            && (InForce(s, v) ==> s' == s && InForce(s2, v))
            && (!InForce(s, v) ==>
                  v in s2.cancelled && s2.cancelled[v] == Cancellation(cause, actor) && !InForce(s2, v))
  {
    var s' := Apply(s, defaults, Cancel(v, cause, actor));
    if InForce(s, v) {
      RunExtends(s', defaults, later);
    } else {
      CancellationsLast(s', defaults, later, v);
    }
  }

  /** The labels that are not "active": withdrawn, still to come, or replaced by a newer version in force. */
  lemma LabelsExactly(s: State, v: nat, active: Option<nat>)
    requires Exists(s, v) && ActiveVersion(s, PolicyAt(s, v).scope, active)
    ensures StatusOf(s, v, active) == CancelledStatus <==> v in s.cancelled
    ensures StatusOf(s, v, active) == Scheduled <==> v !in s.cancelled && !InForce(s, v)
    ensures StatusOf(s, v, active) == Superseded <==>
      InForce(s, v) && exists w: nat :: v < w && InForce(s, w) && PolicyAt(s, w).scope == PolicyAt(s, v).scope
  {
  }

  /** The admission time never changes, and a case that is known never changes. */
  lemma {:induction false} AdmissionsLast(s: State, defaults: nat, run: seq<Step>, a: string)
    requires a in s.attempts && a in Exec(s, defaults, run).attempts
    ensures var r, r' := s.attempts[a], Exec(s, defaults, run).attempts[a];
            r'.first == r.first && (r.logicalCase.Some? ==> r'.logicalCase == r.logicalCase)
    decreases |run|
  {
    if run != [] {
      var s1 := Apply(s, defaults, run[0]);
      if a !in s1.attempts {
        ErasedStaysAway(s1, defaults, run[1..], a);
      } else {
        AdmissionsLast(s1, defaults, run[1..], a);
      }
    }
  }

  /**
   Over every run: the first admission records its time, its case, the version that is active for the case,
   and a deadline that many seconds away; of later admissions only a case that was not known has an effect.
   */
  lemma AdmissionsAssignOnce(
    s: State, defaults: nat, a: string, logicalCase: Option<string>, policy: Option<nat>,
    later: seq<Step>, again: Option<string>, found: Option<nat>)
    requires a !in s.attempts && a !in s.erased && Finds(s, logicalCase, policy)
    requires a in Exec(Apply(s, defaults, Admit(a, logicalCase, policy)), defaults, later).attempts
    ensures var s1 := Apply(s, defaults, Admit(a, logicalCase, policy));
            var s2 := Exec(s1, defaults, later);
            var s3 := Apply(s2, defaults, Admit(a, again, found));
            var seconds := if policy.Some? then PolicyAt(s, policy.value).seconds else defaults;
            && s1.attempts == s.attempts[a := s1.attempts[a]]
            && s1.attempts[a].first == s.clock && s1.attempts[a].logicalCase == logicalCase
            && s1.attempts[a].version == policy
            && s1.attempts[a].expires == (if seconds == 0 then None else Some(s.clock + seconds))
            && s2.attempts[a].first == s.clock
            && (logicalCase.Some? ==> s2.attempts[a].logicalCase == logicalCase)
            && s3.attempts == s2.attempts[a := s3.attempts[a]]
            && ReviewOf(s3.attempts[a]) == ReviewOf(s2.attempts[a])
            && s3.attempts[a].logicalCase == (if s2.attempts[a].logicalCase.Some? then s2.attempts[a].logicalCase else again)
  {
    var s1 := Apply(s, defaults, Admit(a, logicalCase, policy));
    AdmissionsLast(s1, defaults, later, a);
    var s2 := Exec(s1, defaults, later);
    assert s2.attempts == s2.attempts[a := s2.attempts[a]];
  }

  /** Once its deletion was requested, no backfill changes the version or the deadline of an attempt. */
  lemma NothingMovesWhatIsToBeDeleted(s: State, defaults: nat, later: seq<Step>, a: string)
    requires a in s.attempts
    requires a in Exec(Apply(s, defaults, Delete(a)), defaults, later).attempts
    ensures ReviewOf(Exec(Apply(s, defaults, Delete(a)), defaults, later).attempts[a]) == ReviewOf(s.attempts[a])
  {
    MarkedStays(Apply(s, defaults, Delete(a)), defaults, later, a);
  }

  lemma {:induction false} MarkedStays(s: State, defaults: nat, run: seq<Step>, a: string)
    requires a in s.attempts && a in s.deletions && a in Exec(s, defaults, run).attempts
    ensures ReviewOf(Exec(s, defaults, run).attempts[a]) == ReviewOf(s.attempts[a])
    decreases |run|
  {
    if run != [] {
      var s1 := Apply(s, defaults, run[0]);
      if a !in s1.attempts {
        ErasedStaysAway(s1, defaults, run[1..], a);
      } else {
        if run[0].Backfill? {
          BackfillSparesDeletions(s, run[0].version, run[0].source, run[0].reason, run[0].limit, run[0].expected, a);
        }
        MarkedStays(s1, defaults, run[1..], a);
      }
    }
  }

  /** The attempts of the policy's scope that are assigned as the source says and not to be deleted. */
  ghost predicate Meant(s: State, v: nat, source: Option<nat>, a: string)
    requires Exists(s, v)
  {
    && a in s.attempts && a !in s.deletions
    && s.attempts[a].version == source
    && (PolicyAt(s, v).scope == None || PolicyAt(s, v).scope == s.attempts[a].logicalCase)
  }

  /** A migration says why and stays in the scope; what was assigned no policy is moved without a reason. */
  ghost predicate Warranted(s: State, v: nat, source: Option<nat>, reason: Option<string>)
    requires Exists(s, v)
  {
    match source
    case None => reason == None
    case Some(u) =>
      && u != v && Exists(s, u) && PolicyAt(s, u).scope == PolicyAt(s, v).scope
      && reason.Some? && 0 < |reason.value| <= 512
  }

  /** A preview is shown exactly for a policy in force, a warranted request and no more attempts than the limit. */
  lemma PreviewsAreShownExactly(s: State, v: nat, source: Option<nat>, reason: Option<string>, limit: nat)
    ensures Decide(s, v, source, reason, limit).Shown? <==>
      && InForce(s, v) && Warranted(s, v, source, reason) && 1 <= limit <= 1000
      && |set a | a in s.attempts && Meant(s, v, source, a)| <= limit
  {
    if Exists(s, v) {
      assert Candidates(s, PolicyAt(s, v).scope, source) == set a | a in s.attempts && Meant(s, v, source, a);
    }
  }

  /**
   A confirmed backfill moves exactly the attempts that are meant, and the due attempts of its preview are as
   many as it leaves with a deadline that has passed.
   */
  lemma PreviewsTellTheOutcome(s: State, v: nat, source: Option<nat>, reason: Option<string>, limit: nat, expected: Preview)
    requires Confirmed(s, v, source, reason, limit, expected)
    ensures var s' := Backfilled(s, v, source, reason, limit, expected);
            && (forall a :: a in s.attempts ==>
                  a in s'.attempts && s'.attempts[a].version == if Meant(s, v, source, a) then Some(v) else s.attempts[a].version)
            && expected.due ==
                 |set a | a in s'.attempts && Meant(s, v, source, a) && s'.attempts[a].expires.Some?
                            && s'.attempts[a].expires.value <= s.clock|
  {
    var s' := Backfilled(s, v, source, reason, limit, expected);
    var seconds, chosen := PolicyAt(s, v).seconds, Candidates(s, PolicyAt(s, v).scope, source);
    assert forall a :: a in s.attempts ==> (a in chosen <==> Meant(s, v, source, a));
    assert (set a | a in chosen && DueAt(s, a, seconds)) ==
      set a | a in s'.attempts && Meant(s, v, source, a) && s'.attempts[a].expires.Some? && s'.attempts[a].expires.value <= s.clock;
  }

  // The service as it runs.

  class RetentionService {
    const defaults: nat
    var policies: seq<Policy>
    var cancelled: map<nat, Cancellation>
    var attempts: map<string, Assignment>
    var deletions: set<string>
    var erased: set<string>
    var log: seq<map<string, Item>>
    var clock: nat

    function View(): State
      reads this
    {
      State(policies, cancelled, attempts, deletions, erased, log, clock)
    }

    constructor (defaults: nat)
      ensures View() == Empty && this.defaults == defaults
    {
      this.defaults := defaults;
      policies, cancelled, attempts, deletions, erased, log, clock := [], map[], map[], {}, {}, [], 0;
    }

    method CreateRevision(scope: Option<string>, seconds: nat, effective: Option<nat>) returns (version: Option<nat>)
      modifies this`policies
      ensures View() == Created(old(View()), scope, seconds, effective)
      ensures version == if Creatable(old(View()), seconds, effective) then Some(|old(policies)| + 1) else None
    {
      version := None;
      if (seconds == 0 || 3600 <= seconds <= MaxSeconds) && (effective.None? || effective.value <= clock + Horizon) {
        policies := policies + [Policy(scope, seconds, if effective.Some? then effective.value else clock)];
        version := Some(|policies|);
      }
    }

    /** Repeating a cancellation is acknowledged; a different one, or one that comes too late, is refused. */
    method CancelRevision(v: nat, reason: string, actor: string) returns (accepted: bool)
      modifies this`cancelled
      ensures View() == CancelledBy(old(View()), v, reason, actor)
      ensures accepted <==> v in cancelled && cancelled[v] == Cancellation(reason, actor) && Exists(View(), v)
    {
      accepted := false;
      if 1 <= v <= |policies| {
        if v in cancelled {
          accepted := cancelled[v] == Cancellation(reason, actor);
        } else if policies[v - 1].effective > clock {
          cancelled := cancelled[v := Cancellation(reason, actor)];
          accepted := true;
        }
      }
    }

    /** The newest policy in force with exactly this scope. */
    method NewestFor(scope: Option<string>) returns (version: Option<nat>)
      ensures ActiveVersion(View(), scope, version)
    {
      version := None;
      for v := 1 to |policies| + 1
        invariant version.Some? ==> InForce(View(), version.value) && PolicyAt(View(), version.value).scope == scope
        invariant forall w: nat :: w < v && InForce(View(), w) && PolicyAt(View(), w).scope == scope ==>
          version.Some? && w <= version.value
      {
        if InForce(View(), v) && policies[v - 1].scope == scope {
          version := Some(v);
        }
      }
    }

    /** What the admission query finds: a policy for the case if there is one, else one for the cluster. */
    method FindPolicy(logicalCase: Option<string>) returns (version: Option<nat>)
      ensures Finds(View(), logicalCase, version)
    {
      version := NewestFor(logicalCase);
      if version.None? {
        version := NewestFor(None);
      }
      if version.Some? {
        AdmissionUsesTheActivePolicy(View(), version.value, logicalCase);
      }
    }

    /** The retention side of an admission. */
    method AssignRetention(a: string, logicalCase: Option<string>) returns (ghost policy: Option<nat>)
      modifies this`attempts
      ensures View() == Admitted(old(View()), defaults, a, logicalCase, policy)
      ensures Truthful(old(View()), Admit(a, logicalCase, policy))
    {
      var found := FindPolicy(logicalCase);
      policy := found;
      if a in attempts {
        if attempts[a].logicalCase.None? {
          attempts := attempts[a := attempts[a].(logicalCase := logicalCase)];
        }
      } else if a !in erased {
        var seconds := if found.Some? then policies[found.value - 1].seconds else defaults;
        attempts := attempts[a := Assignment(logicalCase, clock, found, if seconds > 0 then Some(clock + seconds) else None)];
      }
    }

    method Wait(seconds: nat)
      modifies this`clock
      ensures View() == Apply(old(View()), defaults, Tick(seconds))
    {
      clock := clock + seconds;
    }

    /** A deletion request takes the attempt out of every later backfill. */
    method RequestDeletion(a: string)
      modifies this`deletions
      ensures View() == Apply(old(View()), defaults, Delete(a))
    {
      deletions := deletions + {a};
    }

    method EraseRecord(a: string)
      modifies this`attempts, this`erased
      ensures View() == Apply(old(View()), defaults, Erase(a))
    {
      attempts := attempts - {a};
      erased := erased + {a};
    }

    /** Moves the chosen attempts to a policy one by one, and keeps what they were. */
    method MoveAll(chosen: set<string>, v: nat, seconds: nat) returns (items: map<string, Item>)
      requires chosen <= attempts.Keys
      modifies this`attempts
      ensures attempts == Reassigned(old(attempts), chosen, v, seconds)
      ensures items == ItemsOf(old(attempts), chosen, v, seconds)
    {
      items := map[];
      var todo := chosen;
      while todo != {}
        invariant todo <= chosen && attempts == Reassigned(old(attempts), chosen - todo, v, seconds)
        invariant items == ItemsOf(old(attempts), chosen - todo, v, seconds)
        decreases |todo|
      {
        var a :| a in todo;
        var r := attempts[a];
        var expires := if seconds > 0 then Some(r.first + seconds) else None;
        items := items[a := Item(r.version, r.expires, v, expires)];
        attempts := attempts[a := r.(version := Some(v), expires := expires)];
        todo := todo - {a};
      }
    }

    /** Applies a reviewed backfill; if anything changed since the review, nothing happens. */
    method ApplyBackfill(v: nat, source: Option<nat>, reason: Option<string>, limit: nat, expected: Preview)
      returns (applied: bool, items: map<string, Item>)
      modifies this`attempts, this`log
      ensures View() == Backfilled(old(View()), v, source, reason, limit, expected)
      ensures applied <==> Confirmed(old(View()), v, source, reason, limit, expected)
      ensures Undone(attempts, items) == old(attempts)
    {
      items := map[];
      applied := Decide(View(), v, source, reason, limit) == Shown(expected);
      if applied {
        ItemsUndoTheBackfill(attempts, expected.eligible.Keys, v, policies[v - 1].seconds);
        items := MoveAll(expected.eligible.Keys, v, policies[v - 1].seconds);
        log := log + [items];
      } else {
        assert Undone(attempts, map[]) == attempts;
      }
    }
  }

  // The object goes through the states of the transition system.

  /** What took place is what was asked for, except that an admission uses the policy it finds. */
  ghost predicate Carries(asked: Step, done: Step) {
    done == asked || (asked.Admit? && done.Admit? && done.attempt == asked.attempt && done.logicalCase == asked.logicalCase)
  }

  method PerformPolicy(service: RetentionService, step: Step)
    requires step.Tick? || step.Create? || step.Cancel?
    modifies service
    ensures service.View() == Apply(old(service.View()), service.defaults, step)
  {
    match step {
      case Tick(seconds) => service.Wait(seconds);
      case Create(scope, seconds, effective) => var version := service.CreateRevision(scope, seconds, effective);
      case Cancel(v, cause, actor) => var ok := service.CancelRevision(v, cause, actor);
    }
  }

  method PerformAttempt(service: RetentionService, step: Step)
    requires step.Delete? || step.Erase? || step.Backfill?
    modifies service
    ensures service.View() == Apply(old(service.View()), service.defaults, step)
  {
    match step {
      case Delete(a) => service.RequestDeletion(a);
      case Erase(a) => service.EraseRecord(a);
      case Backfill(v, source, reason, limit, expected) =>
        var ok, items := service.ApplyBackfill(v, source, reason, limit, expected);
    }
  }

  method Perform(service: RetentionService, step: Step) returns (ghost done: Step)
    modifies service
    ensures Carries(step, done) && Truthful(old(service.View()), done)
    ensures service.View() == Apply(old(service.View()), service.defaults, done)
  {
    done := step;
    if step.Admit? {
      ghost var policy := service.AssignRetention(step.attempt, step.logicalCase);
      done := Admit(step.attempt, step.logicalCase, policy);
    } else if step.Tick? || step.Create? || step.Cancel? {
      PerformPolicy(service, step);
    } else {
      PerformAttempt(service, step);
    }
  }

  lemma {:induction false} RunAppend(s: State, defaults: nat, run: seq<Step>, step: Step)
    requires TruthfulRun(s, defaults, run) && Truthful(Exec(s, defaults, run), step)
    ensures TruthfulRun(s, defaults, run + [step])
    ensures Exec(s, defaults, run + [step]) == Apply(Exec(s, defaults, run), defaults, step)
    decreases |run|
  {
    if run == [] {
      assert run + [step] == [step] && [step][1..] == [];
    } else {
      assert (run + [step])[0] == run[0] && (run + [step])[1..] == run[1..] + [step];
      RunAppend(Apply(s, defaults, run[0]), defaults, run[1..], step);
    }
  }

  /** Every state the object gets into is the state of a run in which admissions found what the query finds. */
  method PerformAll(service: RetentionService, script: seq<Step>) returns (ghost run: seq<Step>)
    requires service.View() == Empty
    modifies service
    ensures TruthfulRun(Empty, service.defaults, run) && service.View() == Exec(Empty, service.defaults, run)
    ensures |run| == |script| && forall i :: 0 <= i < |run| ==> Carries(script[i], run[i])
  {
    run := [];
    for i := 0 to |script|
      invariant TruthfulRun(Empty, service.defaults, run) && service.View() == Exec(Empty, service.defaults, run)
      invariant |run| == i && forall j :: 0 <= j < i ==> Carries(script[j], run[j])
    {
      ghost var done := Perform(service, script[i]);
      RunAppend(Empty, service.defaults, run, done);
      run := run + [done];
    }
  }
}
