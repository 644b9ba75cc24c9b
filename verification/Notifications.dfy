/** Leased delivery of integrity notifications: retries with growing delays, quarantine and redrive. */
module Notifications {
  import opened Prelude
  import opened Leases

  datatype Config = Config(leaseSeconds: nat, maxAttempts: nat, retryBase: nat)

  predicate Usable(c: Config) {
    10 <= c.leaseSeconds <= 3600 && 1 <= c.maxAttempts <= 100 && 1 <= c.retryBase <= 3600
  }

  datatype Notification = Notification(work: Work, nextAttempt: nat, deliveredAt: Option<nat>)

  datatype Redrive = Redrive(notification: nat, actor: string, reason: string)

  datatype State = State(rows: map<nat, Notification>, redrives: seq<Redrive>, clock: nat)

  /** A queued row waits for its time; a row whose lease ran out does not. */
  predicate Due(n: Notification, now: nat) {
    Claimable(n.work, now) && (n.work.state == Pending ==> n.nextAttempt <= now)
  }

  predicate OwnsRow(s: State, id: nat, t: Ticket) {
    id in s.rows && Owns(s.rows[id].work, t)
  }

  /** Seconds until the next try; a row that fails has been tried at least once. */
  function RetryDelay(c: Config, attempts: nat): nat {
    Min(3600, c.retryBase * Pow2(Max(attempts, 1) - 1))
  }

  datatype Step =
    | Tick(seconds: nat)
    | Enqueue(id: nat)
    | Claim(id: nat, owner: string)
    | Deliver(id: nat, ticket: Ticket)
    | Fail(id: nat, ticket: Ticket)
    | RedriveRow(id: nat, actor: string, reason: string)

  function AfterFailure(c: Config, n: Notification, now: nat): Notification {
    if n.work.attempts >= c.maxAttempts then n.(work := Settled(n.work, Failed))
    else n.(work := Settled(n.work, Pending), nextAttempt := now + RetryDelay(c, n.work.attempts))
  }

  function Redriven(n: Notification, now: nat): Notification {
    Notification(Work(Pending, 0, None, n.work.generation + 1, None), now, None)
  }

  function Apply(c: Config, s: State, step: Step): State {
    match step
    case Tick(d) => s.(clock := s.clock + d)
    case Enqueue(id) =>
      if id in s.rows then s else s.(rows := s.rows[id := Notification(Queued(), s.clock, None)])
    case Claim(id, owner) =>
      if id in s.rows && Due(s.rows[id], s.clock)
      then s.(rows := s.rows[id := s.rows[id].(work := Claimed(s.rows[id].work, owner, s.clock, c.leaseSeconds))])
      else s
    case Deliver(id, t) =>
      if OwnsRow(s, id, t)
      then s.(rows := s.rows[id := s.rows[id].(work := Settled(s.rows[id].work, Delivered), deliveredAt := Some(s.clock))])
      else s
    case Fail(id, t) =>
      if OwnsRow(s, id, t) then s.(rows := s.rows[id := AfterFailure(c, s.rows[id], s.clock)]) else s
    case RedriveRow(id, actor, reason) =>
      if id in s.rows && s.rows[id].work.state == Failed
      then s.(rows := s.rows[id := Redriven(s.rows[id], s.clock)], redrives := s.redrives + [Redrive(id, actor, reason)])
      else s
  }

  function Exec(c: Config, s: State, run: seq<Step>): State
    decreases |run|
  {
    if run == [] then s else Exec(c, Apply(c, s, run[0]), run[1..])
  }

  const Empty := State(map[], [], 0)

  // What every step keeps.

  ghost predicate RowSound(n: Notification) {
    && Sound(n.work)
    && n.work.state in {Pending, Processing, Failed, Delivered}
    && (n.work.state == Processing ==> n.work.attempts >= 1)
    && (n.deliveredAt.Some? <==> n.work.state == Delivered)
  }

  ghost predicate Inv(s: State) {
    forall id :: id in s.rows ==> RowSound(s.rows[id])
  }

  /** Lease generations grow, and a delivered row never changes again. */
  ghost predicate Advances(n: Notification, n': Notification) {
    n.work.generation <= n'.work.generation && (n.work.state == Delivered ==> n' == n)
  }

  ghost predicate Moves(s: State, s': State) {
    forall id :: id in s.rows ==> id in s'.rows && Advances(s.rows[id], s'.rows[id])
  }

  lemma StepKeeps(c: Config, s: State, step: Step)
    requires Inv(s)
    ensures Inv(Apply(c, s, step)) && Moves(s, Apply(c, s, step))
  {
  }

  lemma {:induction false} RunKeeps(c: Config, s: State, run: seq<Step>)
    requires Inv(s)
    ensures Inv(Exec(c, s, run)) && Moves(s, Exec(c, s, run))
    decreases |run|
  {
    if run != [] {
      StepKeeps(c, s, run[0]);
      RunKeeps(c, Apply(c, s, run[0]), run[1..]);
    }
  }

  /** In every reachable state a row has an owner exactly while it is processed. */
  lemma OwnersWhileProcessing(c: Config, run: seq<Step>, id: nat)
    requires id in Exec(c, Empty, run).rows
    ensures var w := Exec(c, Empty, run).rows[id].work; w.owner.Some? <==> w.state == Processing
  {
    RunKeeps(c, Empty, run);
    assert RowSound(Exec(c, Empty, run).rows[id]);
  }

  /** A worker whose lease was superseded, by a later claim or a redrive, changes nothing any more. */
  lemma StaleWorkersAreInert(c: Config, run: seq<Step>, later: seq<Step>, id: nat, t: Ticket)
    requires var s := Exec(c, Empty, run); id in s.rows && t.generation < s.rows[id].work.generation
    ensures var s' := Exec(c, Exec(c, Empty, run), later);
            Apply(c, s', Deliver(id, t)) == s' && Apply(c, s', Fail(id, t)) == s'
  {
    RunKeeps(c, Empty, run);
    RunKeeps(c, Exec(c, Empty, run), later);
  }

  /** What was delivered stays delivered: no later claim, failure or redrive touches the row. */
  lemma DeliveryIsFinal(c: Config, run: seq<Step>, later: seq<Step>, id: nat)
    requires var s := Exec(c, Empty, run); id in s.rows && s.rows[id].work.state == Delivered
    ensures var s, s' := Exec(c, Empty, run), Exec(c, Exec(c, Empty, run), later);
            id in s'.rows && s'.rows[id] == s.rows[id]
  {
    RunKeeps(c, Empty, run);
    RunKeeps(c, Exec(c, Empty, run), later);
    assert Advances(Exec(c, Empty, run).rows[id], Exec(c, Exec(c, Empty, run), later).rows[id]);
  }

  /** Retry delays do not shrink from try to try, and lie between the base and an hour. */
  lemma RetriesBackOff(c: Config, attempts: nat, more: nat)
    requires Usable(c) && 1 <= attempts <= more
    ensures c.retryBase <= RetryDelay(c, attempts) <= RetryDelay(c, more) <= 3600
  {
    PowersGrow(attempts - 1, more - 1);
    Scaled(c.retryBase, 1, Pow2(attempts - 1));
    Scaled(c.retryBase, Pow2(attempts - 1), Pow2(more - 1));
  }

  /** The first retry waits the base, and each further one twice as long up to an hour. */
  lemma RetriesDouble(c: Config, attempts: nat)
    requires Usable(c) && 1 <= attempts
    ensures RetryDelay(c, 1) == c.retryBase
    ensures RetryDelay(c, attempts + 1) == Min(3600, 2 * RetryDelay(c, attempts))
  {
    assert Pow2(0) == 1;
    var power := Pow2(attempts - 1);
    assert Pow2(attempts) == 2 * power;
    assert c.retryBase * (2 * power) == 2 * (c.retryBase * power);
  }

  /** A claim of this row at this moment would be served. */
  predicate Serves(c: Config, s: State, id: nat, owner: string) {
    Apply(c, s, Claim(id, owner)) != s
  }

  function After(c: Config, s: State, seconds: nat): State {
    Apply(c, s, Tick(seconds))
  }

  /** Over every run: a claim gives the row to its worker, and nobody else gets it until the lease has run out, then anybody does. */
  lemma LeasesRunTheirTime(c: Config, run: seq<Step>, id: nat, first: string, second: string, wait: nat)
    requires Serves(c, Exec(c, Empty, run), id, first)
    ensures var s := Exec(c, Empty, run);
            var s' := Apply(c, s, Claim(id, first));
            && id in s.rows
            && OwnsRow(s', id, Ticket(first, s.rows[id].work.generation + 1))
            && s'.rows[id].work.attempts == s.rows[id].work.attempts + 1
            && (Serves(c, After(c, s', wait), id, second) <==> c.leaseSeconds < wait)
  {
    RunKeeps(c, Empty, run);
  }

  /** What is enqueued is due at once, with no try made. */
  lemma EnqueuedIsDue(c: Config, run: seq<Step>, id: nat, owner: string)
    requires id !in Exec(c, Empty, run).rows
    ensures var s := Apply(c, Exec(c, Empty, run), Enqueue(id));
            id in s.rows && s.rows[id].work.attempts == 0 && Serves(c, s, id, owner)
  {
  }

  /**
   Over every run: a failed delivery is retried after the delay for its number of tries, unless that
   number has reached the limit; then nobody can claim it at any time.
   */
  lemma FailuresWaitTheirTurn(c: Config, run: seq<Step>, id: nat, t: Ticket, owner: string, wait: nat)
    requires OwnsRow(Exec(c, Empty, run), id, t)
    ensures var s := Exec(c, Empty, run);
            var tries := s.rows[id].work.attempts;
            var s' := Apply(c, s, Fail(id, t));
            && s'.rows[id].work.attempts == tries >= 1
            && (s'.rows[id].work.state == Failed <==> c.maxAttempts <= tries)
            && (Serves(c, After(c, s', wait), id, owner) <==> tries < c.maxAttempts && RetryDelay(c, tries) <= wait)
  {
    RunKeeps(c, Empty, run);
    assert RowSound(Exec(c, Empty, run).rows[id]);
  }

  /** Over every run: a delivery under the current lease is recorded with its time, and nobody can claim it any more. */
  lemma DeliveriesAreRecorded(c: Config, run: seq<Step>, id: nat, t: Ticket, owner: string, wait: nat)
    requires OwnsRow(Exec(c, Empty, run), id, t)
    ensures var s := Exec(c, Empty, run);
            var s' := Apply(c, s, Deliver(id, t));
            && s'.rows[id].work.state == Delivered && s'.rows[id].deliveredAt == Some(s.clock)
            && !Serves(c, After(c, s', wait), id, owner)
  {
  }

  /**
   Over every run: redriving a failed notification is logged, makes it due at once with all its tries
   before it, and leaves every lease handed out before without effect, whatever comes later.
   */
  lemma RedrivesStartOver(
    c: Config, run: seq<Step>, id: nat, actor: string, reason: string, owner: string, later: seq<Step>, t: Ticket)
    requires var s := Exec(c, Empty, run);
             id in s.rows && s.rows[id].work.state == Failed && t.generation <= s.rows[id].work.generation
    ensures var s := Exec(c, Empty, run);
            var s' := Apply(c, s, RedriveRow(id, actor, reason));
            var s2 := Exec(c, s', later);
            && s'.redrives == s.redrives + [Redrive(id, actor, reason)]
            && s'.rows[id].work.attempts == 0
            && Serves(c, s', id, owner)
            && Apply(c, s2, Deliver(id, t)) == s2 && Apply(c, s2, Fail(id, t)) == s2
  {
    RunKeeps(c, Empty, run);
    var s' := Apply(c, Exec(c, Empty, run), RedriveRow(id, actor, reason));
    StepKeeps(c, Exec(c, Empty, run), RedriveRow(id, actor, reason));
    RunKeeps(c, s', later);
    assert Advances(s'.rows[id], Exec(c, s', later).rows[id]);
  }

  /** Only a failed notification is redriven. */
  lemma OnlyFailuresAreRedriven(c: Config, s: State, id: nat, actor: string, reason: string)
    ensures Apply(c, s, RedriveRow(id, actor, reason)) != s <==> id in s.rows && s.rows[id].work.state == Failed
  {
    if id in s.rows && s.rows[id].work.state == Failed {
      assert |Apply(c, s, RedriveRow(id, actor, reason)).redrives| == |s.redrives| + 1;
    }
  }

  // The queue as it runs.

  /** The order of the queue: by the time of the next try, then by number. */
  predicate Sooner(rows: map<nat, Notification>, i: nat, j: nat)
    requires i in rows && j in rows
  {
    rows[i].nextAttempt < rows[j].nextAttempt || (rows[i].nextAttempt == rows[j].nextAttempt && i < j)
  }

  /** The last redrive of a row was asked for by this actor for this reason. */
  ghost predicate LatestIs(redrives: seq<Redrive>, id: nat, actor: string, reason: string) {
    exists i: nat :: LatestAt(redrives, id, i) && redrives[i] == Redrive(id, actor, reason)
  }

  ghost predicate LatestAt(redrives: seq<Redrive>, id: nat, i: nat) {
    i < |redrives| && redrives[i].notification == id && forall j :: i < j < |redrives| ==> redrives[j].notification != id
  }

  lemma LatestIsUnique(redrives: seq<Redrive>, id: nat)
    ensures forall i: nat, j: nat :: LatestAt(redrives, id, i) && LatestAt(redrives, id, j) ==> i == j
  {
  }

  class NotificationQueue {
    const config: Config
    var rows: map<nat, Notification>
    var redrives: seq<Redrive>
    var clock: nat

    function View(): State
      reads this
    {
      State(rows, redrives, clock)
    }

    constructor (config: Config)
      ensures View() == Empty && this.config == config
    {
      this.config := config;
      rows, redrives, clock := map[], [], 0;
    }

    method ClaimRow(id: nat, owner: string) returns (lease: Option<Ticket>)
      modifies this`rows
      ensures View() == Apply(config, old(View()), Claim(id, owner))
      ensures lease.Some? ==> OwnsRow(View(), id, lease.value)
      ensures lease.None? <==> id !in old(rows) || !Due(old(rows)[id], clock)
    {
      lease := None;
      if id in rows && Due(rows[id], clock) {
        var w := rows[id].work;
        w := w.(
          state := Processing, attempts := w.attempts + 1, owner := Some(owner),
          generation := w.generation + 1, expires := Some(clock + config.leaseSeconds));
        rows := rows[id := rows[id].(work := w)];
        lease := Some(Ticket(owner, w.generation));
      }
    }

    /** The due row whose time came first, the lowest number among equals. */
    method NextRow() returns (next: Option<nat>)
      ensures next.None? <==> forall i :: i in rows ==> !Due(rows[i], clock)
      ensures next.Some? ==> next.value in rows && Due(rows[next.value], clock)
      ensures next.Some? ==> forall i :: i in rows && Due(rows[i], clock) && i != next.value ==> Sooner(rows, next.value, i)
    {
      next := None;
      var todo := rows.Keys;
      while todo != {}
        invariant todo <= rows.Keys
        invariant next.Some? ==> next.value in rows && next.value !in todo && Due(rows[next.value], clock)
        invariant forall i :: i in rows && i !in todo && Due(rows[i], clock) ==>
          next.Some? && (i == next.value || Sooner(rows, next.value, i))
        decreases |todo|
      {
        var i :| i in todo;
        if Due(rows[i], clock) && (next.None? || Sooner(rows, i, next.value)) {
          next := Some(i);
        }
        todo := todo - {i};
      }
    }

    /** Claims the row that is next in the order of the queue. */
    method ClaimNextRow(owner: string) returns (id: Option<nat>, lease: Option<Ticket>)
      modifies this`rows
      ensures id.None? <==> forall i :: i in old(rows) ==> !Due(old(rows)[i], clock)
      ensures id.Some? <==> lease.Some?
      ensures id.Some? ==> id.value in old(rows) && Due(old(rows)[id.value], clock)
      ensures id.Some? ==> forall i :: i in old(rows) && Due(old(rows)[i], clock) && i != id.value ==> Sooner(old(rows), id.value, i)
      ensures View() == if id.Some? then Apply(config, old(View()), Claim(id.value, owner)) else old(View())
    {
      id := NextRow();
      lease := None;
      if id.Some? {
        lease := ClaimRow(id.value, owner);
      }
    }

    /** The first session of a delivery: nothing is sent for a lease that is no longer the row's own. */
    method BeginDelivery(id: nat, t: Ticket) returns (send: bool)
      ensures send <==> OwnsRow(View(), id, t)
    {
      send := id in rows && rows[id].work.state == Processing
        && rows[id].work.owner == Some(t.owner) && rows[id].work.generation == t.generation;
    }

    /** The last session, after sending without any lock: the outcome counts only under the same lease. */
    method ExecuteRow(id: nat, t: Ticket, delivered: bool) returns (done: bool)
      modifies this`rows
      ensures View() == Apply(config, old(View()), if delivered then Deliver(id, t) else Fail(id, t))
      ensures done <==> delivered && OwnsRow(old(View()), id, t)
    {
      done := false;
      if OwnsRow(View(), id, t) {
        var n := rows[id];
        var w := n.work.(owner := None, expires := None);
        if delivered {
          rows := rows[id := n.(work := w.(state := Delivered), deliveredAt := Some(clock))];
          done := true;
        } else if n.work.attempts >= config.maxAttempts {
          rows := rows[id := n.(work := w.(state := Failed))];
        } else {
          rows := rows[id := n.(work := w.(state := Pending), nextAttempt := clock + RetryDelay(config, n.work.attempts))];
        }
      }
    }

    /** The last entry of the redrive log about a row. */
    method LatestRedrive(id: nat) returns (r: Option<Redrive>)
      ensures r.Some? ==> exists i: nat :: LatestAt(redrives, id, i) && redrives[i] == r.value
      ensures r.None? ==> forall i :: 0 <= i < |redrives| ==> redrives[i].notification != id
    {
      var i := |redrives|;
      r := None;
      while i > 0 && r.None?
        invariant 0 <= i <= |redrives|
        invariant r.None? ==> forall j :: i <= j < |redrives| ==> redrives[j].notification != id
        invariant r.Some? ==> LatestAt(redrives, id, i) && redrives[i] == r.value
        decreases i, r.None?
      {
        i := i - 1;
        if redrives[i].notification == id {
          r := Some(redrives[i]);
        }
      }
    }

    /** Only a failed row is queued again; repeating a redrive that is under way is acknowledged. */
    method RedriveOnce(id: nat, actor: string, reason: string) returns (accepted: bool)
      modifies this`rows, this`redrives
      ensures View() == Apply(config, old(View()), RedriveRow(id, actor, reason))
      ensures accepted <==>
        && id in old(rows)
        && (|| old(rows)[id].work.state == Failed
            || (old(rows)[id].work.state in {Pending, Processing} && LatestIs(old(redrives), id, actor, reason)))
    {
      accepted := false;
      if id in rows {
        var latest := LatestRedrive(id);
        LatestIsUnique(redrives, id);
        if rows[id].work.state == Failed {
          rows := rows[id := Notification(Work(Pending, 0, None, rows[id].work.generation + 1, None), clock, None)];
          redrives := redrives + [Redrive(id, actor, reason)];
          accepted := true;
        } else {
          accepted := rows[id].work.state in {Pending, Processing} && latest == Some(Redrive(id, actor, reason));
        }
      }
    }
  }
}
