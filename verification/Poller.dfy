/**
 The fenced polling stream of one cluster. A poller claims the cursor row, reads it, queries the
 scheduler without holding any lock, and publishes only if its lease is still the current one.
 */
module Poller {
  import opened Prelude
  import opened Leases

  datatype Config = Config(interval: nat, leaseSeconds: nat, lookback: nat, maxBackoff: nat)

  /** What the constructor checks. */
  predicate Usable(c: Config) {
    0 < c.interval <= c.maxBackoff && 0 < c.leaseSeconds
  }

  datatype Row = Row(
    cursor: Option<int>, nextPoll: int, owner: Option<string>, generation: nat, expires: Option<int>, failures: nat)

  /** A query in flight: when it started and from when on it asks for accounting records. */
  datatype Poll = Poll(ticket: Ticket, started: int, since: Option<int>)

  /** The time a published query covers; without a start it reaches back indefinitely. */
  datatype Window = Window(since: Option<int>, until: int)

  datatype State = State(row: Row, polls: set<Poll>, windows: set<Window>, clock: int)

  predicate Leased(row: Row, t: Ticket) {
    row.owner == Some(t.owner) && row.generation == t.generation
  }

  predicate Claimable(row: Row, now: int) {
    row.nextPoll <= now && (row.owner.None? || (row.expires.Some? && row.expires.value < now))
  }

  function Since(cursor: Option<int>, lookback: nat): Option<int> {
    if cursor.Some? then Some(cursor.value - lookback) else None
  }

  /** Seconds to wait after a number of consecutive failures, before jitter. */
  function Delay(c: Config, failures: nat): int
    requires failures >= 1
  {
    Min(c.maxBackoff, c.interval * Pow2(Min(failures - 1, 20)))
  }

  datatype Step =
    | Tick(seconds: nat)
    | Claim(owner: string)
    | Begin(ticket: Ticket)
    | Publish(poll: Poll, jitter: nat)
    | Fail(ticket: Ticket, jitter: nat)

  function Claimed(c: Config, s: State, owner: string): State {
    s.(row := s.row.(owner := Some(owner), generation := s.row.generation + 1, expires := Some(s.clock + c.leaseSeconds)))
  }

  function Begun(c: Config, s: State, t: Ticket): State {
    s.(polls := s.polls + {Poll(t, s.clock, Since(s.row.cursor, c.lookback))})
  }

  function Published(c: Config, s: State, p: Poll, jitter: nat): State {
    s.(
      row := Row(Some(p.started), s.clock + c.interval + jitter, None, s.row.generation, None, 0),
      windows := s.windows + {Window(p.since, p.started)})
  }

  function Failed(c: Config, s: State, jitter: nat): State {
    s.(row := s.row.(
      failures := s.row.failures + 1, nextPoll := s.clock + Delay(c, s.row.failures + 1) + jitter,
      owner := None, expires := None))
  }

  function Apply(c: Config, s: State, step: Step): State {
    match step
    case Tick(d) => s.(clock := s.clock + d)
    case Claim(owner) => if Claimable(s.row, s.clock) then Claimed(c, s, owner) else s
    case Begin(t) => if Leased(s.row, t) then Begun(c, s, t) else s
    case Publish(p, jitter) => if p in s.polls && Leased(s.row, p.ticket) then Published(c, s, p, jitter) else s
    case Fail(t, jitter) => if Leased(s.row, t) then Failed(c, s, jitter) else s
  }

  function Exec(c: Config, s: State, run: seq<Step>): State
    decreases |run|
  {
    if run == [] then s else Exec(c, Apply(c, s, run[0]), run[1..])
  }

  // Coverage.

  ghost predicate Within(w: Window, time: int) {
    (w.since.None? || w.since.value <= time) && time <= w.until
  }

  ghost predicate Seen(windows: set<Window>, time: int) {
    exists w :: w in windows && Within(w, time)
  }

  /** A query whose lease is still current was started after the cursor and asks for what follows it. */
  ghost predicate Fresh(c: Config, row: Row, p: Poll, now: int) {
    && p.started <= now
    && p.ticket.generation <= row.generation
    && (Leased(row, p.ticket) ==>
          p.since == Since(row.cursor, c.lookback) && (row.cursor.Some? ==> row.cursor.value <= p.started))
  }

  ghost predicate Inv(c: Config, s: State) {
    && (s.row.owner.Some? <==> s.row.expires.Some?)
    && (s.row.cursor.Some? ==> s.row.cursor.value <= s.clock)
    && (forall p :: p in s.polls ==> Fresh(c, s.row, p, s.clock))
    && (s.row.cursor.Some? ==> forall time :: time <= s.row.cursor.value ==> Seen(s.windows, time))
  }

  lemma PublishedCovers(c: Config, s: State, p: Poll, jitter: nat, time: int)
    requires Inv(c, s) && p in s.polls && Leased(s.row, p.ticket) && time <= p.started
    ensures Seen(Published(c, s, p, jitter).windows, time)
  {
    var w := Window(p.since, p.started);
    assert Fresh(c, s.row, p, s.clock);
    if Within(w, time) {
      assert w in Published(c, s, p, jitter).windows;
    } else {
      assert Seen(s.windows, time);
      var v :| v in s.windows && Within(v, time);
      assert v in Published(c, s, p, jitter).windows;
    }
  }

  lemma StepKeeps(c: Config, s: State, step: Step)
    requires Inv(c, s)
    ensures Inv(c, Apply(c, s, step))
  {
    var s' := Apply(c, s, step);
    if step.Publish? && step.poll in s.polls && Leased(s.row, step.poll.ticket) {
      assert Fresh(c, s.row, step.poll, s.clock);
      forall time | time <= s'.row.cursor.value
        ensures Seen(s'.windows, time)
      {
        PublishedCovers(c, s, step.poll, step.jitter, time);
      }
    } else {
      forall p | p in s'.polls
        ensures Fresh(c, s'.row, p, s'.clock)
      {
        assert p in s.polls ==> Fresh(c, s.row, p, s.clock);
      }
    }
  }

  function Later(x: Option<int>, y: Option<int>): bool {
    x.Some? ==> y.Some? && x.value <= y.value
  }

  lemma StepMovesOn(c: Config, s: State, step: Step)
    requires Inv(c, s)
    ensures Later(s.row.cursor, Apply(c, s, step).row.cursor)
    ensures s.row.generation <= Apply(c, s, step).row.generation && s.windows <= Apply(c, s, step).windows
  {
    if step.Publish? && step.poll in s.polls {
      assert Fresh(c, s.row, step.poll, s.clock);
    }
  }

  lemma {:induction false} RunKeeps(c: Config, s: State, run: seq<Step>)
    requires Inv(c, s)
    ensures Inv(c, Exec(c, s, run)) && Later(s.row.cursor, Exec(c, s, run).row.cursor)
    ensures s.row.generation <= Exec(c, s, run).row.generation
    decreases |run|
  {
    if run != [] {
      StepKeeps(c, s, run[0]);
      StepMovesOn(c, s, run[0]);
      RunKeeps(c, Apply(c, s, run[0]), run[1..]);
    }
  }

  /** A cursor row as it is registered. */
  ghost predicate Registered(s: State) {
    s.row == Row(None, s.clock, None, 0, None, 0) && s.polls == {} && s.windows == {}
  }

  /** After any run the published queries cover all time up to the cursor, and the cursor never goes back. */
  lemma PollingLeavesNoGap(c: Config, s: State, run: seq<Step>, later: seq<Step>, time: int)
    requires Registered(s)
    ensures var s1 := Exec(c, s, run);
            && (s1.row.cursor.Some? && time <= s1.row.cursor.value ==> Seen(s1.windows, time))
            && Later(s1.row.cursor, Exec(c, s1, later).row.cursor)
  {
    RunKeeps(c, s, run);
    RunKeeps(c, Exec(c, s, run), later);
  }

  /** A row has an owner exactly while it is leased out. */
  lemma OwnersWhileLeased(c: Config, s: State, run: seq<Step>)
    requires Registered(s)
    ensures Exec(c, s, run).row.owner.Some? <==> Exec(c, s, run).row.expires.Some?
  {
    RunKeeps(c, s, run);
  }

  /** Once another poller has claimed the row, an older lease can neither publish nor fail. */
  lemma StalePollersAreInert(c: Config, s: State, run: seq<Step>, later: seq<Step>, p: Poll, jitter: nat)
    requires Registered(s) && p.ticket.generation < Exec(c, s, run).row.generation
    ensures var s' := Exec(c, Exec(c, s, run), later);
            Apply(c, s', Publish(p, jitter)) == s' && Apply(c, s', Fail(p.ticket, jitter)) == s' && Apply(c, s', Begin(p.ticket)) == s'
  {
    RunKeeps(c, s, run);
    RunKeeps(c, Exec(c, s, run), later);
  }

  /** More failures never wait less, and every wait lies between the interval and the maximum. */
  lemma DelaysAreOrderly(c: Config, failures: nat, more: nat)
    requires Usable(c) && 1 <= failures <= more
    ensures c.interval <= Delay(c, failures) <= Delay(c, more) <= c.maxBackoff
  {
    var x, y := Pow2(Min(failures - 1, 20)), Pow2(Min(more - 1, 20));
    PowersGrow(Min(failures - 1, 20), Min(more - 1, 20));
    Scaled(c.interval, 1, x);
    Scaled(c.interval, x, y);
  }

  /** One failure waits the interval, each further one twice as long up to the maximum, and 21 failures wait longest. */
  lemma DelaysDouble(c: Config, failures: nat)
    requires Usable(c) && 1 <= failures
    ensures Delay(c, 1) == c.interval
    ensures failures <= 20 ==> Delay(c, failures + 1) == Min(c.maxBackoff, 2 * Delay(c, failures))
    ensures 21 <= failures ==> Delay(c, failures) == Delay(c, 21)
  {
    assert Pow2(0) == 1;
    if failures <= 20 {
      var power := Pow2(failures - 1);
      assert Pow2(failures) == 2 * power;
      assert c.interval * (2 * power) == 2 * (c.interval * power);
    }
  }

  /** A claim at this moment would be served. */
  predicate Serves(c: Config, s: State, owner: string) {
    Apply(c, s, Claim(owner)) != s
  }

  function After(c: Config, s: State, seconds: nat): State {
    Apply(c, s, Tick(seconds))
  }

  /** Over every run: a claim gives the row to its poller, and nobody else gets it until the lease has run out, then anybody does. */
  lemma LeasesRunTheirTime(c: Config, s: State, run: seq<Step>, first: string, second: string, wait: nat)
    requires Registered(s) && Serves(c, Exec(c, s, run), first)
    ensures var s1 := Apply(c, Exec(c, s, run), Claim(first));
            && Leased(s1.row, Ticket(first, s1.row.generation))
            && (Serves(c, After(c, s1, wait), second) <==> c.leaseSeconds < wait)
  {
    RunKeeps(c, s, run);
  }

  /** A row that no poller has failed or published yet is due at once. */
  lemma RegisteredIsDue(c: Config, s: State, owner: string)
    requires Registered(s)
    ensures Serves(c, s, owner)
  {
  }

  /**
   Over every run: a query begun under the current lease asks from the lookback before the cursor on, and
   publishing it while the lease lasts moves the cursor to the time it was begun. The row is then due
   after the interval, and no earlier failure counts any more.
   */
  lemma PublishedPollsMoveTheCursor(
    c: Config, s: State, run: seq<Step>, t: Ticket, later: seq<Step>, jitter: nat, owner: string, wait: nat)
    requires Registered(s)
    requires var s1 := Exec(c, s, run);
             Leased(s1.row, t) && Leased(Exec(c, Apply(c, s1, Begin(t)), later).row, t)
    ensures var s1 := Exec(c, s, run);
            var from := if s1.row.cursor.Some? then Some(s1.row.cursor.value - c.lookback) else None;
            var poll := Poll(t, s1.clock, from);
            var s2 := Exec(c, Apply(c, s1, Begin(t)), later);
            var s3 := Apply(c, s2, Publish(poll, jitter));
            && s3.row.cursor == Some(s1.clock)
            && Window(from, s1.clock) in s3.windows
            && s3.row.failures == 0
            && (Serves(c, After(c, s3, wait), owner) <==> c.interval + jitter <= wait)
  {
    var s1 := Exec(c, s, run);
    var poll := Poll(t, s1.clock, Since(s1.row.cursor, c.lookback));
    PollsStay(c, Apply(c, s1, Begin(t)), later, poll);
  }

  lemma {:induction false} PollsStay(c: Config, s: State, run: seq<Step>, p: Poll)
    requires p in s.polls
    ensures p in Exec(c, s, run).polls
    decreases |run|
  {
    if run != [] {
      PollsStay(c, Apply(c, s, run[0]), run[1..], p);
    }
  }

  /** Over every run: a failure under the current lease is counted, and the row is due again after the delay for the count. */
  lemma FailuresBackOff(c: Config, s: State, run: seq<Step>, t: Ticket, jitter: nat, owner: string, wait: nat)
    requires Registered(s) && Leased(Exec(c, s, run).row, t)
    ensures var s1 := Exec(c, s, run);
            var s2 := Apply(c, s1, Fail(t, jitter));
            && s2.row.failures == s1.row.failures + 1
            && s2.row.cursor == s1.row.cursor
            && (Serves(c, After(c, s2, wait), owner) <==> Delay(c, s1.row.failures + 1) + jitter <= wait)
  {
  }

  // The poller as it runs.

  class SchedulerPoller {
    const config: Config
    var cursor: Option<int>
    var nextPoll: int
    var owner: Option<string>
    var generation: nat
    var expires: Option<int>
    var failures: nat
    var clock: int
    ghost var polls: set<Poll>
    ghost var windows: set<Window>

    ghost function View(): State
      reads this
    {
      State(Row(cursor, nextPoll, owner, generation, expires, failures), polls, windows, clock)
    }

    ghost predicate Valid()
      reads this
    {
      Inv(config, View())
    }

    constructor (config: Config, now: int)
      ensures Valid() && Registered(View()) && this.config == config && clock == now
    {
      this.config := config;
      cursor, nextPoll, owner, generation, expires, failures, clock := None, now, None, 0, None, 0, now;
      polls, windows := {}, {};
    }

    method Wait(seconds: nat)
      requires Valid()
      modifies this`clock
      ensures Valid() && View() == Apply(config, old(View()), Tick(seconds))
    {
      StepKeeps(config, View(), Tick(seconds));
      clock := clock + seconds;
    }

    method ClaimCursor(who: string) returns (lease: Option<Ticket>)
      requires Valid()
      modifies this`owner, this`generation, this`expires
      ensures Valid() && View() == Apply(config, old(View()), Claim(who))
      ensures lease.Some? ==> lease.value == Ticket(who, generation) && old(generation) < generation
    {
      StepKeeps(config, View(), Claim(who));
      lease := None;
      if nextPoll <= clock && (owner.None? || (expires.Some? && expires.value < clock)) {
        owner := Some(who);
        generation := generation + 1;
        expires := Some(clock + config.leaseSeconds);
        lease := Some(Ticket(who, generation));
      }
    }

    /** The first session of a poll: where to ask from. */
    method BeginPoll(t: Ticket) returns (poll: Option<Poll>)
      requires Valid()
      modifies this`polls
      ensures Valid() && View() == Apply(config, old(View()), Begin(t))
      ensures poll.Some? ==> poll.value in polls
    {
      StepKeeps(config, View(), Begin(t));
      poll := None;
      if owner == Some(t.owner) && generation == t.generation {
        var p := Poll(t, clock, if cursor.Some? then Some(cursor.value - config.lookback) else None);
        polls := polls + {p};
        poll := Some(p);
      }
    }

    /** The last session of a poll: the cursor moves to when the query was started. */
    method PublishPoll(p: Poll, jitter: nat) returns (published: bool)
      requires Valid() && p in polls
      modifies this`cursor, this`nextPoll, this`owner, this`expires, this`failures, this`windows
      ensures Valid() && View() == Apply(config, old(View()), Publish(p, jitter))
      ensures Later(old(cursor), cursor)
    {
      StepKeeps(config, View(), Publish(p, jitter));
      StepMovesOn(config, View(), Publish(p, jitter));
      published := owner == Some(p.ticket.owner) && generation == p.ticket.generation;
      if published {
        cursor := Some(p.started);
        nextPoll := clock + config.interval + jitter;
        owner, expires, failures := None, None, 0;
        windows := windows + {Window(p.since, p.started)};
      }
    }

    method FailPoll(t: Ticket, jitter: nat) returns (counted: bool)
      requires Valid()
      modifies this`failures, this`nextPoll, this`owner, this`expires
      ensures Valid() && View() == Apply(config, old(View()), Fail(t, jitter))
    {
      StepKeeps(config, View(), Fail(t, jitter));
      counted := owner == Some(t.owner) && generation == t.generation;
      if counted {
        failures := failures + 1;
        var exponent := Min(failures - 1, 20);
        nextPoll := clock + Min(config.maxBackoff, config.interval * Pow2(exponent)) + jitter;
        owner, expires := None, None;
      }
    }
  }
}
