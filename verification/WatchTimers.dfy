/** The watcher's timers (src/watcher/source-watcher.ts): scheduling with backoff, the five-second sync that revives
    stalled watchers and resets zombie checks, and the checks that timers and webhooks start. Times are in
    milliseconds; a timer is represented by the time it is due. */
module WatchTimers {
  import opened Records

  const ZOMBIE_MS: real := 45000.0

  /** What the watcher keeps for one project; a removed entry reads as None, a missing error count as 0. */
  datatype Watch = Watch(timer: Option<real>, errors: nat, checking: Option<real>, lastCheck: Option<real>)

  const UNWATCHED: Watch := Watch(None, 0, None, None)

  function Min(a: real, b: real): real
  {
    if a < b then a else b
  }

  function Max(a: real, b: real): real
  {
    if a > b then a else b
  }

  /** `Math.min(2 ** errorCount, 8)`. */
  function Multiplier(errorCount: nat): real
  {
    if errorCount == 0 then 1.0 else if errorCount == 1 then 2.0 else if errorCount == 2 then 4.0 else 8.0
  }

  /** The delay of `scheduleNextCheck`; `random` is a draw of `Math.random()`. */
  function Delay(base: real, initial: bool, errorCount: nat, random: real): real
  {
    if errorCount > 0 then Min(base * Multiplier(errorCount) + random * 500.0, 60000.0)
    else if initial then base
    else base + (random * 500.0).Floor as real
  }

  /** How long a watcher may be silent before the sync considers it stalled. */
  function Patience(interval: real): real
  {
    var expectedInterval := if interval == 0.0 then 10000.0 else interval;
    Max(expectedInterval * 4.0, 30000.0)
  }

  predicate Stalled(w: Watch, interval: real, now: real)
  {
    w.lastCheck.Some? && w.lastCheck.value > 0.0 && now - w.lastCheck.value > Patience(interval)
  }

  // One project

  function Scheduled(w: Watch, interval: real, errorCount: nat, now: real, random: real): Watch
  {
    w.(timer := Some(now + Delay(interval, false, errorCount, random)))
  }

  predicate IsZombie(w: Watch, now: real)
  {
    w.checking.Some? && now - w.checking.value > ZOMBIE_MS
  }

  /** One round of the sync for one project; `index` counts the watchers this round has (re)started before. */
  function Synced(w: Watch, interval: real, index: nat, now: real, random: real): Watch
  {
    if IsZombie(w, now) then
      Scheduled(w.(checking := None, lastCheck := Some(now), errors := w.errors + 1), interval, w.errors + 1, now, random)
    else if w.checking.Some? then w
    else if w.timer.None? || Stalled(w, interval, now) then
      w.(timer := Some(now + if Stalled(w, interval, now) then 0.0 else index as real * 250.0))
    else w
  }

  /** Synced in a round that handled at most `earlier` projects before. */
  ghost predicate SyncedAfter(w: Watch, w': Watch, interval: real, earlier: nat, now: real, random: real)
  {
    exists index: nat :: index <= earlier && w' == Synced(w, interval, index, now, random)
  }

  /** Whether this round (re)started the watcher, and so delays the next one. */
  predicate Restarts(w: Watch, interval: real, now: real)
  {
    w.checking.None? && (w.timer.None? || Stalled(w, interval, now))
  }

  /** A check starts, unless one is in flight. */
  function CheckBegun(w: Watch, now: real): Watch
  {
    w.(checking := if w.checking.Some? then w.checking else Some(now), lastCheck := Some(now))
  }

  /** The timer fires; if a check is in flight its own check ends at once and it is scheduled again. */
  function Fired(w: Watch, interval: real, now: real, random: real): Watch
  {
    var begun := CheckBegun(w.(timer := None), now);
    if w.checking.Some? then Scheduled(begun, interval, 0, now, random) else begun
  }

  /** A check ends; one that a timer started schedules the next. */
  function CheckEnded(w: Watch, interval: real, byTimer: bool, failed: bool, now: real, random: real): Watch
  {
    var errors := if failed then w.errors + 1 else 0;
    var ended := w.(errors := errors, checking := None, lastCheck := Some(now));
    if byTimer then Scheduled(ended, interval, errors, now, random) else ended
  }

  class SourceWatcher {
    var timers: map<Project, real>
    var errorCounts: map<Project, nat>
    var checkingProjects: map<Project, real>
    var lastCheckTimestamps: map<Project, real>

    ghost function Of(project: Project): Watch
      reads this
    {
      Watch(
        if project in timers then Some(timers[project]) else None,
        if project in errorCounts then errorCounts[project] else 0,
        if project in checkingProjects then Some(checkingProjects[project]) else None,
        if project in lastCheckTimestamps then Some(lastCheckTimestamps[project]) else None)
    }

    constructor ()
      ensures forall project :: Of(project) == UNWATCHED
    {
      timers, errorCounts, checkingProjects, lastCheckTimestamps := map[], map[], map[], map[];
    }

    method ScheduleNextCheck(project: Project, interval: real, errorCount: nat, initialDelay: Option<real>, now: real, random: real)
      modifies this`timers
      ensures timers == old(timers)[project := now +
        Delay(if initialDelay.Some? then initialDelay.value else interval, initialDelay.Some?, errorCount, random)]
    {
      var baseInterval := if initialDelay.Some? then initialDelay.value else interval;
      if initialDelay.None? && errorCount == 0 {
        baseInterval := baseInterval + (random * 500.0).Floor as real;
      }
      if errorCount > 0 {
        var backoffMultiplier := Multiplier(errorCount);
        var jitter := random * 500.0;
        baseInterval := Min(baseInterval * backoffMultiplier + jitter, 60000.0);
      }
      timers := timers[project := now + baseInterval];
    }

    /** One iteration of the second loop of `syncProjects`. */
    method SyncProject(project: Project, interval: real, index: nat, now: real, random: real) returns (next: nat)
      modifies this
      ensures Of(project) == Synced(old(Of(project)), interval, index, now, random)
      ensures next == if Restarts(old(Of(project)), interval, now) then index + 1 else index
      ensures forall other :: other != project ==> Of(other) == old(Of(other))
    {
      next := index;
      if project in checkingProjects {
        if now - checkingProjects[project] > ZOMBIE_MS {
          checkingProjects := checkingProjects - {project};
          lastCheckTimestamps := lastCheckTimestamps[project := now];
          var count := (if project in errorCounts then errorCounts[project] else 0) + 1;
          errorCounts := errorCounts[project := count];
          ScheduleNextCheck(project, interval, count, None, now, random);
        }
        return;
      }
      var lastCheck := if project in lastCheckTimestamps then lastCheckTimestamps[project] else 0.0;
      var isStalled := lastCheck > 0.0 && now - lastCheck > Patience(interval);
      if project !in timers || isStalled {
        var initialDelay := if isStalled then 0.0 else index as real * 250.0;
        ScheduleNextCheck(project, interval, 0, Some(initialDelay), now, random);
        next := index + 1;
      }
    }

    /** The same, for the `earlier`-th project of a round. */
    method SyncNth(project: Project, interval: real, index: nat, earlier: nat, now: real, random: real) returns (next: nat)
      requires index <= earlier
      modifies this
      ensures SyncedAfter(old(Of(project)), Of(project), interval, earlier, now, random) && next <= earlier + 1
      ensures forall other :: other != project ==> Of(other) == old(Of(other))
    {
      next := SyncProject(project, interval, index, now, random);
    }

    /** `syncProjects`: watchers of deleted projects are dropped, the others are synced in order. */
    method SyncProjects(projects: seq<Project>, interval: Project -> real, now: real, random: Project -> real)
      requires forall i, j :: 0 <= i < j < |projects| ==> projects[i] != projects[j]
      modifies this
      ensures forall i :: 0 <= i < |projects| ==>
        SyncedAfter(old(Of(projects[i])), Of(projects[i]), interval(projects[i]), i, now, random(projects[i]))
      ensures forall p :: p !in projects ==> Of(p) == if old(Of(p)).timer.Some? then UNWATCHED else old(Of(p))
    {
      DropDeleted(projects);
      var n, index := 0, 0;
      while n < |projects|
        invariant 0 <= index <= n <= |projects|
        invariant forall i :: 0 <= i < n ==>
          SyncedAfter(old(Of(projects[i])), Of(projects[i]), interval(projects[i]), i, now, random(projects[i]))
        invariant forall i :: n <= i < |projects| ==> Of(projects[i]) == old(Of(projects[i]))
        invariant forall p :: p !in projects ==> Of(p) == if old(Of(p)).timer.Some? then UNWATCHED else old(Of(p))
      {
        var project := projects[n];
        var next := SyncNth(project, interval(project), index, n, now, random(project));
        index, n := next, n + 1;
      }
    }

    method DropDeleted(projects: seq<Project>)
      modifies this
      ensures forall p :: Of(p) == if p !in projects && old(Of(p)).timer.Some? then UNWATCHED else old(Of(p))
    {
      var gone := set p | p in timers && p !in projects;
      timers := timers - gone;
      errorCounts := errorCounts - gone;
      checkingProjects := checkingProjects - gone;
      lastCheckTimestamps := lastCheckTimestamps - gone;
    }

    method BeginCheck(project: Project, now: real) returns (begun: bool)
      modifies this`checkingProjects, this`lastCheckTimestamps
      ensures Of(project) == CheckBegun(old(Of(project)), now)
      ensures begun <==> old(Of(project)).checking.None?
      ensures checkingProjects == if begun then old(checkingProjects)[project := now] else old(checkingProjects)
      ensures lastCheckTimestamps == old(lastCheckTimestamps)[project := now]
    {
      begun := project !in checkingProjects;
      if begun {
        checkingProjects := checkingProjects[project := now];
      }
      lastCheckTimestamps := lastCheckTimestamps[project := now];
    }

    /** The timer callback, up to the first await of its check. */
    method TimerFires(project: Project, interval: real, now: real, random: real) returns (begun: bool)
      modifies this
      ensures Of(project) == Fired(old(Of(project)), interval, now, random)
      ensures forall other :: other != project ==> Of(other) == old(Of(other))
    {
      timers := timers - {project};
      begun := BeginCheck(project, now);
      if !begun {
        ScheduleNextCheck(project, interval, 0, None, now, random);
      }
    }

    method EndCheck(project: Project, interval: real, byTimer: bool, failed: bool, now: real, random: real)
      modifies this
      ensures Of(project) == CheckEnded(old(Of(project)), interval, byTimer, failed, now, random)
      ensures forall other :: other != project ==> Of(other) == old(Of(other))
    {
      var count := if failed then (if project in errorCounts then errorCounts[project] else 0) + 1 else 0;
      errorCounts := errorCounts[project := count];
      checkingProjects := checkingProjects - {project};
      lastCheckTimestamps := lastCheckTimestamps[project := now];
      if byTimer {
        ScheduleNextCheck(project, interval, count, None, now, random);
      }
    }
  }

  // Delays

  /** For one draw: from the second consecutive error on, waiting never gets shorter, and it is capped at a minute. */
  lemma BackoffIsMonotone(interval: real, errorCount: nat, random: real)
    requires interval >= 0.0 && errorCount >= 1 && 0.0 <= random < 1.0
    ensures Delay(interval, false, errorCount, random) <= Delay(interval, false, errorCount + 1, random) <= 60000.0
  {
  }

  /** The first error makes the wait longer only if the interval is within the cap: a longer interval is cut to a minute. */
  lemma FirstErrorBacksOff(interval: real, random: real)
    requires interval >= 0.0 && 0.0 <= random < 1.0
    ensures Delay(interval, false, 0, random) <= Delay(interval, false, 1, random) <==>
      interval + (random * 500.0).Floor as real <= 60000.0
  {
  }

  /** A delay within the patience of the sync for every error count and draw. */
  ghost predicate Patient(interval: real)
  {
    forall errorCount: nat, random: real ::
      0.0 <= random < 1.0 ==> Delay(interval, false, errorCount, random) <= Patience(interval)
  }

  /** Every delay stays within the patience of the sync exactly for short intervals and for long ones: between 3687.5 ms
      and 15 s, the third error in a row can schedule a check the sync will not wait for. */
  lemma PatienceCoversDelays(interval: real)
    requires interval >= 0.0
    ensures Patient(interval) <==> interval <= 3687.5 || interval >= 15000.0
  {
    if interval <= 3687.5 || interval >= 15000.0 {
      forall errorCount: nat, random: real | 0.0 <= random < 1.0
        ensures Delay(interval, false, errorCount, random) <= Patience(interval)
      {
      }
    } else {
      var random := LongDraw(interval);
      assert Delay(interval, false, 3, random) > Patience(interval);
    }
  }

  /** A draw that makes the third error's delay too long. */
  lemma LongDraw(interval: real) returns (random: real)
    requires 3687.5 < interval < 15000.0
    ensures 0.0 <= random < 1.0 && Delay(interval, false, 3, random) > Patience(interval)
  {
    random := if interval >= 3750.0 then 0.5 else (30500.0 - 8.0 * interval) / 1000.0;
  }

  // Syncs

  /** How long after its end the next check is due, after `count` failed ones in a row. */
  ghost predicate WaitsFor(wait: real, interval: real, count: nat, random: real)
  {
    var factor := if count == 0 then 1.0 else if count == 1 then 2.0 else if count == 2 then 4.0 else 8.0;
    if count > 0 && interval * factor + random * 500.0 >= 60000.0 then wait == 60000.0
    else interval * factor <= wait < interval * factor + 500.0
  }

  /** What one round of the sync does to a watcher: a check in flight for more than 45 seconds is forgotten, counted as an
      error and followed by its backoff; a younger one is left alone; a watcher without a timer is started after a stagger;
      one that has been silent for four intervals, and for half a minute at least, is started at once; and nothing else. */
  lemma SyncsExactly(w: Watch, interval: real, index: nat, now: real, random: real)
    requires interval >= 0.0 && 0.0 <= random < 1.0
    ensures var w' := Synced(w, interval, index, now, random);
      var silence := 4.0 * (if interval == 0.0 then 10000.0 else interval);
      var silent := w.lastCheck.Some? && w.lastCheck.value > 0.0
        && now - w.lastCheck.value > (if silence > 30000.0 then silence else 30000.0);
      if w.checking.Some? && now - w.checking.value > 45000.0 then
        && w' == Watch(w'.timer, w.errors + 1, None, Some(now))
        && w'.timer.Some? && WaitsFor(w'.timer.value - now, interval, w.errors + 1, random)
      else if w.checking.Some? then w' == w
      else if silent then w' == w.(timer := Some(now))
      else if w.timer.None? then w' == w.(timer := Some(now + index as real * 250.0))
      else w' == w
  {
  }

  // Runs of one project's watcher

  /** `byTimer`: the check in flight was started by the timer. */
  datatype State = State(w: Watch, now: real, byTimer: bool)

  datatype Event =
    | Pass(elapsed: real)
    | Sync(index: nat, random: real)
    | Fire(random: real)
    | Webhook
    | End(failed: bool, random: real)

  predicate Draw(random: real)
  {
    0.0 <= random < 1.0
  }

  /** Timers fire when they are due, and no check lasts long enough to be reset as a zombie. */
  predicate Possible(interval: real, s: State, e: Event)
  {
    match e
    case Pass(elapsed) => elapsed >= 0.0 && (s.w.timer.Some? ==> s.now + elapsed <= s.w.timer.value)
    case Sync(_, random) => Draw(random) && !IsZombie(s.w, s.now)
    case Fire(random) => Draw(random) && s.w.timer == Some(s.now)
    case Webhook => true
    case End(_, random) => Draw(random) && s.w.checking.Some?
  }

  function Apply(interval: real, s: State, e: Event): State
  {
    match e
    case Pass(elapsed) => s.(now := s.now + elapsed)
    case Sync(index, random) => s.(w := Synced(s.w, interval, index, s.now, random))
    case Fire(random) => s.(w := Fired(s.w, interval, s.now, random), byTimer := s.byTimer || s.w.checking.None?)
    case Webhook => s.(w := CheckBegun(s.w, s.now), byTimer := s.byTimer && s.w.checking.Some?)
    case End(failed, random) => s.(w := CheckEnded(s.w, interval, s.byTimer, failed, s.now, random), byTimer := false)
  }

  predicate Feasible(interval: real, s: State, events: seq<Event>)
    decreases |events|
  {
    events != [] ==> Possible(interval, s, events[0]) && Feasible(interval, Apply(interval, s, events[0]), events[1..])
  }

  function Run(interval: real, s: State, events: seq<Event>): State
    decreases |events|
  {
    if events == [] then s else Run(interval, Apply(interval, s, events[0]), events[1..])
  }

  /** A watched project has a pending timer, or a check that will schedule one; and the timer is never further away
      than the sync's patience. */
  ghost predicate Watched(interval: real, s: State)
  {
    && s.now > 0.0
    && (s.w.timer.None? ==> s.byTimer && s.w.checking.Some?)
    && (s.byTimer ==> s.w.checking.Some? && s.w.timer.None?)
    && (s.w.lastCheck.Some? ==> 0.0 < s.w.lastCheck.value <= s.now)
    && (s.w.timer.Some? ==>
          s.now <= s.w.timer.value <= (if s.w.lastCheck.Some? then s.w.lastCheck.value else s.now) + Patience(interval))
  }

  /** The first sync of a project starts its timer; `index` projects have been started before it in the same round. */
  function Started(interval: real, now: real, index: nat, random: real): State
  {
    State(Synced(UNWATCHED, interval, index, now, random), now, false)
  }

  lemma FirstSyncWatches(interval: real, now: real, index: nat, random: real)
    requires now > 0.0 && interval >= 0.0 && index as real * 250.0 <= Patience(interval)
    ensures Watched(interval, Started(interval, now, index, random))
  {
  }

  lemma ApplyWatched(interval: real, s: State, e: Event)
    requires interval >= 0.0 && Patient(interval) && Watched(interval, s) && Possible(interval, s, e)
    ensures Watched(interval, Apply(interval, s, e))
    ensures e.Sync? ==> Apply(interval, s, e) == s
  {
    match e
    case Fire(random) => assert Delay(interval, false, 0, random) <= Patience(interval);
    case End(failed, random) =>
      var errors := if failed then s.w.errors + 1 else 0;
      assert Delay(interval, false, errors, random) <= Patience(interval);
    case _ =>
  }

  /** With an interval whose delays the sync has patience for, and timers that fire on time: once a project is watched,
      no sync ever touches its timer, however its checks end and however webhooks interfere. */
  lemma {:induction false} NoFalseStall(interval: real, s: State, events: seq<Event>, n: nat)
    requires interval >= 0.0 && Patient(interval)
    requires Watched(interval, s) && Feasible(interval, s, events) && n < |events| && events[n].Sync?
    ensures Run(interval, s, events[..n + 1]) == Run(interval, s, events[..n])
    decreases |events|
  {
    ApplyWatched(interval, s, events[0]);
    if n == 0 {
      assert events[..1] == [events[0]];
      assert Run(interval, s, events[..1]) == Run(interval, Apply(interval, s, events[0]), []) by {
        assert events[..1][1..] == [];
      }
    } else {
      NoFalseStall(interval, Apply(interval, s, events[0]), events[1..], n - 1);
      assert events[..n + 1][1..] == events[1..][..n];
      assert events[..n][1..] == events[1..][..n - 1];
    }
  }

  // Errors in a row

  /** Checks that failed since the last good one, starting from `count`. */
  function InARow(count: nat, events: seq<Event>): nat
    decreases |events|
  {
    if events == [] then count
    else match events[0]
      case End(failed, _) => InARow(if failed then count + 1 else 0, events[1..])
      case _ => InARow(count, events[1..])
  }

  /** The error count is the number of failed checks in a row: one good check, whoever started it, resets it. */
  lemma {:induction false} ErrorsAreInARow(interval: real, s: State, events: seq<Event>)
    requires Feasible(interval, s, events)
    ensures Run(interval, s, events).w.errors == InARow(s.w.errors, events)
    decreases |events|
  {
    if events != [] {
      ErrorsAreInARow(interval, Apply(interval, s, events[0]), events[1..]);
    }
  }

  /** When the next check of a timer comes: after a good check the interval and up to half a second later; after the n-th
      failed one in a row twice, four times or eight times the interval, but within a minute. */
  lemma NextCheckIsDue(interval: real, s: State, failed: bool, random: real)
    requires interval >= 0.0 && s.byTimer && Possible(interval, s, End(failed, random))
    ensures var timer := Apply(interval, s, End(failed, random)).w.timer;
      timer.Some? && WaitsFor(timer.value - s.now, interval, if failed then s.w.errors + 1 else 0, random)
  {
  }

  lemma {:induction false} Extends(interval: real, s: State, events: seq<Event>, e: Event)
    requires Feasible(interval, s, events) && Possible(interval, Run(interval, s, events), e)
    ensures Feasible(interval, s, events + [e])
    ensures Run(interval, s, events + [e]) == Apply(interval, Run(interval, s, events), e)
    decreases |events|
  {
    if events == [] {
      assert ([] + [e])[1..] == [];
    } else {
      assert (events + [e])[1..] == events[1..] + [e];
      Extends(interval, Apply(interval, s, events[0]), events[1..], e);
    }
  }

  /** The stagger of the first sync must not exceed the patience: after more than that many projects, a webhook's check
      that ends before the first timer is due makes a later sync think the watcher stalled, and move its timer. */
  lemma LongStaggerIsCutShort(interval: real, now: real, index: nat) returns (events: seq<Event>)
    requires now > 0.0 && interval >= 0.0 && index as real * 250.0 > Patience(interval)
    ensures var s := Started(interval, now, index, 0.0);
      && Feasible(interval, s, events) && events != [] && events[|events| - 1].Sync?
      && Run(interval, s, events).w.timer != Run(interval, s, events[..|events| - 1]).w.timer
  {
    var s := Started(interval, now, index, 0.0);
    var checked := [Event.Webhook, End(false, 0.0)];
    Extends(interval, s, [], Event.Webhook);
    assert [] + [Event.Webhook] == [Event.Webhook];
    Extends(interval, s, [Event.Webhook], End(false, 0.0));
    assert [Event.Webhook] + [End(false, 0.0)] == checked;
    var silence := Pass((Patience(interval) + index as real * 250.0) / 2.0);
    Extends(interval, s, checked, silence);
    Extends(interval, s, checked + [silence], Sync(0, 0.0));
    events := checked + [silence] + [Sync(0, 0.0)];
    assert events[..|events| - 1] == checked + [silence];
  }

  /** Between two checks: a timer is pending, nothing is in flight. */
  predicate Resting(s: State)
  {
    s.w.timer.Some? && s.now <= s.w.timer.value && s.w.checking.None? && !s.byTimer
  }

  /** The timer comes due, and its check fails. */
  lemma FailingRound(interval: real, s: State, events: seq<Event>, random: real) returns (more: seq<Event>)
    requires interval >= 0.0 && Draw(random) && Feasible(interval, s, events) && Resting(Run(interval, s, events))
    ensures Feasible(interval, s, more) && Resting(Run(interval, s, more))
    ensures var before, after := Run(interval, s, events), Run(interval, s, more);
      && after.now == before.w.timer.value && after.w.lastCheck == Some(after.now) && after.w.errors == before.w.errors + 1
      && after.w.timer == Some(after.now + Delay(interval, false, after.w.errors, random))
  {
    var before := Run(interval, s, events);
    var due := events + [Pass(before.w.timer.value - before.now)];
    Extends(interval, s, events, Pass(before.w.timer.value - before.now));
    Extends(interval, s, due, Fire(random));
    Extends(interval, s, due + [Fire(random)], End(true, random));
    more := due + [Fire(random)] + [End(true, random)];
  }

  /** For the intervals in between, the backoff can be defeated: from the first sync on, after three failed checks in a
      row, a sync revives the watcher at once though its backoff has not passed. */
  lemma BackoffDefeated(interval: real, now: real) returns (events: seq<Event>)
    requires 3687.5 < interval < 15000.0 && now > 0.0
    ensures var s := Started(interval, now, 0, 0.0);
      && Feasible(interval, s, events) && events != [] && events[|events| - 1].Sync?
      && var before, after := Run(interval, s, events[..|events| - 1]), Run(interval, s, events);
      && before.w.errors == 3 && before.w.timer.Some? && before.now < before.w.timer.value
      && after.w.timer == Some(before.now)
  {
    var s := Started(interval, now, 0, 0.0);
    var random := LongDraw(interval);
    var once := FailingRound(interval, s, [], 0.0);
    var twice := FailingRound(interval, s, once, 0.0);
    var thrice := FailingRound(interval, s, twice, random);
    var silence := Pass((Delay(interval, false, 3, random) + Patience(interval)) / 2.0);
    Extends(interval, s, thrice, silence);
    Extends(interval, s, thrice + [silence], Sync(0, 0.0));
    events := thrice + [silence] + [Sync(0, 0.0)];
    assert events[..|events| - 1] == thrice + [silence];
  }
}
