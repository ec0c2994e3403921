/** When the telemetry pipe asks for a new socket (ctjs-module/sbr-dungeon-tracker/socket.js:103-155, 208-230). Only
    `scheduleRetry` moves the next attempt; the close and error callbacks do not call it. */
module TelemetryBackoff {
  import opened Prelude
  import Q = TelemetryQueue
  import opened TelemetrySocket
  import opened TelemetryRuns

  /** A pump asks for a socket exactly when the pipe is closed, has an address and the next attempt is due. */
  lemma PumpAsksExactly<T>(s: State<T>, now: int, fails: bool)
    ensures Pumped(s, now, fails).sockets > s.sockets <==>
            s.phase.Closed? && s.hasUrl && now >= s.nextAttemptAt && !fails
    ensures Pumped(s, now, fails).sockets >= s.sockets
  {
  }

  /** After a close or an error the next ask waits for whatever attempt was due before, and for nothing else. */
  lemma AskAfterClose<T>(s: State<T>, now: int)
    ensures OnClosed(s).nextAttemptAt == s.nextAttemptAt && OnClosed(s).phase.Closed? && OnClosed(s).ws.None?
    ensures OnClosed(s).queue == s.queue && OnClosed(s).wire == s.wire
    ensures Pumped(OnClosed(s), now, false).sockets > s.sockets <==> s.hasUrl && now >= s.nextAttemptAt
  {
    PumpAsksExactly(OnClosed(s), now, false);
  }

  // ----- what the next attempt is

  /** The pump schedules a retry. */
  predicate PumpSchedules<T>(s: State<T>, now: int, fails: bool) {
    match s.phase
    case Connecting => now - s.connectStartedAt > CONNECT_TIMEOUT_MS
    case Closed => now >= s.nextAttemptAt && s.hasUrl && fails
    case Idle => false
    case Open => s.ws.Some? && !InFlight(s) && fails && (!s.helloSent || Q.TakeCount(s.queue, MAX_BATCH) > 0)
  }

  /** What a start leaves before it pumps. */
  function Restarted<T>(s: State<T>, url: bool): State<T> {
    s.(hasUrl := s.hasUrl || url, backoffMs := BACKOFF_START_MS, nextAttemptAt := 0, retries := 0,
       phase := if s.phase.Idle? then Closed else s.phase)
  }

  /** The step schedules a retry. */
  predicate Schedules<T>(s: State<T>, step: Step<T>) {
    match step
    case PumpStep(now, fails) => PumpSchedules(s, now, fails)
    case StartStep(url, now, fails) => PumpSchedules(Restarted(s, url), now, fails)
    case ConnectStep(now, fails) => !s.phase.Connecting? && !s.phase.Open? && s.hasUrl && fails
    case _ => false
  }

  /** When the last retry scheduled since the last start is due. */
  function LastDue<T>(due: Option<int>, s: State<T>, steps: seq<Step<T>>): Option<int>
    decreases |steps|
  {
    if steps == [] then due
    else
      var step := steps[0];
      var due' :=
        if Schedules(s, step) then Some(step.now + Delay(if step.StartStep? then 0 else s.retries))
        else if step.StartStep? then None else due;
      LastDue(due', Apply(s, step), steps[1..])
  }

  predicate DueIs<T>(s: State<T>, due: Option<int>) {
    s.nextAttemptAt == if due.Some? then due.value else 0
  }

  lemma PumpDue<T>(s: State<T>, now: int, fails: bool)
    ensures Pumped(s, now, fails).nextAttemptAt ==
            if PumpSchedules(s, now, fails) then now + s.backoffMs else s.nextAttemptAt
  {
  }

  lemma StepDue<T>(s: State<T>, step: Step<T>)
    requires BackedOff(s)
    ensures Apply(s, step).nextAttemptAt ==
            if Schedules(s, step) then step.now + Delay(if step.StartStep? then 0 else s.retries)
            else if step.StartStep? then 0 else s.nextAttemptAt
  {
    assert Delay(0) == BACKOFF_START_MS by {
      assert Pow2(0) == 1;
    }
    match step
    case PumpStep(now, fails) => PumpDue(s, now, fails);
    case StartStep(url, now, fails) => PumpDue(Restarted(s, url), now, fails);
    case _ =>
  }

  lemma {:induction false} RunDue<T>(due: Option<int>, s: State<T>, steps: seq<Step<T>>)
    requires BackedOff(s) && DueIs(s, due)
    ensures DueIs(Run(s, steps), LastDue(due, s, steps))
    decreases |steps|
  {
    if steps != [] {
      var step := steps[0];
      StepDue(s, step);
      StepBackoff(s, step);
      hide Apply, BackedOff, Schedules, Delay;
      var due' :=
        if Schedules(s, step) then Some(step.now + Delay(if step.StartStep? then 0 else s.retries))
        else if step.StartStep? then None else due;
      RunDue(due', Apply(s, step), steps[1..]);
    }
  }

  /** In every reachable state a pump asks for a socket exactly when the pipe is closed, has an address, and the last
      retry scheduled since the last start, if there is one, is due. Closes in between change nothing. */
  lemma AsksWaitForTheLastRetry<T>(hasUrl: bool, limit: Option<int>, steps: seq<Step<T>>, s: State<T>, now: int)
    requires Reached(hasUrl, limit, steps, s) && now >= 0
    ensures var due := LastDue(None, Initial<T>(hasUrl, limit), steps);
            Pumped(s, now, false).sockets > s.sockets <==>
            s.phase.Closed? && s.hasUrl && (due.None? || now >= due.value)
  {
    InitialSound<T>(hasUrl, limit);
    RunDue<T>(None, Initial(hasUrl, limit), steps);
    PumpAsksExactly(s, now, false);
    hide Pumped, LastDue;
  }

  // ----- how long a scheduled retry holds

  predicate SendsHandshake<T>(s: State<T>, step: Step<T>) {
    |Apply(s, step).wire| > |s.wire| && Apply(s, step).wire[|s.wire|].frame.Hello?
  }

  /** Nobody starts or connects the pipe, no handshake goes out, and the clock stays between `t` and `due`. */
  predicate Undisturbed<T>(s: State<T>, steps: seq<Step<T>>, t: int, due: int)
    decreases |steps|
  {
    steps == [] ||
    (var step := steps[0];
     && !step.StartStep? && !step.ConnectStep? && !SendsHandshake(s, step)
     && (step.PumpStep? ==> t <= step.now < due)
     && Undisturbed(Apply(s, step), steps[1..], t, due))
  }

  /** The next attempt is no earlier than `due`, and a retry scheduled from `t` on would not be either. */
  predicate Holds<T>(s: State<T>, t: int, due: int) {
    s.nextAttemptAt >= due && t + s.backoffMs >= due && s.backoffMs <= BACKOFF_MAX_MS
  }

  lemma PumpHolds<T>(s: State<T>, now: int, fails: bool, t: int, due: int)
    requires Holds(s, t, due) && 0 <= s.backoffMs && t <= now < due
    requires !SendsHandshake(s, PumpStep(now, fails))
    ensures Holds(Pumped(s, now, fails), t, due) && Pumped(s, now, fails).sockets == s.sockets
    ensures 0 <= Pumped(s, now, fails).backoffMs
  {
    PumpAsksExactly(s, now, fails);
  }

  lemma {:induction false} NothingAskedBefore<T>(s: State<T>, steps: seq<Step<T>>, t: int, due: int)
    requires Holds(s, t, due) && 0 <= s.backoffMs && Undisturbed(s, steps, t, due)
    ensures Run(s, steps).sockets == s.sockets
    decreases |steps|
  {
    if steps != [] {
      var step := steps[0];
      if step.PumpStep? {
        PumpHolds(s, step.now, step.fails, t, due);
      }
      assert Holds(Apply(s, step), t, due) && 0 <= Apply(s, step).backoffMs && Apply(s, step).sockets == s.sockets;
      hide Apply, Holds, SendsHandshake;
      NothingAskedBefore(Apply(s, step), steps[1..], t, due);
    }
  }

  /** After a retry scheduled at `now`, no socket is asked for until its delay is over, whatever closes, opens, fails
      or is offered meanwhile, unless the pipe is started or connected by hand or a handshake goes out. */
  lemma RetryHoldsItsDelay<T>(hasUrl: bool, limit: Option<int>, before: seq<Step<T>>, s: State<T>, step: Step<T>,
                              after: seq<Step<T>>)
    requires Reached(hasUrl, limit, before, s) && Schedules(s, step)
    requires var delay := Delay(if step.StartStep? then 0 else s.retries);
             Undisturbed(Apply(s, step), after, step.now, step.now + delay)
    ensures Run(Apply(s, step), after).sockets == Apply(s, step).sockets
  {
    ReachedInv(hasUrl, limit, before, s);
    StepDue(s, step);
    var delay := Delay(if step.StartStep? then 0 else s.retries);
    ScheduledBackoff(s, step);
    StepBackoff(s, step);
    hide Apply, Schedules, Protocol, Streamed, Reached;
    NothingAskedBefore(Apply(s, step), after, step.now, step.now + delay);
  }

  lemma ScheduledBackoff<T>(s: State<T>, step: Step<T>)
    requires BackedOff(s) && Schedules(s, step)
    ensures var delay := Delay(if step.StartStep? then 0 else s.retries);
            0 < delay <= Apply(s, step).backoffMs <= BACKOFF_MAX_MS
  {
    assert Delay(0) == BACKOFF_START_MS by {
      assert Pow2(0) == 1;
    }
  }

  lemma {:induction false} RunSnoc<T>(s: State<T>, steps: seq<Step<T>>, step: Step<T>)
    requires ValidRun(s, steps) && Enabled(Run(s, steps), step)
    ensures ValidRun(s, steps + [step]) && Run(s, steps + [step]) == Apply(Run(s, steps), step)
    decreases |steps|
  {
    hide Apply, Enabled;
    if steps == [] {
      assert [] + [step] == [step] && [step][1..] == [];
    } else {
      assert (steps + [step])[0] == steps[0] && (steps + [step])[1..] == steps[1..] + [step];
      RunSnoc(Apply(s, steps[0]), steps[1..], step);
    }
  }

  lemma ReachedStep<T>(hasUrl: bool, limit: Option<int>, steps: seq<Step<T>>, s: State<T>, step: Step<T>)
    returns (more: seq<Step<T>>, s': State<T>)
    requires Reached(hasUrl, limit, steps, s) && Enabled(s, step)
    ensures Reached(hasUrl, limit, more, s') && s' == Apply(s, step) && more == steps + [step]
  {
    RunSnoc(Initial(hasUrl, limit), steps, step);
    more, s' := steps + [step], Apply(s, step);
  }

  /** So not every reconnect is spaced: started, opened, greeted and closed at one instant, the pipe asks for a second
      socket at that instant. */
  lemma ReconnectWithoutBackoff(limit: Option<int>, now: int) returns (steps: seq<Step<int>>, s: State<int>)
    requires now >= 0
    ensures steps == [StartStep(true, now, false), OpenStep(0), PumpStep(now, false), ClosedStep]
    ensures Reached(false, limit, steps, s) && Carried(s.wire, 0)
    ensures s.sockets == 1 && Pumped(s, now, false).sockets == 2
  {
    steps, s := [], Initial(false, limit);
    assert Reached(false, limit, steps, s);
    hide Reached;
    steps, s := ReachedStep(false, limit, steps, s, StartStep(true, now, false));
    steps, s := ReachedStep(false, limit, steps, s, OpenStep(0));
    steps, s := ReachedStep(false, limit, steps, s, PumpStep(now, false));
    assert s.wire == [Send(0, Hello, false)] && s.nextAttemptAt == 0;
    steps, s := ReachedStep(false, limit, steps, s, ClosedStep);
    assert s.wire[0].socket == 0;
  }

  /** The pipe waits for a retry at 36002, and has a connection that timed out and was greeted late. */
  predicate GreetedLate(s: State<int>) {
    && s.phase.Open? && s.ws == Some(1) && s.helloSent && !InFlight(s) && s.backoffMs == BACKOFF_START_MS
    && s.hasUrl && |s.queue.items| == 1 && s.nextAttemptAt == 36_002 && s.sockets == 2
  }

  lemma GreetedLateIsReached() returns (steps: seq<Step<int>>, s: State<int>)
    ensures Reached(true, None, steps, s) && GreetedLate(s)
  {
    steps, s := [], Initial(true, None);
    assert Reached(true, None, steps, s);
    hide Reached;
    steps, s := ReachedStep(true, None, steps, s, StartStep(true, 0, false));
    steps, s := ReachedStep(true, None, steps, s, PumpStep(15_001, false));
    assert s.phase.Closed? && s.nextAttemptAt == 17_001 && s.backoffMs == 4_000;
    steps, s := ReachedStep(true, None, steps, s, PumpStep(17_001, false));
    steps, s := ReachedStep(true, None, steps, s, PumpStep(32_002, false));
    assert s.phase.Closed? && s.nextAttemptAt == 36_002 && s.sockets == 2;
    steps, s := ReachedStep(true, None, steps, s, OpenStep(1));
    steps, s := ReachedStep(true, None, steps, s, PumpStep(32_003, false));
    assert s.wire == [Send(1, Hello, false)] && s.sendFuture == Some(0);
    steps, s := ReachedStep(true, None, steps, s, DoneStep(0));
    steps, s := ReachedStep(true, None, steps, s, OfferStep(7));
  }

  /** A handshake does shorten a wait. A connection that timed out opens late and is greeted, which resets the
      backoff; when its first batch fails the retry is due at 34004, two seconds before the one already scheduled. */
  lemma HandshakeShortensTheWait() returns (steps: seq<Step<int>>, s: State<int>)
    ensures Reached(true, None, steps, s) && s.nextAttemptAt == 36_002
    ensures var failed := Pumped(s, 32_004, true);
            failed.nextAttemptAt == 34_004 && Pumped(failed, 34_004, false).sockets == s.sockets + 1
  {
    steps, s := GreetedLateIsReached();
    hide Reached;
  }
}
