/** Coming back after a Minecraft disconnect (apps/bridge-bot/src/transport.ts:655-656, 1617-1619, 1742-1783,
    2228-2229, 2280-2284): one bot or one timer, never both, and a backoff that only a spawn clears. */
module Reconnect {
  import opened Prelude

  const BASE_MS := 5_000
  const MAX_MS := 300_000

  function Delay(attempts: nat): int {
    Min(BASE_MS * Pow2(attempts), MAX_MS)
  }

  /** What happened, for good: a session spawned, a reconnect was scheduled, a connection was opened. */
  datatype Entry = Spawned | Scheduled(delay: int) | Opened(at: int)

  /** `timer` is when the pending reconnect is due; `bot` says whether a bot exists that has not ended. */
  datatype State = State(spawned: bool, attempts: nat, timer: Option<int>, stopping: bool, bot: bool, log: seq<Entry>)

  function Scheduling(s: State, now: int): State {
    if s.stopping || s.timer.Some? then s
    else s.(timer := Some(now + Delay(s.attempts)), attempts := s.attempts + 1,
            log := s.log + [Scheduled(Delay(s.attempts))])
  }

  function Spawning(s: State): State {
    s.(spawned := true, attempts := 0, log := s.log + [Spawned])
  }

  function Ending(s: State, now: int): State {
    Scheduling(s.(spawned := false, bot := false), now)
  }

  /** `fails` says whether creating the bot throws. */
  function Firing(s: State, now: int, fails: bool): State {
    var idle := s.(timer := None);
    if s.stopping then idle
    else if fails then Scheduling(idle, now)
    else idle.(bot := true, log := s.log + [Opened(now)])
  }

  function Stopping(s: State): State {
    s.(stopping := true, timer := None)
  }

  class Reconnect {
    var spawned: bool
    var attempts: nat
    var timer: Option<int>
    var stopping: bool
    var bot: bool
    ghost var log: seq<Entry>

    ghost function View(): State
      reads this
    {
      State(spawned, attempts, timer, stopping, bot, log)
    }

    constructor (now: int)
      ensures View() == Initial(now)
    {
      spawned, attempts, timer, stopping, bot, log := false, 0, None, false, true, [Opened(now)];
    }

    method OnSpawn()
      modifies this
      ensures View() == Spawning(old(View()))
    {
      spawned := true;
      attempts := 0;
      log := log + [Spawned];
    }

    method OnEnd(now: int)
      modifies this
      ensures View() == Ending(old(View()), now)
    {
      spawned := false;
      bot := false;
      ScheduleReconnect(now);
    }

    method ScheduleReconnect(now: int)
      modifies this
      ensures View() == Scheduling(old(View()), now)
    {
      if stopping || timer.Some? {
        return;
      }
      var power, k := 1, 0;
      while k < attempts
        invariant k <= attempts && power == Pow2(k)
      {
        power, k := 2 * power, k + 1;
      }
      var delay := Min(BASE_MS * power, MAX_MS);
      attempts := attempts + 1;
      timer := Some(now + delay);
      log := log + [Scheduled(delay)];
    }

    method OnTimer(now: int, fails: bool)
      modifies this
      ensures View() == Firing(old(View()), now, fails)
    {
      timer := None;
      if stopping {
        return;
      }
      if fails {
        ScheduleReconnect(now);
      } else {
        bot := true;
        log := log + [Opened(now)];
      }
    }

    method Stop()
      modifies this
      ensures View() == Stopping(old(View()))
    {
      stopping := true;
      timer := None;
    }
  }

  // ----- runs

  datatype Event = OnSpawn | OnEnd | OnTimer(fails: bool) | Stop

  datatype Step = Step(event: Event, now: int)

  function Initial(now: int): State {
    State(false, 0, None, false, true, [Opened(now)])
  }

  function Apply(s: State, step: Step): State {
    match step.event
    case OnSpawn => Spawning(s)
    case OnEnd => Ending(s, step.now)
    case OnTimer(fails) => Firing(s, step.now, fails)
    case Stop => Stopping(s)
  }

  function Run(start: int, steps: seq<Step>): State {
    if steps == [] then Initial(start) else Apply(Run(start, steps[..|steps| - 1]), steps[|steps| - 1])
  }

  /** Only a bot that exists spawns or ends, and a timer fires when it is due or later. */
  predicate Enabled(s: State, step: Step) {
    match step.event
    case OnSpawn => s.bot
    case OnEnd => s.bot
    case OnTimer(_) => s.timer.Some? && s.timer.value <= step.now
    case Stop => true
  }

  function LastTime(start: int, steps: seq<Step>): int {
    if steps == [] then start else steps[|steps| - 1].now
  }

  /** A run of the runtime: enabled steps under a clock that never goes back. */
  predicate Legal(start: int, steps: seq<Step>) {
    steps == [] ||
    (var before, step := steps[..|steps| - 1], steps[|steps| - 1];
     Legal(start, before) && Enabled(Run(start, before), step) && LastTime(start, before) <= step.now)
  }

  // ----- never stuck, never doubled

  /** Until the process stops there is either a bot or a pending reconnect, and never both. */
  lemma {:induction false} BotOrTimer(start: int, steps: seq<Step>)
    requires Legal(start, steps) && !Run(start, steps).stopping
    ensures Run(start, steps).bot <==> Run(start, steps).timer.None?
  {
    if steps != [] {
      BotOrTimer(start, steps[..|steps| - 1]);
    }
  }

  // ----- the backoff

  /** Reconnects scheduled since the last spawn. */
  function SinceSpawn(log: seq<Entry>): nat {
    if log == [] || log[|log| - 1].Spawned? then 0
    else (if log[|log| - 1].Scheduled? then 1 else 0) + SinceSpawn(log[..|log| - 1])
  }

  ghost predicate Doubling(log: seq<Entry>) {
    forall i :: 0 <= i < |log| && log[i].Scheduled? ==> log[i].delay == Delay(SinceSpawn(log[..i]))
  }

  lemma DoublingExtend(log: seq<Entry>, e: Entry)
    requires Doubling(log) && (e.Scheduled? ==> e.delay == Delay(SinceSpawn(log)))
    ensures Doubling(log + [e])
    ensures SinceSpawn(log + [e]) ==
            if e.Spawned? then 0 else (if e.Scheduled? then 1 else 0) + SinceSpawn(log)
  {
    var more := log + [e];
    assert more[..|log|] == log;
    forall i | 0 <= i < |more| && more[i].Scheduled? ensures more[i].delay == Delay(SinceSpawn(more[..i])) {
      if i < |log| {
        assert more[..i] == log[..i];
      }
    }
  }

  /** After j reconnects since the last spawn the next one waits min(5000 * 2^j, 300000); opening a connection does
      not clear the count. */
  lemma {:induction false} BackoffDoubles(start: int, steps: seq<Step>)
    ensures Doubling(Run(start, steps).log)
    ensures Run(start, steps).attempts == SinceSpawn(Run(start, steps).log)
  {
    if steps == [] {
      assert [Opened(start)][..0] == [];
    } else {
      hide Doubling, SinceSpawn, Delay, Apply;
      var before, step := steps[..|steps| - 1], steps[|steps| - 1];
      BackoffDoubles(start, before);
      StepDoubles(Run(start, before), step);
    }
  }

  lemma StepDoubles(s: State, step: Step)
    requires Doubling(s.log) && s.attempts == SinceSpawn(s.log)
    ensures Doubling(Apply(s, step).log) && Apply(s, step).attempts == SinceSpawn(Apply(s, step).log)
  {
    hide Doubling, SinceSpawn, Delay;
    DoublingExtend(s.log, Spawned);
    DoublingExtend(s.log, Scheduled(Delay(s.attempts)));
    DoublingExtend(s.log, Opened(step.now));
  }

  // ----- from the events alone

  predicate Stopped(steps: seq<Step>) {
    exists i :: 0 <= i < |steps| && steps[i].event.Stop?
  }

  /** Ends and failed reconnects since the last spawn. */
  function Failures(steps: seq<Step>): nat {
    if steps == [] then 0
    else
      match steps[|steps| - 1].event
      case OnSpawn => 0
      case OnEnd => 1 + Failures(steps[..|steps| - 1])
      case OnTimer(fails) => (if fails then 1 else 0) + Failures(steps[..|steps| - 1])
      case Stop => Failures(steps[..|steps| - 1])
  }

  function Wait(failures: nat): int {
    Min(5_000 * Pow2(failures), 300_000)
  }

  /** What is on record of a run: each spawn, each connection opened, and each wait by what failed since the last spawn. */
  function Story(start: int, steps: seq<Step>): seq<Entry> {
    if steps == [] then [Opened(start)]
    else
      var before, step := steps[..|steps| - 1], steps[|steps| - 1];
      Story(start, before) +
      match step.event
      case OnSpawn => [Spawned]
      case OnEnd => if Stopped(before) then [] else [Scheduled(Wait(Failures(before)))]
      case OnTimer(fails) =>
        if Stopped(before) then [] else if fails then [Scheduled(Wait(Failures(before)))] else [Opened(step.now)]
      case Stop => []
  }

  lemma StoppedSnoc(before: seq<Step>, step: Step)
    ensures Stopped(before + [step]) <==> Stopped(before) || step.event.Stop?
  {
    var all := before + [step];
    if Stopped(before) {
      var i :| 0 <= i < |before| && before[i].event.Stop?;
      assert all[i] == before[i];
    }
    assert all[|before|] == step;
  }

  /** Over every run: the record is what the events say; until the stop an end or a failed reconnect is followed by a timer
      at that wait and by no bot, a timer that does not fail by a bot; and the session counts as spawned from a spawn to
      the next end. */
  lemma {:induction false} RunFollowsEvents(start: int, steps: seq<Step>)
    requires Legal(start, steps)
    ensures var s := Run(start, steps);
            && s.log == Story(start, steps) && (s.stopping <==> Stopped(steps))
            && (!Stopped(steps) ==> s.attempts == Failures(steps))
            && (steps != [] ==>
                  var before, step := steps[..|steps| - 1], steps[|steps| - 1];
                  && (step.event.OnSpawn? ==> s.spawned) && (step.event.OnEnd? ==> !s.spawned)
                  && (step.event.OnTimer? || step.event.Stop? ==> s.spawned == Run(start, before).spawned)
                  && (!Stopped(steps) && (step.event == OnEnd || step.event == OnTimer(true)) ==>
                        s.timer == Some(step.now + Wait(Failures(before))) && !s.bot)
                  && (!Stopped(steps) && step.event == OnTimer(false) ==> s.bot && s.timer.None?)
                  && (Stopped(steps) ==> s.timer.None?))
  {
    if steps != [] {
      var before, step := steps[..|steps| - 1], steps[|steps| - 1];
      assert steps == before + [step];
      RunFollowsEvents(start, before);
      StoppedSnoc(before, step);
      if !Stopped(before) {
        BotOrTimer(start, before);
      }
      hide Stopped, Pow2;
    }
  }

  // ----- connections are spaced

  /** When each connection was opened. */
  function Openings(log: seq<Entry>): seq<int> {
    if log == [] then []
    else
      var e := log[|log| - 1];
      Openings(log[..|log| - 1]) + if e.Opened? then [e.at] else []
  }

  lemma OpeningsExtend(log: seq<Entry>, e: Entry)
    ensures Openings(log + [e]) == Openings(log) + if e.Opened? then [e.at] else []
  {
    assert (log + [e])[..|log|] == log;
  }

  lemma DelayAtLeastBase(attempts: nat)
    ensures Delay(attempts) >= BASE_MS
  {
    MulOrder(1, Pow2(attempts), BASE_MS);
  }

  /** A step opens a connection exactly when its timer fires, nobody stopped and creating the bot does not throw; a timer
      that is newly set lies a base delay ahead. */
  lemma StepOpens(s: State, step: Step)
    ensures var s' := Apply(s, step);
            && Openings(s'.log) ==
               Openings(s.log) + (if step.event == OnTimer(false) && !s.stopping then [step.now] else [])
            && (step.event == OnTimer(false) && !s.stopping ==> s'.timer.None?)
            && (s'.timer.Some? ==> s'.timer == s.timer || step.now + BASE_MS <= s'.timer.value)
  {
    hide Delay, Openings;
    DelayAtLeastBase(s.attempts);
    OpeningsExtend(s.log, Spawned);
    OpeningsExtend(s.log, Scheduled(Delay(s.attempts)));
    OpeningsExtend(s.log, Opened(step.now));
    assert Openings(s.log) + [] == Openings(s.log);
  }

  lemma SpacedSnoc(o: seq<int>, gap: int, at: int)
    requires o != [] && Spaced(o, gap) && o[|o| - 1] + gap <= at
    ensures Spaced(o + [at], gap)
  {
  }

  /** However often the server drops the bot or the login throws, connections open at least five seconds apart. */
  lemma {:induction false} OpeningsAreSpaced(start: int, steps: seq<Step>)
    requires Legal(start, steps)
    ensures var s, o := Run(start, steps), Openings(Run(start, steps).log);
            && o != [] && Spaced(o, BASE_MS) && o[|o| - 1] <= LastTime(start, steps)
            && (s.timer.Some? ==> o[|o| - 1] + BASE_MS <= s.timer.value)
  {
    hide Openings, Spaced, Apply;
    if steps == [] {
      FirstOpening(start);
    } else {
      var before, step := steps[..|steps| - 1], steps[|steps| - 1];
      OpeningsAreSpaced(start, before);
      var s := Run(start, before);
      StepOpens(s, step);
      if step.event == OnTimer(false) && !s.stopping {
        SpacedSnoc(Openings(s.log), BASE_MS, step.now);
      } else {
        assert Openings(s.log) + [] == Openings(s.log);
      }
    }
  }

  lemma FirstOpening(start: int)
    ensures Openings([Opened(start)]) == [start] && Spaced([start], BASE_MS)
  {
    OpeningsExtend([], Opened(start));
    assert [] + [Opened(start)] == [Opened(start)];
  }

  // ----- stopping is final

  /** Once stopped, nothing is ever scheduled or opened again. */
  lemma {:induction false} StopIsFinal(start: int, steps: seq<Step>, k: nat)
    requires Legal(start, steps) && k <= |steps| && Run(start, steps[..k]).stopping
    ensures var s, then_ := Run(start, steps), Run(start, steps[..k]);
            && s.stopping && s.timer == None
            && Openings(s.log) == Openings(then_.log)
            && forall i :: |then_.log| <= i < |s.log| ==> s.log[i].Spawned?
    decreases |steps|
  {
    if k == |steps| {
      assert steps[..k] == steps;
      StoppedHasNoTimer(start, steps);
    } else {
      var before, step := steps[..|steps| - 1], steps[|steps| - 1];
      assert before[..k] == steps[..k];
      StopIsFinal(start, before, k);
      OpeningsExtend(Run(start, before).log, Spawned);
    }
  }

  lemma {:induction false} StoppedHasNoTimer(start: int, steps: seq<Step>)
    requires Legal(start, steps)
    ensures Run(start, steps).stopping ==> Run(start, steps).timer == None
  {
    if steps != [] {
      StoppedHasNoTimer(start, steps[..|steps| - 1]);
    }
  }
}
