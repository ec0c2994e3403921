/** How long an accepted urgent command can wait while the session is live and timers fire on time. */
module CommandQueueLatency {
  import opened Prelude
  import opened Q = CommandQueue
  import opened CommandQueueRuns

  /** The session is live, and no timer is late: nothing happens after a wake time before that wake. */
  predicate PromptStep(s: State, step: Step) {
    step.live && (!s.phase.Idle? ==> step.now <= s.phase.wakeAt)
  }

  predicate Prompt(s: State, steps: seq<Step>)
    decreases |steps|
  {
    steps == [] || (PromptStep(s, steps[0]) && Prompt(Apply(s, steps[0]), steps[1..]))
  }

  /** `e` is the i-th waiting command, and the queue wakes early enough to reach it by `deadline`. */
  predicate DueAt(s: State, e: Entry, i: int, deadline: int) {
    && 0 <= i < |s.pending| && s.pending[i] == e
    && !s.phase.Idle?
    && s.phase.wakeAt + i * s.opts.spacing <= deadline
  }

  ghost predicate Due(s: State, e: Entry, deadline: int) {
    exists i :: DueAt(s, e, i, deadline)
  }

  predicate SettledBy(s: State, e: Entry, deadline: int) {
    exists l :: 0 <= l < |s.log| && s.log[l].entry == e && s.log[l].at <= deadline
  }

  lemma SettledStays(s: State, s': State, e: Entry, deadline: int)
    requires SettledBy(s, e, deadline) && s.log <= s'.log
    ensures SettledBy(s', e, deadline)
  {
  }

  /** When the head may be typed, seen from the loop head at `now`. */
  function ReadyAt(s: State, now: int): int {
    if now - s.lastSentAt < s.opts.spacing then s.lastSentAt + s.opts.spacing else now
  }

  lemma {:induction false} DrainMeets(s: State, now: int, e: Entry, i: nat, deadline: int)
    requires i < |s.pending| && s.pending[i] == e
    requires ReadyAt(s, now) + i * s.opts.spacing <= deadline
    ensures Due(DrainFrom(s, now, true), e, deadline) || SettledBy(DrainFrom(s, now, true), e, deadline)
    decreases |s.pending|, 1
  {
    if now - s.lastSentAt < s.opts.spacing {
      assert DueAt(DrainFrom(s, now, true), e, i, deadline);
    } else {
      AttemptMeets(s, now, e, i, deadline);
    }
  }

  /** The head leaves now: either it is `e`, or `e` moves up one place. */
  lemma {:induction false} AttemptMeets(s: State, now: int, e: Entry, i: nat, deadline: int)
    requires i < |s.pending| && s.pending[i] == e
    requires now - s.lastSentAt >= s.opts.spacing && now + i * s.opts.spacing <= deadline
    ensures Due(Attempt(s, now, true), e, deadline) || SettledBy(Attempt(s, now, true), e, deadline)
    decreases |s.pending|, 0
  {
    var s' := if now - s.pending[0].at >= s.pending[0].maxAge then AgeOut(s, now) else Deliver(s, now);
    assert Attempt(s, now, true) == DrainFrom(s', now, true);
    if i == 0 {
      assert s'.log[|s.log|].entry == e && s'.log[|s.log|].at <= deadline;
      DrainExtendsLog(s', now, true);
      SettledStays(s', DrainFrom(s', now, true), e, deadline);
    } else {
      assert i * s.opts.spacing == (i - 1) * s.opts.spacing + s.opts.spacing;
      DrainMeets(s', now, e, i - 1, deadline);
    }
  }

  /** Pushing anything leaves a waiting urgent command where it is. */
  lemma PushKeepsPlace(s: State, r: Request, now: int, e: Entry, i: nat)
    requires i < |s.pending| && s.pending[i] == e && e.urgent && WaitOrder(s.pending) && !s.phase.Idle?
    ensures var s' := Pushed(s, r, now, true);
            i < |s'.pending| && s'.pending[i] == e && s'.phase == s.phase && s'.opts == s.opts
  {
  }

  lemma StepMeets(s: State, clock: int, step: Step, e: Entry, deadline: int)
    requires Inv(s, clock) && Resting(s) && Enabled(s, clock, step) && PromptStep(s, step)
    requires e.urgent && Due(s, e, deadline)
    ensures OnTime(Apply(s, step), step.now, e, deadline)
  {
    var i :| DueAt(s, e, i, deadline);
    hide Ledger, WaitOrder, GoodLog, EveryWaiting, Pushed, Attempt, DrainFrom;
    match step
    case PushStep(r, now, _) =>
      PushKeepsPlace(s, r, now, e, i);
      assert DueAt(Apply(s, step), e, i, deadline);
    case WakeStep(now, _) =>
      if s.phase.Pacing? {
        AttemptMeets(s, now, e, i, deadline);
      } else {
        DrainMeets(s, now, e, i, deadline);
      }
  }

  /** Still waiting with the deadline ahead, or settled before it. */
  ghost predicate OnTime(s: State, clock: int, e: Entry, deadline: int) {
    (Due(s, e, deadline) && clock <= deadline) || SettledBy(s, e, deadline)
  }

  lemma {:induction false} RunMeets(s: State, clock: int, steps: seq<Step>, e: Entry, deadline: int)
    requires Inv(s, clock) && Resting(s) && ValidRun(s, clock, steps) && Prompt(s, steps)
    requires e.urgent && OnTime(s, clock, e, deadline)
    ensures OnTime(Run(s, steps), ClockAfter(clock, steps), e, deadline)
    decreases |steps|
  {
    hide Inv, Resting, Pushed, Woken;
    if steps != [] {
      var s' := Apply(s, steps[0]);
      ApplyKeeps(s, clock, steps[0]);
      match steps[0] {
        case PushStep(r, now, live) => PushExtendsLog(s, r, now, live);
        case WakeStep(now, live) => WakeExtendsLog(s, now, live);
      }
      assert s.log <= s'.log;
      if SettledBy(s, e, deadline) {
        SettledStays(s, s', e, deadline);
      } else {
        StepMeets(s, clock, steps[0], e, deadline);
      }
      RunMeets(s', steps[0].now, steps[1..], e, deadline);
    }
  }

  /** The next wake is at most one spacing away. */
  predicate Near(s: State, clock: int) {
    !s.phase.Idle? ==> s.phase.wakeAt <= clock + s.opts.spacing
  }

  lemma {:induction false} DrainNear(s: State, now: int, live: bool)
    requires s.lastSentAt <= now
    ensures Near(DrainFrom(s, now, live), now) && Near(Attempt(s, now, live), now)
    decreases |s.pending|
  {
    if s.pending != [] {
      DrainNear(AgeOut(s, now), now, live);
      DrainNear(Deliver(s, now), now, live);
    }
  }

  lemma ApplyNear(s: State, clock: int, step: Step)
    requires Inv(s, clock) && Near(s, clock) && Enabled(s, clock, step)
    ensures Near(Apply(s, step), step.now)
  {
    match step
    case PushStep(r, now, live) =>
      var s1 := MakeRoom(s, now);
      DrainNear(Admit(s1, NewEntry(s1, r, now)), now, live);
    case WakeStep(now, live) =>
      DrainNear(s, now, live);
  }

  lemma {:induction false} RunNear(s: State, clock: int, steps: seq<Step>)
    requires Inv(s, clock) && Resting(s) && Near(s, clock) && ValidRun(s, clock, steps)
    ensures Near(Run(s, steps), ClockAfter(clock, steps))
    decreases |steps|
  {
    hide Inv, Resting, Near, Apply;
    if steps != [] {
      ApplyKeeps(s, clock, steps[0]);
      ApplyNear(s, clock, steps[0]);
      RunNear(Apply(s, steps[0]), steps[0].now, steps[1..]);
    }
  }

  /** An accepted urgent command stands right behind the urgent block. */
  lemma PlaceOfUrgent(s: State, r: Request, now: int)
    requires WaitOrder(s.pending) && r.urgent && Accepts(s, true)
    ensures var k, e := UrgentPrefix(s.pending), NewEntry(s, r, now);
            var s2 := Admit(MakeRoom(s, now), e);
            && s2.opts == s.opts && s2.phase == s.phase && s2.lastSentAt == s.lastSentAt && e.urgent
            && k < |s2.pending| && s2.pending[k] == e
            && Pushed(s, r, now, true) == if s.phase.Idle? then DrainFrom(s2, now, true) else s2
  {
  }

  /** An urgent push lands behind the urgent commands already waiting, and is on time from the start. */
  lemma PushMeets(s: State, clock: int, r: Request, now: int)
    requires Inv(s, clock) && Resting(s) && Near(s, clock) && clock <= now
    requires r.urgent && Accepts(s, true) && PromptStep(s, PushStep(r, now, true))
    ensures OnTime(Pushed(s, r, now, true), now, NewEntry(s, r, now), now + (UrgentPrefix(s.pending) + 1) * s.opts.spacing)
  {
    hide Pushed, MakeRoom, Admit, DrainFrom, Ledger, WaitOrder, GoodLog, EveryWaiting, NewEntry, UrgentPrefix, Accepts;
    var k := UrgentPrefix(s.pending);
    var deadline := now + (k + 1) * s.opts.spacing;
    var e := NewEntry(s, r, now);
    PlaceOfUrgent(s, r, now);
    var s2 := Admit(MakeRoom(s, now), e);
    assert (k + 1) * s.opts.spacing == k * s.opts.spacing + s.opts.spacing;
    if s.phase.Idle? {
      DrainMeets(s2, now, e, k, deadline);
    } else {
      assert DueAt(s2, e, k, deadline);
    }
  }

  /** While the session stays live and timers fire on time, an urgent command accepted with k urgent ones ahead
      of it leaves within (k+1) spacings of its push. It is typed, unless its own limit is no longer than that. */
  lemma UrgentLatency(opts: Options, before: seq<Step>, s: State, r: Request, now: int, after: seq<Step>)
    requires Reached(opts, before, s) && ClockAfter(0, before) <= now
    requires r.urgent && Accepts(s, true) && PromptStep(s, PushStep(r, now, true))
    requires ValidRun(Pushed(s, r, now, true), now, after) && Prompt(Pushed(s, r, now, true), after)
    ensures var e := NewEntry(s, r, now);
            var bound := (UrgentPrefix(s.pending) + 1) * opts.spacing;
            var final := Run(Pushed(s, r, now, true), after);
            || (e in final.pending && ClockAfter(now, after) <= now + bound)
            || exists l :: 0 <= l < |final.log| && final.log[l].entry == e && now <= final.log[l].at <= now + bound &&
                           (bound < e.maxAge ==> final.log[l].Sent?)
  {
    var clock := ClockAfter(0, before);
    var e := NewEntry(s, r, now);
    var deadline := now + (UrgentPrefix(s.pending) + 1) * opts.spacing;
    var s' := Pushed(s, r, now, true);
    ReachedNear(opts, before, s);
    assert e.urgent;
    hide Reached, Inv, Resting, Near, Accepts, PromptStep, Prompt, ValidRun, NewEntry, Pushed, UrgentPrefix, Run, ClockAfter;
    PushMeets(s, clock, r, now);
    PushKeeps(s, clock, r, now, true);
    RunMeets(s', now, after, e, deadline);
    RunKeeps(s', now, after);
    OptionsFixed(s', after);
    SettledMeans(Run(s', after), ClockAfter(now, after), e, now, deadline);
  }

  lemma ReachedNear(opts: Options, before: seq<Step>, s: State)
    requires Reached(opts, before, s)
    ensures var clock := ClockAfter(0, before);
            Inv(s, clock) && Resting(s) && Near(s, clock) && s.opts == opts
  {
    ReachedInv(opts, before, s);
    RunNear(Initial(opts), 0, before);
  }

  /** An entry that was on time and is no longer waiting left by its deadline, and typed if it could not be too old. */
  lemma SettledMeans(final: State, clock: int, e: Entry, since: int, deadline: int)
    requires Inv(final, clock) && e.at == since && e.urgent
    requires OnTime(final, clock, e, deadline)
    ensures || (e in final.pending && clock <= deadline)
            || exists l :: 0 <= l < |final.log| && final.log[l].entry == e && since <= final.log[l].at <= deadline &&
                           (deadline - since < e.maxAge ==> final.log[l].Sent?)
  {
    hide Ledger, WaitOrder, EveryWaiting;
    if SettledBy(final, e, deadline) {
      var l :| 0 <= l < |final.log| && final.log[l].entry == e && final.log[l].at <= deadline;
      GoodLogAt(final.log, final.opts.spacing, l);
    }
  }

  // The shipped numbers (transport.ts:630-633).
  const SPACING_MS: nat := 1200
  const BACKLOG: nat := 50

  /** With the shipped numbers a join answer whose window is longer than a minute is never discarded:
      within a minute of its push it has been typed. */
  lemma JoinAnswersNeverAgeOut(before: seq<Step>, s: State, r: Request, now: int, after: seq<Step>, queueMaxAge: int)
    requires Reached(Options(SPACING_MS, BACKLOG, queueMaxAge), before, s) && ClockAfter(0, before) <= now
    requires r.urgent && Accepts(s, true) && PromptStep(s, PushStep(r, now, true))
    requires r.maxAge.Some? && r.maxAge.value > 60_000
    requires ValidRun(Pushed(s, r, now, true), now, after) && Prompt(Pushed(s, r, now, true), after)
    ensures var e := NewEntry(s, r, now);
            var final := Run(Pushed(s, r, now, true), after);
            || (e in final.pending && ClockAfter(now, after) <= now + 60_000)
            || exists l :: 0 <= l < |final.log| && final.log[l].entry == e && final.log[l].Sent? &&
                           now <= final.log[l].at <= now + 60_000
  {
    UrgentLatency(Options(SPACING_MS, BACKLOG, queueMaxAge), before, s, r, now, after);
    ReachedInv(Options(SPACING_MS, BACKLOG, queueMaxAge), before, s);
    var k := UrgentPrefix(s.pending);
    assert k < BACKLOG;
    assert (k + 1) * SPACING_MS <= 60_000;
  }
}
