/** What the queue types is what it was given (apps/bridge-bot/src/command-queue.ts:166-198, 237-256). */
module CommandQueueContents {
  import opened Prelude
  import opened Q = CommandQueue
  import opened CommandQueueRuns

  /** The pushes of a run that were taken, in order. */
  function TakenPushes(s: State, steps: seq<Step>): seq<Step>
    decreases |steps|
  {
    if steps == [] then []
    else
      (if steps[0].PushStep? && Accepts(s, steps[0].request.urgent) then [steps[0]] else [])
      + TakenPushes(Apply(s, steps[0]), steps[1..])
  }

  /** The entry holds what the k-th taken push asked for. */
  predicate Holds(e: Entry, push: Step, k: nat, opts: Options) {
    && push.PushStep? && e.ticket == k && e.at == push.now
    && e.command == push.request.command && e.guildId == push.request.guildId
    && e.urgent == push.request.urgent && e.hooks == push.request.hooks
    && match push.request.maxAge
       case Some(limit) => e.maxAge == limit
       case None => e.maxAge == opts.maxAge
  }

  predicate HoldAll(accepted: seq<Entry>, from: nat, pushes: seq<Step>, opts: Options) {
    && |accepted| == from + |pushes|
    && forall k :: 0 <= k < |pushes| ==> Holds(accepted[from + k], pushes[k], from + k, opts)
  }

  lemma StepAccepts(s: State, step: Step)
    ensures var s' := Apply(s, step);
            && s'.opts == s.opts && s.accepted <= s'.accepted
            && HoldAll(s'.accepted, |s.accepted|,
                       if step.PushStep? && Accepts(s, step.request.urgent) then [step] else [], s.opts)
  {
    StepOptions(s, step);
    hide DrainFrom, Attempt, Accepts, Pushed, Woken;
    match step
    case PushStep(r, now, live) => PushExtendsLog(s, r, now, live);
    case WakeStep(now, live) => WakeExtendsLog(s, now, live);
  }

  lemma HoldAllJoin(some: seq<Entry>, all: seq<Entry>, from: nat, first: seq<Step>, rest: seq<Step>, opts: Options)
    requires HoldAll(some, from, first, opts) && some <= all && HoldAll(all, |some|, rest, opts)
    ensures HoldAll(all, from, first + rest, opts)
  {
    hide Holds;
    forall k | 0 <= k < |first + rest| ensures Holds(all[from + k], (first + rest)[k], from + k, opts) {
      if k < |first| {
        assert all[from + k] == some[from + k];
      } else {
        assert all[from + k] == all[|some| + (k - |first|)];
      }
    }
  }

  lemma {:induction false} RunAccepts(s: State, steps: seq<Step>)
    ensures s.accepted <= Run(s, steps).accepted
    ensures HoldAll(Run(s, steps).accepted, |s.accepted|, TakenPushes(s, steps), s.opts)
    decreases |steps|
  {
    if steps != [] {
      hide Apply, Accepts, HoldAll;
      var s' := Apply(s, steps[0]);
      var taken := if steps[0].PushStep? && Accepts(s, steps[0].request.urgent) then [steps[0]] else [];
      StepAccepts(s, steps[0]);
      RunAccepts(s', steps[1..]);
      HoldAllJoin(s'.accepted, Run(s', steps[1..]).accepted, |s.accepted|, taken, TakenPushes(s', steps[1..]), s.opts);
    }
  }

  /** Over every run: the k-th accepted command carries the text, the guild, the class and the hooks of the k-th push
      that was taken, the time of that push, and its own limit or else the queue's. */
  lemma AcceptedAsPushed(opts: Options, steps: seq<Step>, s: State)
    requires Reached(opts, steps, s)
    ensures HoldAll(s.accepted, 0, TakenPushes(Initial(opts), steps), opts)
  {
    RunAccepts(Initial(opts), steps);
  }

  /** Whatever leaves the queue, typed or not, is one of those. */
  lemma TypedAsPushed(opts: Options, steps: seq<Step>, s: State, l: nat)
    requires Reached(opts, steps, s) && l < |s.log|
    ensures var e := s.log[l].entry;
            var pushes := TakenPushes(Initial(opts), steps);
            e.ticket < |pushes| && Holds(e, pushes[e.ticket], e.ticket, opts)
  {
    ReachedInv(opts, steps, s);
    AcceptedAsPushed(opts, steps, s);
    var e := s.log[l].entry;
    assert Entries(s.log)[l] in multiset(Entries(s.log));
    assert e in multiset(s.accepted);
    hide Inv, Reached, Holds;
    var k :| 0 <= k < |s.accepted| && s.accepted[k] == e;
    TicketIs(s.accepted, TakenPushes(Initial(opts), steps), opts, k);
  }

  lemma TicketIs(accepted: seq<Entry>, pushes: seq<Step>, opts: Options, k: nat)
    requires HoldAll(accepted, 0, pushes, opts) && k < |accepted|
    ensures Holds(accepted[k], pushes[k], k, opts) && accepted[k].ticket == k
  {
  }

  /** While there is no session the command at the head stays there untouched, and the next try is one spacing away. */
  lemma HeldForASpacing(s: State, now: int)
    requires s.pending != [] && now - s.pending[0].at < s.pending[0].maxAge
    ensures Attempt(s, now, false) == s.(phase := Holding(now + s.opts.spacing))
  {
  }

  /** A push that is refused changes nothing but its counter. */
  lemma RefusedPushOnlyCounts(s: State, r: Request, now: int, live: bool)
    requires !Accepts(s, r.urgent)
    ensures Pushed(s, r, now, live) == s.(dropped := s.dropped + 1)
  {
  }

  // ----- timers move the queue on

  lemma {:induction false} DrainSettles(s: State, now: int)
    requires s.opts.spacing > 0
    ensures var s' := DrainFrom(s, now, true);
            && |s'.pending| <= |s.pending| && (s'.phase.Idle? <==> s'.pending == [])
            && (!s'.phase.Idle? ==> s'.phase.wakeAt > now)
    decreases |s.pending|
  {
    if s.pending != [] {
      DrainSettles(AgeOut(s, now), now);
      DrainSettles(Deliver(s, now), now);
    }
  }

  lemma WakeAttempts(s: State, now: int)
    requires Resting(s) && !s.phase.Idle? && s.phase.wakeAt <= now
    ensures Woken(s, now, true) == Attempt(s, now, true)
  {
    assert now - s.lastSentAt >= s.opts.spacing;
  }

  /** When its timer fires in a live session, the head leaves at that moment, typed if it is young enough; what is left
      is shorter, and the next timer lies ahead, if anything is left. */
  lemma WakeMovesOn(s: State, clock: int, now: int)
    requires Inv(s, clock) && Resting(s) && Enabled(s, clock, WakeStep(now, true)) && s.opts.spacing > 0
    ensures var s' := Woken(s, now, true);
            var head := s.pending[0];
            && |s.log| < |s'.log| && s'.log[|s.log|].entry == head && s'.log[|s.log|].at == now
            && (s'.log[|s.log|].Sent? <==> now - head.at < head.maxAge)
            && |s'.pending| < |s.pending| && (s'.phase.Idle? <==> s'.pending == [])
            && (!s'.phase.Idle? ==> s'.phase.wakeAt > now)
  {
    var head := s.pending[0];
    var s1 := if now - head.at >= head.maxAge then AgeOut(s, now) else Deliver(s, now);
    WakeAttempts(s, now);
    assert Attempt(s, now, true) == DrainFrom(s1, now, true);
    hide DrainFrom, Attempt, Inv, Resting, Woken;
    DrainSettles(s1, now);
    DrainExtendsLog(s1, now, true);
    assert s1.log[|s.log|].entry == head;
  }

  /** Whatever waits is gone after that many timers, each fired when it is due, if the session stays live. */
  lemma {:induction false} WakesEmptyTheQueue(s: State, clock: int, steps: seq<Step>)
    requires Inv(s, clock) && Resting(s) && ValidRun(s, clock, steps) && s.opts.spacing > 0
    requires forall i :: 0 <= i < |steps| ==> steps[i].WakeStep? && steps[i].live
    ensures |Run(s, steps).pending| + |steps| <= |s.pending|
    decreases |steps|
  {
    hide Inv, Resting, Enabled;
    if steps != [] {
      WakeMovesOn(s, clock, steps[0].now);
      ApplyKeeps(s, clock, steps[0]);
      StepOptions(s, steps[0]);
      WakesEmptyTheQueue(Apply(s, steps[0]), steps[0].now, steps[1..]);
    }
  }
}
