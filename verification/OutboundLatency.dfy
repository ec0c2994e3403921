/** How soon an accepted join answer is answered on the bus (apps/bridge-bot/src/transport.ts:1364-1383, 1436-1470). */
module OutboundLatency {
  import opened Prelude
  import Q = CommandQueue
  import R = CommandQueueRuns
  import L = CommandQueueLatency
  import E = CommandEcho
  import N = ModNotice
  import opened Outbound
  import opened OutboundRuns
  import opened OutboundGuarantees

  // ----- every hook call is an answer

  /** What the sink answers when a command leaves the queue. */
  function HookAnswer(ev: Q.Event): Ack
    requires ev.entry.hooks.Some?
  {
    Ack(ev.entry.guildId, ev.entry.hooks.value, if ev.Sent? then TYPED else EXPIRED, ev.at)
  }

  predicate Answered(events: seq<Q.Event>, acks: seq<Ack>) {
    forall l :: 0 <= l < |events| && events[l].entry.hooks.Some? ==> HookAnswer(events[l]) in acks
  }

  /** Between `w` and `w'` the queue and the answers only grew, and each command that left meanwhile was answered
      meanwhile. */
  predicate Grows(w: World, w': World) {
    && w.queue.log <= w'.queue.log && w.acks <= w'.acks
    && Answered(w'.queue.log[|w.queue.log|..], w'.acks[|w.acks|..])
  }

  lemma GrowsOn(a: World, b: World, c: World)
    requires Grows(a, b) && Grows(b, c)
    ensures Grows(a, c)
  {
    hide HookAnswer;
    var n, m := |a.queue.log|, |a.acks|;
    assert c.queue.log[n..] == b.queue.log[n..] + c.queue.log[|b.queue.log|..];
    assert c.acks[m..] == b.acks[m..] + c.acks[|b.acks|..];
  }

  lemma {:induction false} HooksAnswered(w: World, events: seq<Q.Event>)
    ensures var w' := RunHooks(w, events);
            w'.queue == w.queue && w.acks <= w'.acks && Answered(events, w'.acks[|w.acks|..])
    decreases |events|
  {
    hide HookEcho;
    if events != [] {
      var w1 := w.(echo := HookEcho(w.echo, events[0]), acks := w.acks + HookAck(events[0]));
      HooksAnswered(w1, events[1..]);
      var more := RunHooks(w, events).acks[|w.acks|..];
      assert more == HookAck(events[0]) + RunHooks(w, events).acks[|w1.acks|..];
      assert forall l :: 0 < l < |events| ==> events[l] == events[1..][l - 1];
    }
  }

  lemma MovedGrows(w: World, q: Q.State)
    requires w.queue.log <= q.log
    ensures Grows(w, QueueMoved(w, q))
  {
    hide RunHooks, Answered;
    HooksAnswered(w.(queue := q), q.log[|w.queue.log|..]);
  }

  lemma SentGrows(w: World, g: string, c: string, hooks: Option<string>, now: int, live: bool)
    ensures Grows(w, Sent(w, g, c, hooks, now, live).0)
  {
    hide Q.Pushed, QueueMoved, RequestFor, Grows;
    var r := RequestFor(w.joinWindowMs, g, c, hooks);
    Q.PushExtendsLog(w.queue, r, now, live);
    MovedGrows(w, Q.Pushed(w.queue, r, now, live));
    MoreAcks(w, w, []);
  }

  /** The queue stands still and something else is answered. */
  lemma MoreAcks(w: World, w': World, more: seq<Ack>)
    requires w'.queue.log == w.queue.log && w'.acks == w.acks + more
    ensures Grows(w, w')
  {
  }

  lemma ChattedGrows(w: World, line: E.Line, found: Option<Option<string>>, now: int)
    ensures Grows(w, Chatted(w, line, found, now))
  {
    hide E.Observed, N.ParsePunitive, E.Claims, E.Claimed, Grows;
    var w' := Chatted(w, line, found, now);
    MoreAcks(w, w', w'.acks[|w.acks|..]);
  }

  lemma ResolvedGrows(w: World, i: nat, found: Option<Option<string>>, now: int, live: bool)
    requires i < |w.resolving|
    ensures Grows(w, Resolved(w, i, found, now, live))
  {
    hide Sent, Grows;
    var m, known := w.resolving[i].message, w.resolving[i].known;
    var w1 := w.(resolving := w.resolving[..i] + w.resolving[i + 1..]);
    var w2 := if known.None? && found.Some? then w1.(guild := found.value) else w1;
    var w3 := Sent(w2, m.guildId, m.command, Some(m.correlationId), now, live).0;
    var w' := Resolved(w, i, found, now, live);
    MoreAcks(w, w2, []);
    if known.None? && found.None? {
      MoreAcks(w, w', w'.acks[|w.acks|..]);
    } else {
      SentGrows(w2, m.guildId, m.command, Some(m.correlationId), now, live);
      GrowsOn(w, w2, w3);
      MoreAcks(w3, w', w'.acks[|w3.acks|..]);
      GrowsOn(w, w3, w');
    }
  }

  lemma StepAnswered(w: World, step: Step)
    ensures Grows(w, Apply(w, step))
  {
    hide Chatted, Resolved, Sent, Q.Woken, QueueMoved, Grows;
    var w' := Apply(w, step);
    match step
    case AttachSink(_) => MoreAcks(w, w', []);
    case BusMessage(m, now) => MoreAcks(w, w', if w.sink then [] else [Ack(m.guildId, m.correlationId, EXPIRED, now)]);
    case OtherLookup(_, _) => MoreAcks(w, w', []);
    case Resolution(i, found, now, live) =>
      if i < |w.resolving| {
        ResolvedGrows(w, i, found, now, live);
      } else {
        MoreAcks(w, w', []);
      }
    case StaffCommand(g, c, now, live) => SentGrows(w, g, c, None, now, live);
    case Timer(now, live) =>
      Q.WakeExtendsLog(w.queue, now, live);
      MovedGrows(w, Q.Woken(w.queue, now, live));
    case ChatLine(line, found, now) => ChattedGrows(w, line, found, now);
  }

  /** Over any stretch of a run, every command that leaves the queue with hooks is answered within that stretch, at the
      moment it leaves. */
  lemma {:induction false} RunAnswered(w: World, steps: seq<Step>)
    ensures Grows(w, Run(w, steps))
    decreases |steps|
  {
    hide Grows, Apply;
    if steps == [] {
      MoreAcks(w, w, []);
    } else {
      StepAnswered(w, steps[0]);
      RunAnswered(Apply(w, steps[0]), steps[1..]);
      GrowsOn(w, Apply(w, steps[0]), Run(w, steps));
    }
  }

  // ----- the deadline

  /** The session is live at this step, and no timer of the queue is late. */
  predicate Punctual(w: World, step: Step) {
    && (step.Resolution? || step.StaffCommand? || step.Timer? ==> step.live)
    && (!w.queue.phase.Idle? ==> step.now <= w.queue.phase.wakeAt)
  }

  predicate AllPunctual(w: World, steps: seq<Step>)
    decreases |steps|
  {
    steps == [] || (Punctual(w, steps[0]) && AllPunctual(Apply(w, steps[0]), steps[1..]))
  }

  lemma StepOnTime(w: World, clock: int, step: Step, e: Q.Entry, deadline: int)
    requires R.Inv(w.queue, clock) && R.Resting(w.queue) && Enabled(w, clock, step) && Punctual(w, step)
    requires e.urgent && L.OnTime(w.queue, clock, e, deadline)
    ensures L.OnTime(Apply(w, step).queue, step.now, e, deadline)
  {
    QueueStepIsQueueStep(w, clock, step);
    var qs := QueueStep(w, step);
    if qs == [] {
      StillOnTime(w.queue, clock, step.now, e, deadline);
      assert Apply(w, step).queue == w.queue;
    } else {
      assert qs == [qs[0]] && qs[0].live;
      hide Apply, QueueStep, R.Inv, R.Resting, L.OnTime, Punctual, R.Enabled;
      OneStepOnTime(w.queue, clock, qs[0], e, deadline);
    }
  }

  /** Nothing happens to the queue, and its timer is not late. */
  lemma StillOnTime(q: Q.State, clock: int, now: int, e: Q.Entry, deadline: int)
    requires L.OnTime(q, clock, e, deadline) && (!q.phase.Idle? ==> now <= q.phase.wakeAt)
    ensures L.OnTime(q, now, e, deadline)
  {
    if L.Due(q, e, deadline) {
      var i :| L.DueAt(q, e, i, deadline);
      MulOrder(0, i, q.opts.spacing);
    }
  }

  lemma OneStepOnTime(q: Q.State, clock: int, step: R.Step, e: Q.Entry, deadline: int)
    requires R.Inv(q, clock) && R.Resting(q) && R.Enabled(q, clock, step) && L.PromptStep(q, step)
    requires e.urgent && L.OnTime(q, clock, e, deadline)
    ensures L.OnTime(R.Run(q, [step]), step.now, e, deadline)
  {
    hide R.Inv, R.Resting, L.OnTime, R.Enabled, R.Apply, L.PromptStep;
    assert [step][1..] == [];
    assert L.Prompt(R.Apply(q, step), []);
    L.RunMeets(q, clock, [step], e, deadline);
  }

  lemma InvQueue(w: World, clock: int)
    requires Inv(w, clock, "")
    ensures R.Inv(w.queue, clock) && R.Resting(w.queue)
  {
    hide R.Inv, R.Resting, EchoGood, KicksKnown, Answering, Settling;
  }

  lemma {:induction false} RunOnTime(w: World, clock: int, steps: seq<Step>, e: Q.Entry, deadline: int)
    requires Inv(w, clock, "") && ValidRun(w, clock, steps) && AllPunctual(w, steps)
    requires e.urgent && L.OnTime(w.queue, clock, e, deadline)
    ensures L.OnTime(Run(w, steps).queue, ClockAfter(clock, steps), e, deadline)
    decreases |steps|
  {
    hide Inv, Enabled, Apply, Punctual, L.OnTime, R.Inv, R.Resting, QueueStep;
    if steps != [] {
      ApplyKeeps(w, clock, steps[0], "");
      InvQueue(w, clock);
      StepOnTime(w, clock, steps[0], e, deadline);
      RunOnTime(Apply(w, steps[0]), steps[0].now, steps[1..], e, deadline);
    }
  }

  /** The i-th lookup ends with the message offered to the queue. */
  predicate Offered(w: World, i: nat, found: Option<Option<string>>) {
    && i < |w.resolving|
    && (var m, known := w.resolving[i].message, w.resolving[i].known;
        && (known.Some? || found.Some?)
        && (if known.None? then found.value else w.guild) == Some(m.guildId))
  }

  /** Among the answers from the n-th on, one on this id between two moments: TYPED, or EXPIRED where that may be. */
  predicate NewAnswer(acks: seq<Ack>, n: nat, guildId: string, id: string, since: int, until: int, typed: bool) {
    exists j :: n <= j < |acks| && acks[j].guildId == guildId && acks[j].correlationId == id &&
                since <= acks[j].at <= until && (acks[j].outcome.TYPED? || (!typed && acks[j].outcome.EXPIRED?))
  }

  function JoinRequest(w: World, m: Message): Q.Request {
    Q.Request(m.command, m.guildId, true, Some(w.joinWindowMs), Some(m.correlationId))
  }

  lemma OfferedPushes(w: World, clock: int, i: nat, found: Option<Option<string>>, now: int)
    requires Offered(w, i, found) && N.IsJoinAnswer(w.resolving[i].message.command) && clock <= now
    ensures Apply(w, Resolution(i, found, now, true)).queue
            == Q.Pushed(w.queue, JoinRequest(w, w.resolving[i].message), now, true)
  {
    QueueStepIsQueueStep(w, clock, Resolution(i, found, now, true));
    hide Apply, Q.Pushed, N.IsJoinAnswer;
    RunOne(w.queue, QueueStep(w, Resolution(i, found, now, true)));
  }

  /** While the session stays live and timers fire on time, a join answer from the bus that the queue accepted behind k
      urgent commands is answered within (k+1) spacings: TYPED, unless its own window is no longer than that, or EXPIRED. */
  lemma JoinAnswersAnsweredInTime(s: Setup, before: seq<Step>, w: World, i: nat, found: Option<Option<string>>, now: int,
                                  after: seq<Step>)
    requires Reached(s, before, w) && ClockAfter(0, before) <= now
    requires Offered(w, i, found) && N.IsJoinAnswer(w.resolving[i].message.command) && Q.Accepts(w.queue, true)
    requires var step := Resolution(i, found, now, true);
             && Punctual(w, step) && ValidRun(Apply(w, step), now, after) && AllPunctual(Apply(w, step), after)
    ensures var m := w.resolving[i].message;
            var bound := (Q.UrgentPrefix(w.queue.pending) + 1) * s.queue.spacing;
            var final := Run(Apply(w, Resolution(i, found, now, true)), after);
            || (Q.NewEntry(w.queue, JoinRequest(w, m), now) in final.queue.pending && ClockAfter(now, after) <= now + bound)
            || NewAnswer(final.acks, |w.acks|, m.guildId, m.correlationId, now, now + bound, bound < w.joinWindowMs)
  {
    hide Apply, Inv, Enabled, ValidRun, AllPunctual, Punctual, L.OnTime, Q.Accepts, N.IsJoinAnswer, Q.NewEntry, Grows;
    hide NewAnswer;
    hide Q.UrgentPrefix, Reached, ClockAfter, Run, JoinRequest;
    var m := w.resolving[i].message;
    var step := Resolution(i, found, now, true);
    var w1 := Apply(w, step);
    var e := Q.NewEntry(w.queue, JoinRequest(w, m), now);
    JoinEntry(w, m, now);
    var deadline := now + (Q.UrgentPrefix(w.queue.pending) + 1) * s.queue.spacing;
    var final := Run(w1, after);
    OfferedOnTime(s, before, w, i, found, now);
    RunOnTime(w1, now, after, e, deadline);
    StepAnswered(w, step);
    RunAnswered(w1, after);
    GrowsOn(w, w1, final);
    RunKeeps(w1, now, after, "");
    NotYetLeft(s, before, w, m, now);
    FinalMeans(w, final, ClockAfter(now, after), e, now, deadline);
  }

  /** With the shipped spacing and backlog, and a join window of more than a minute: typed within a minute. */
  lemma JoinAnswersTypedWithinAMinute(s: Setup, before: seq<Step>, w: World, i: nat, found: Option<Option<string>>,
                                      now: int, after: seq<Step>)
    requires Reached(s, before, w) && ClockAfter(0, before) <= now
    requires s.queue.spacing == L.SPACING_MS && s.queue.maxBacklog == L.BACKLOG && s.joinWindowMs > 60_000
    requires Offered(w, i, found) && N.IsJoinAnswer(w.resolving[i].message.command) && Q.Accepts(w.queue, true)
    requires var step := Resolution(i, found, now, true);
             && Punctual(w, step) && ValidRun(Apply(w, step), now, after) && AllPunctual(Apply(w, step), after)
    ensures var m := w.resolving[i].message;
            var final := Run(Apply(w, Resolution(i, found, now, true)), after);
            || (Q.NewEntry(w.queue, JoinRequest(w, m), now) in final.queue.pending && ClockAfter(now, after) <= now + 60_000)
            || NewAnswer(final.acks, |w.acks|, m.guildId, m.correlationId, now, now + 60_000, true)
  {
    hide Apply, Punctual, AllPunctual, ValidRun, Run, ClockAfter, Q.NewEntry, JoinRequest, N.IsJoinAnswer;
    JoinAnswersAnsweredInTime(s, before, w, i, found, now, after);
    RoomAhead(s, before, w);
    MulOrder(Q.UrgentPrefix(w.queue.pending) + 1, L.BACKLOG, L.SPACING_MS);
  }

  /** An urgent command is only accepted behind fewer urgent ones than the backlog holds. */
  lemma RoomAhead(s: Setup, before: seq<Step>, w: World)
    requires Reached(s, before, w) && Q.Accepts(w.queue, true)
    ensures Q.UrgentPrefix(w.queue.pending) < s.queue.maxBacklog && w.joinWindowMs == s.joinWindowMs
  {
    hide Reached, R.Inv, R.Resting, L.Near;
    ReachedWindow(s, before, w);
    QueueNear(s, before, w);
    ShortBacklog(w.queue, ClockAfter(0, before));
  }

  lemma ShortBacklog(q: Q.State, clock: int)
    requires R.Inv(q, clock) && R.Resting(q) && Q.Accepts(q, true)
    ensures Q.UrgentPrefix(q.pending) < q.opts.maxBacklog
  {
  }

  lemma ReachedWindow(s: Setup, before: seq<Step>, w: World)
    requires Reached(s, before, w)
    ensures w.joinWindowMs == s.joinWindowMs
  {
    WindowFixed(Start(s), 0, before);
  }

  lemma {:induction false} WindowFixed(w: World, clock: int, steps: seq<Step>)
    requires ValidRun(w, clock, steps)
    ensures Run(w, steps).joinWindowMs == w.joinWindowMs
    decreases |steps|
  {
    hide Apply, Enabled, QueueStep;
    if steps != [] {
      QueueStepIsQueueStep(w, clock, steps[0]);
      WindowFixed(Apply(w, steps[0]), steps[0].now, steps[1..]);
    }
  }

  lemma JoinEntry(w: World, m: Message, now: int)
    ensures var e := Q.NewEntry(w.queue, JoinRequest(w, m), now);
            && e.urgent && e.at == now && e.hooks == Some(m.correlationId) && e.guildId == m.guildId
            && e.maxAge == w.joinWindowMs
  {
  }

  lemma OfferedStep(w: World, clock: int, i: nat, found: Option<Option<string>>, now: int)
    requires Offered(w, i, found) && clock <= now && Punctual(w, Resolution(i, found, now, true))
    ensures Enabled(w, clock, Resolution(i, found, now, true))
    ensures L.PromptStep(w.queue, R.PushStep(JoinRequest(w, w.resolving[i].message), now, true))
  {
  }

  lemma OfferedOnTime(s: Setup, before: seq<Step>, w: World, i: nat, found: Option<Option<string>>, now: int)
    requires Reached(s, before, w) && ClockAfter(0, before) <= now
    requires Offered(w, i, found) && N.IsJoinAnswer(w.resolving[i].message.command) && Q.Accepts(w.queue, true)
    requires Punctual(w, Resolution(i, found, now, true))
    ensures var w1 := Apply(w, Resolution(i, found, now, true));
            && Inv(w1, now, "")
            && L.OnTime(w1.queue, now, Q.NewEntry(w.queue, JoinRequest(w, w.resolving[i].message), now),
                        now + (Q.UrgentPrefix(w.queue.pending) + 1) * s.queue.spacing)
  {
    hide Apply, Inv, R.Inv, R.Resting, L.Near, L.OnTime, Enabled, Punctual, Q.Accepts, L.PromptStep, N.IsJoinAnswer;
    hide Reached, ClockAfter, Q.Pushed, Q.NewEntry, Q.UrgentPrefix;
    var clock := ClockAfter(0, before);
    var r := JoinRequest(w, w.resolving[i].message);
    OfferedStep(w, clock, i, found, now);
    ReachedInv(s, before, w, "");
    ApplyKeeps(w, clock, Resolution(i, found, now, true), "");
    OfferedPushes(w, clock, i, found, now);
    QueueNear(s, before, w);
    L.PushMeets(w.queue, clock, r, now);
  }

  lemma QueueNear(s: Setup, before: seq<Step>, w: World)
    requires Reached(s, before, w)
    ensures var clock := ClockAfter(0, before);
            R.Inv(w.queue, clock) && R.Resting(w.queue) && L.Near(w.queue, clock) && w.queue.opts == s.queue
  {
    var qs := QueueSteps(Start(s), before);
    QueueProjection(Start(s), 0, 0, before);
    L.ReachedNear(s.queue, qs, w.queue);
    ClockProjection(Start(s), 0, 0, before);
    ReachedInv(s, before, w, "");
  }

  /** The queue's clock never runs ahead of the bridge's. */
  lemma {:induction false} ClockProjection(w: World, clock: int, clock': int, steps: seq<Step>)
    requires ValidRun(w, clock, steps) && clock' <= clock
    ensures R.ClockAfter(clock', QueueSteps(w, steps)) <= ClockAfter(clock, steps)
    decreases |steps|
  {
    hide Apply, QueueStep, R.Enabled, R.ClockAfter;
    if steps != [] {
      var step := steps[0];
      var qs := QueueStep(w, step);
      QueueStepIsQueueStep(w, clock, step);
      ClockConcat(clock', qs, QueueSteps(Apply(w, step), steps[1..]));
      ClockProjection(Apply(w, step), step.now, if qs == [] then clock' else step.now, steps[1..]);
    } else {
      ClockConcat(clock', [], []);
    }
  }

  lemma ClockConcat(clock: int, qs: seq<R.Step>, rest: seq<R.Step>)
    requires |qs| <= 1
    ensures R.ClockAfter(clock, qs + rest) == R.ClockAfter(if qs == [] then clock else qs[0].now, rest)
    ensures R.ClockAfter(clock, []) == clock
  {
  }

  /** The entry of a push to come is in no event so far. */
  lemma NotYetLeft(s: Setup, before: seq<Step>, w: World, m: Message, now: int)
    requires Reached(s, before, w)
    ensures var e := Q.NewEntry(w.queue, JoinRequest(w, m), now);
            forall l :: 0 <= l < |w.queue.log| ==> w.queue.log[l].entry != e
  {
    hide Reached, R.Resting, L.Near, JoinRequest;
    QueueNear(s, before, w);
  }

  lemma FinalMeans(w: World, final: World, clock: int, e: Q.Entry, since: int, deadline: int)
    requires Inv(final, clock, "") && Grows(w, final)
    requires forall l :: 0 <= l < |w.queue.log| ==> w.queue.log[l].entry != e
    requires e.urgent && e.at == since && e.hooks.Some? && L.OnTime(final.queue, clock, e, deadline)
    ensures || (e in final.queue.pending && clock <= deadline)
            || NewAnswer(final.acks, |w.acks|, e.guildId, e.hooks.value, since, deadline, deadline - since < e.maxAge)
  {
    hide Inv, R.Inv, R.Resting, L.OnTime, NewAnswer, Grows;
    InvQueue(final, clock);
    L.SettledMeans(final.queue, clock, e, since, deadline);
    var log := final.queue.log;
    if !(e in final.queue.pending && clock <= deadline) {
      var l :| 0 <= l < |log| && log[l].entry == e && since <= log[l].at <= deadline &&
               (deadline - since < e.maxAge ==> log[l].Sent?);
      LeftMeanwhile(w, final, e, l, since, deadline, deadline - since < e.maxAge);
    }
  }

  lemma LeftMeanwhile(w: World, final: World, e: Q.Entry, l: nat, since: int, deadline: int, typed: bool)
    requires Grows(w, final) && l < |final.queue.log| && final.queue.log[l].entry == e && e.hooks.Some?
    requires forall i :: 0 <= i < |w.queue.log| ==> w.queue.log[i].entry != e
    requires since <= final.queue.log[l].at <= deadline && (typed ==> final.queue.log[l].Sent?)
    ensures NewAnswer(final.acks, |w.acks|, e.guildId, e.hooks.value, since, deadline, typed)
  {
    var log, acks, n, m := final.queue.log, final.acks, |w.queue.log|, |w.acks|;
    assert l >= n && log[n..][l - n] == log[l];
    var j :| 0 <= j < |acks[m..]| && acks[m..][j] == HookAnswer(log[l]);
    assert acks[m + j] == HookAnswer(log[l]);
  }
}
