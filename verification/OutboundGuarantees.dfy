/** The promises of the outbound pipeline, over every run from the empty state. */
module OutboundGuarantees {
  import opened Prelude
  import Q = CommandQueue
  import R = CommandQueueRuns
  import E = CommandEcho
  import N = ModNotice
  import T = ChatText
  import opened Outbound
  import opened OutboundRuns

  datatype Setup = Setup(queue: Q.Options, windowMs: int, memoryMs: int, joinWindowMs: int)

  function Start(s: Setup): World {
    Initial(s.queue, s.windowMs, s.memoryMs, s.joinWindowMs)
  }

  ghost predicate Reached(s: Setup, steps: seq<Step>, w: World) {
    ValidRun(Start(s), 0, steps) && w == Run(Start(s), steps)
  }

  lemma ReachedInv(s: Setup, steps: seq<Step>, w: World, id: string)
    requires Reached(s, steps, w)
    ensures Inv(w, ClockAfter(0, steps), id)
  {
    RunKeeps(Start(s), 0, steps, id);
  }

  // ----- acknowledgements

  /** How many messages with this id the bridge still holds: looking up their guild, or waiting in the queue. */
  function Held(w: World, id: string): nat {
    Count(w.resolving, LookupIs(id)) + Count(w.queue.pending, HookIs(id))
  }

  /** Each message is held, or has had exactly one of the four delivery answers; TYPED is one of them, and an
      in-game answer is never given more often than TYPED. Ids may repeat: the counts then add up. */
  lemma EveryMessageAnsweredOnce(s: Setup, steps: seq<Step>, w: World, id: string)
    requires Reached(s, steps, w)
    ensures Count(w.received, MessageIs(id)) == Held(w, id) + Count(w.acks, DeliveryIs(id))
    ensures Count(w.acks, SettledIs(id)) <= Count(w.acks, TypedIs(id)) <= Count(w.acks, DeliveryIs(id))
    ensures Count(w.acks, TypedIs(id)) == Count(w.queue.log, SentIs(id))
  {
    ReachedInv(s, steps, w, id);
    var log := R.Entries(w.queue.log);
    CountPermuted(w.queue.accepted, w.queue.pending + log, HookIs(id));
    CountAppend(w.queue.pending, log, HookIs(id));
    CountImplies(w.acks, TypedIs(id), DeliveryIs(id));
  }

  lemma {:induction false} CountImplies<X>(s: seq<X>, p: X -> bool, q: X -> bool)
    requires forall x :: p(x) ==> q(x)
    ensures Count(s, p) <= Count(s, q)
  {
    if s != [] {
      CountImplies(s[1..], p, q);
    }
  }

  /** With distinct ids: one delivery answer at most, one exactly when the message is no longer held, and one
      in-game answer at most, only for a message that was typed. */
  lemma DistinctIdsAnsweredOnce(s: Setup, steps: seq<Step>, w: World, m: Message)
    requires Reached(s, steps, w)
    requires m in w.received
    requires forall i, j :: 0 <= i < j < |w.received| ==> w.received[i].correlationId != w.received[j].correlationId
    ensures var id := m.correlationId;
            && Count(w.acks, DeliveryIs(id)) == (if Held(w, id) == 0 then 1 else 0)
            && Count(w.acks, SettledIs(id)) <= Count(w.acks, TypedIs(id)) <= 1
  {
    EveryMessageAnsweredOnce(s, steps, w, m.correlationId);
    DistinctCountedOnce(w.received, m);
  }

  lemma {:induction false} DistinctCountedOnce(ms: seq<Message>, m: Message)
    requires m in ms && forall i, j :: 0 <= i < j < |ms| ==> ms[i].correlationId != ms[j].correlationId
    ensures Count(ms, MessageIs(m.correlationId)) == 1
  {
    if ms[0] == m {
      forall x | x in ms[1..] ensures !MessageIs(m.correlationId)(x) {
      }
      CountPositive(ms[1..], MessageIs(m.correlationId));
    } else {
      DistinctCountedOnce(ms[1..], m);
    }
  }

  lemma {:induction false} GoodAcksAt(acks: seq<Ack>, windowMs: int, j: nat)
    requires GoodAcks(acks, windowMs) && j < |acks|
    ensures InWindow(acks[..j], acks[j], windowMs)
  {
    if j < |acks| - 1 {
      GoodAcksAt(acks[..|acks| - 1], windowMs, j);
      assert acks[..|acks| - 1][..j] == acks[..j];
    }
  }

  /** An in-game answer comes after TYPED on the same id, and less than the echo window later. */
  lemma SettledSoonAfterTyped(s: Setup, steps: seq<Step>, w: World, j: nat)
    requires Reached(s, steps, w) && j < |w.acks| && IsSettled(w.acks[j].outcome)
    ensures exists i :: 0 <= i < j && w.acks[i].outcome.TYPED? && w.acks[i].correlationId == w.acks[j].correlationId &&
                        0 <= w.acks[j].at - w.acks[i].at < s.windowMs
  {
    ReachedInv(s, steps, w, "");
    EchoConstants(Start(s), steps);
    GoodAcksAt(w.acks, s.windowMs, j);
    var id := w.acks[j].correlationId;
    var t :| TypedAt(w.acks[..j], id, t) && 0 <= w.acks[j].at - t < s.windowMs;
    var i :| 0 <= i < |w.acks[..j]| && w.acks[..j][i].outcome == TYPED &&
             w.acks[..j][i].correlationId == id && w.acks[..j][i].at == t;
    assert w.acks[i] == w.acks[..j][i];
  }

  lemma {:induction false} EchoConstants(w: World, steps: seq<Step>)
    ensures Run(w, steps).echo.windowMs == w.echo.windowMs && Run(w, steps).echo.memoryMs == w.echo.memoryMs
    decreases |steps|
  {
    if steps != [] {
      EchoConstantsStep(w, steps[0]);
      EchoConstants(Apply(w, steps[0]), steps[1..]);
    }
  }

  lemma EchoConstantsStep(w: World, step: Step)
    ensures Apply(w, step).echo.windowMs == w.echo.windowMs && Apply(w, step).echo.memoryMs == w.echo.memoryMs
  {
    hide E.Answer, N.ParsePunitive, E.Claims;
    match step
    case AttachSink(_) =>
    case BusMessage(m, now) =>
    case OtherLookup(_, _) =>
    case Resolution(i, found, now, live) =>
      if i < |w.resolving| {
        var m, known := w.resolving[i].message, w.resolving[i].known;
        var w1 := w.(resolving := w.resolving[..i] + w.resolving[i + 1..]);
        var w2 := if known.None? && found.Some? then w1.(guild := found.value) else w1;
        SentConstants(w2, m.guildId, m.command, Some(m.correlationId), now, live);
      }
    case StaffCommand(g, c, now, live) => SentConstants(w, g, c, None, now, live);
    case Timer(now, live) =>
      var q := Q.Woken(w.queue, now, live);
      if |w.queue.log| <= |q.log| {
        HooksFrame(w.(queue := q), q.log[|w.queue.log|..]);
      }
    case ChatLine(_, _, _) =>
  }

  lemma SentConstants(w: World, g: string, c: string, hooks: Option<string>, now: int, live: bool)
    ensures var w' := Sent(w, g, c, hooks, now, live).0;
            && w'.echo.windowMs == w.echo.windowMs && w'.echo.memoryMs == w.echo.memoryMs
            && w'.guild == w.guild && w'.resolving == w.resolving
  {
    var r := RequestFor(w.joinWindowMs, g, c, hooks);
    var q := Q.Pushed(w.queue, r, now, live);
    if |w.queue.log| <= |q.log| {
      HooksFrame(w.(queue := q), q.log[|w.queue.log|..]);
    }
  }

  // ----- whose commands are typed

  /** Every lookup that answers names this bridge's guild. */
  predicate OnlyHome(step: Step, home: string) {
    && (step.Resolution? && step.found.Some? ==> step.found.value == None || step.found.value == Some(home))
    && (step.OtherLookup? ==> step.resolved == None || step.resolved == Some(home))
    && (step.ChatLine? && step.lookup.Some? ==> step.lookup.value == None || step.lookup.value == Some(home))
  }

  predicate HomeOnly(w: World, home: string) {
    && (w.guild == None || w.guild == Some(home))
    && (forall l :: l in w.resolving ==> l.known == None || l.known == Some(home))
    && (forall e :: e in w.queue.accepted ==> e.guildId == home)
    && (forall m :: m in w.mirrored ==> m.guildId == home)
  }

  lemma SentHome(w: World, g: string, c: string, hooks: Option<string>, now: int, live: bool, home: string)
    requires HomeOnly(w, home)
    ensures HomeOnly(Sent(w, g, c, hooks, now, live).0, home)
  {
    var r := RequestFor(w.joinWindowMs, g, c, hooks);
    var q := Q.Pushed(w.queue, r, now, live);
    Q.PushExtendsLog(w.queue, r, now, live);
    HooksFrame(w.(queue := q), q.log[|w.queue.log|..]);
  }

  lemma ChattedHome(w: World, line: E.Line, found: Option<Option<string>>, now: int, home: string)
    requires HomeOnly(w, home) && OnlyHome(ChatLine(line, found, now), home)
    ensures HomeOnly(Chatted(w, line, found, now), home)
  {
    hide E.Observed, N.ParsePunitive, E.Claims, E.Claimed;
  }

  lemma HomeStep(w: World, step: Step, home: string)
    requires HomeOnly(w, home) && OnlyHome(step, home)
    ensures HomeOnly(Apply(w, step), home)
  {
    hide Chatted, Sent;
    match step
    case AttachSink(_) =>
    case BusMessage(m, now) =>
    case OtherLookup(_, _) =>
    case Resolution(i, found, now, live) =>
      if i < |w.resolving| {
        var m, known := w.resolving[i].message, w.resolving[i].known;
        var w1 := w.(resolving := w.resolving[..i] + w.resolving[i + 1..]);
        var w2 := if known.None? && found.Some? then w1.(guild := found.value) else w1;
        SentHome(w2, m.guildId, m.command, Some(m.correlationId), now, live, home);
      }
    case StaffCommand(g, c, now, live) => SentHome(w, g, c, None, now, live, home);
    case Timer(now, live) =>
      var q := Q.Woken(w.queue, now, live);
      Q.WakeExtendsLog(w.queue, now, live);
      HooksFrame(w.(queue := q), q.log[|w.queue.log|..]);
    case ChatLine(line, found, now) => ChattedHome(w, line, found, now, home);
  }

  lemma {:induction false} HomeRun(w: World, steps: seq<Step>, home: string)
    requires HomeOnly(w, home) && forall step :: step in steps ==> OnlyHome(step, home)
    ensures HomeOnly(Run(w, steps), home)
    decreases |steps|
  {
    hide OnlyHome, HomeOnly, Apply;
    if steps != [] {
      assert steps[0] in steps;
      HomeStep(w, steps[0], home);
      HomeRun(Apply(w, steps[0]), steps[1..], home);
    }
  }

  /** Nothing addressed to another guild is ever typed, or even queued, and no notice is written into the history of
      another guild. */
  lemma OnlyOwnGuildTyped(s: Setup, steps: seq<Step>, w: World, home: string)
    requires Reached(s, steps, w) && forall step :: step in steps ==> OnlyHome(step, home)
    ensures forall i :: 0 <= i < |w.queue.log| ==> w.queue.log[i].entry.guildId == home
    ensures forall e :: e in w.queue.pending ==> e.guildId == home
    ensures forall m :: m in w.mirrored ==> m.guildId == home
  {
    HomeRun(Start(s), steps, home);
    ReachedInv(s, steps, w, "");
    forall i | 0 <= i < |w.queue.log| ensures w.queue.log[i].entry.guildId == home {
      assert R.Entries(w.queue.log)[i] in multiset(R.Entries(w.queue.log));
      assert w.queue.log[i].entry in multiset(w.queue.accepted);
    }
    forall e | e in w.queue.pending ensures e.guildId == home {
      assert e in multiset(w.queue.accepted);
    }
  }

  // ----- what the refusals mean

  /** Every lookup succeeds. */
  predicate AlwaysHome(step: Step, home: string) {
    && (step.Resolution? ==> step.found == Some(Some(home)))
    && (step.OtherLookup? ==> step.resolved == Some(home))
    && (step.ChatLine? ==> step.lookup == Some(Some(home)))
  }

  predicate Truthful(acks: seq<Ack>, home: string) {
    forall a :: a in acks ==>
      && (a.outcome.WRONG_GUILD? ==> a.guildId != home)
      && (a.outcome.REFUSED_BACKLOG? || a.outcome.TYPED? ==> a.guildId == home)
  }

  predicate Known(w: World, home: string) {
    HomeOnly(w, home) && (w.guild == None ==> forall l :: l in w.resolving ==> l.known == None)
  }

  lemma {:induction false} HooksTruthful(w: World, events: seq<Q.Event>, home: string)
    requires Truthful(w.acks, home) && forall i :: 0 <= i < |events| ==> events[i].entry.guildId == home
    ensures Truthful(RunHooks(w, events).acks, home)
    decreases |events|
  {
    if events != [] {
      assert forall i :: 0 <= i < |events[1..]| ==> events[1..][i] == events[i + 1];
      HooksTruthful(w.(echo := HookEcho(w.echo, events[0]), acks := w.acks + HookAck(events[0])), events[1..], home);
    }
  }

  /** The queue's events concern commands it accepted. */
  lemma EventsHome(q: Q.State, clock: int, home: string)
    requires R.Inv(q, clock) && forall e :: e in q.accepted ==> e.guildId == home
    ensures forall i :: 0 <= i < |q.log| ==> q.log[i].entry.guildId == home
  {
    forall i | 0 <= i < |q.log| ensures q.log[i].entry.guildId == home {
      assert R.Entries(q.log)[i] in multiset(R.Entries(q.log));
      assert q.log[i].entry in multiset(q.accepted);
    }
  }

  lemma QueueMovedTruthful(w: World, q: Q.State, now: int, home: string)
    requires Truthful(w.acks, home) && R.Inv(q, now) && w.queue.log <= q.log
    requires forall e :: e in q.accepted ==> e.guildId == home
    ensures Truthful(QueueMoved(w, q).acks, home)
  {
    EventsHome(q, now, home);
    HooksTruthful(w.(queue := q), q.log[|w.queue.log|..], home);
  }

  lemma SentTruthful(w: World, clock: int, g: string, c: string, hooks: Option<string>, now: int, live: bool, home: string)
    requires Truthful(w.acks, home) && HomeOnly(w, home) && R.Inv(w.queue, clock) && R.Resting(w.queue) && clock <= now
    ensures Truthful(Sent(w, g, c, hooks, now, live).0.acks, home)
  {
    if w.guild == Some(g) {
      var r := RequestFor(w.joinWindowMs, g, c, hooks);
      var q := Q.Pushed(w.queue, r, now, live);
      R.PushKeeps(w.queue, clock, r, now, live);
      Q.PushExtendsLog(w.queue, r, now, live);
      hide R.Inv, Q.Pushed, QueueMoved, R.Resting;
      QueueMovedTruthful(w, q, now, home);
    }
  }

  lemma ResolvedTruthful(w: World, clock: int, i: nat, now: int, live: bool, home: string)
    requires Truthful(w.acks, home) && Known(w, home) && R.Inv(w.queue, clock) && R.Resting(w.queue)
    requires clock <= now && i < |w.resolving|
    ensures var w' := Resolved(w, i, Some(Some(home)), now, live);
            Truthful(w'.acks, home) && w'.guild == Some(home)
  {
    var m, known := w.resolving[i].message, w.resolving[i].known;
    var w1 := w.(resolving := w.resolving[..i] + w.resolving[i + 1..]);
    var w2 := if known.None? then w1.(guild := Some(home)) else w1;
    KnownLookup(w, i, home);
    hide R.Inv, R.Resting, HomeOnly, Sent, Known, Truthful;
    SentTruthful(w2, clock, m.guildId, m.command, Some(m.correlationId), now, live, home);
    SentConstants(w2, m.guildId, m.command, Some(m.correlationId), now, live);
    var w3 := Sent(w2, m.guildId, m.command, Some(m.correlationId), now, live).0;
    TruthfulMore(w3.acks, Refusal(w3, m, now), home);
    if m.guildId != home {
      NotSent(w2, m.guildId, m.command, Some(m.correlationId), now, live);
    }
  }

  /** A lookup that knew its guild beforehand knew ours. */
  lemma KnownLookup(w: World, i: nat, home: string)
    requires Known(w, home) && i < |w.resolving|
    ensures var w1 := w.(resolving := w.resolving[..i] + w.resolving[i + 1..]);
            var w2 := if w.resolving[i].known.None? then w1.(guild := Some(home)) else w1;
            HomeOnly(w2, home) && w2.guild == Some(home)
  {
  }

  lemma TruthfulMore(acks: seq<Ack>, a: Ack, home: string)
    requires Truthful(acks, home)
    requires (a.outcome.WRONG_GUILD? ==> a.guildId != home)
    requires (a.outcome.REFUSED_BACKLOG? || a.outcome.TYPED? ==> a.guildId == home)
    ensures Truthful(acks + [a], home)
  {
  }

  lemma WokenTruthful(w: World, clock: int, now: int, live: bool, home: string)
    requires Truthful(w.acks, home) && HomeOnly(w, home) && R.Inv(w.queue, clock) && R.Resting(w.queue)
    requires Enabled(w, clock, Timer(now, live))
    ensures Truthful(Woken(w, now, live).acks, home)
    ensures Woken(w, now, live).guild == w.guild && Woken(w, now, live).resolving == w.resolving
  {
    var q := Q.Woken(w.queue, now, live);
    R.ApplyKeeps(w.queue, clock, R.WakeStep(now, live));
    Q.WakeExtendsLog(w.queue, now, live);
    HooksFrame(w.(queue := q), q.log[|w.queue.log|..]);
    hide R.Inv, R.Resting, Q.Woken, Truthful;
    QueueMovedTruthful(w, q, now, home);
  }

  lemma ChattedTruthful(w: World, line: E.Line, now: int, home: string)
    requires Truthful(w.acks, home)
    ensures var w' := Chatted(w, line, Some(Some(home)), now);
            Truthful(w'.acks, home) && (w'.guild == w.guild || w'.guild == Some(home)) && w'.resolving == w.resolving
  {
    hide N.ParsePunitive, E.Answer, E.Expired, E.Claims, E.Claimed;
  }

  lemma TruthfulStep(w: World, clock: int, step: Step, home: string)
    requires Truthful(w.acks, home) && Known(w, home) && R.Inv(w.queue, clock) && R.Resting(w.queue)
    requires Enabled(w, clock, step) && AlwaysHome(step, home)
    ensures Truthful(Apply(w, step).acks, home) && Known(Apply(w, step), home)
  {
    HomeStep(w, step, home);
    hide R.Inv, R.Resting, Resolved, Woken, Chatted, Sent, HomeOnly;
    match step
    case AttachSink(_) =>
    case BusMessage(m, now) =>
    case OtherLookup(_, _) =>
    case Resolution(i, _, now, live) => ResolvedTruthful(w, clock, i, now, live, home);
    case StaffCommand(g, c, now, live) =>
      SentTruthful(w, clock, g, c, None, now, live, home);
      SentConstants(w, g, c, None, now, live);
    case Timer(now, live) => WokenTruthful(w, clock, now, live, home);
    case ChatLine(line, _, now) => ChattedTruthful(w, line, now, home);
  }

  lemma NotSent(w: World, g: string, c: string, hooks: Option<string>, now: int, live: bool)
    requires w.guild != Some(g)
    ensures Sent(w, g, c, hooks, now, live) == (w, false)
  {
  }

  lemma {:induction false} TruthfulRun(w: World, clock: int, steps: seq<Step>, home: string)
    requires Truthful(w.acks, home) && Known(w, home) && Inv(w, clock, "") && ValidRun(w, clock, steps)
    requires forall step :: step in steps ==> AlwaysHome(step, home)
    ensures Truthful(Run(w, steps).acks, home)
    decreases |steps|
  {
    if steps != [] {
      assert steps[0] in steps;
      ApplyKeeps(w, clock, steps[0], "");
      hide R.Inv, R.Resting, EchoGood, KicksKnown, Apply, Enabled, AlwaysHome, Truthful, Known, Answering, Settling;
      TruthfulStep(w, clock, steps[0], home);
      TruthfulRun(Apply(w, steps[0]), steps[0].now, steps[1..], home);
    }
  }

  /** While lookups succeed, WRONG_GUILD is said only about other guilds, and TYPED and REFUSED_BACKLOG only
      about this one. */
  lemma RefusalsAreTruthful(s: Setup, steps: seq<Step>, w: World, home: string, a: Ack)
    requires Reached(s, steps, w) && forall step :: step in steps ==> AlwaysHome(step, home)
    requires a in w.acks
    ensures a.outcome.WRONG_GUILD? ==> a.guildId != home
    ensures a.outcome.REFUSED_BACKLOG? || a.outcome.TYPED? ==> a.guildId == home
  {
    TruthfulRun(Start(s), 0, steps, home);
  }

  // ----- the queue inside the pipeline

  /** The queue step a pipeline step takes, if any. */
  function QueueStep(w: World, step: Step): seq<R.Step> {
    match step
    case Resolution(i, found, now, live) =>
      if i >= |w.resolving| then []
      else
        var m, known := w.resolving[i].message, w.resolving[i].known;
        var guild := if known.None? && found.Some? then found.value else w.guild;
        if (known.None? && found.None?) || guild != Some(m.guildId) then []
        else [R.PushStep(RequestFor(w.joinWindowMs, m.guildId, m.command, Some(m.correlationId)), now, live)]
    case StaffCommand(g, c, now, live) =>
      if w.guild != Some(g) then [] else [R.PushStep(RequestFor(w.joinWindowMs, g, c, None), now, live)]
    case Timer(now, live) => [R.WakeStep(now, live)]
    case _ => []
  }

  lemma SentQueue(w: World, g: string, c: string, hooks: Option<string>, now: int, live: bool)
    requires w.guild == Some(g)
    ensures Sent(w, g, c, hooks, now, live).0.queue == Q.Pushed(w.queue, RequestFor(w.joinWindowMs, g, c, hooks), now, live)
    ensures Sent(w, g, c, hooks, now, live).0.joinWindowMs == w.joinWindowMs
  {
    var r := RequestFor(w.joinWindowMs, g, c, hooks);
    var q := Q.Pushed(w.queue, r, now, live);
    Q.PushExtendsLog(w.queue, r, now, live);
    HooksFrame(w.(queue := q), q.log[|w.queue.log|..]);
  }

  lemma QueueStepIsQueueStep(w: World, clock: int, step: Step)
    requires Enabled(w, clock, step)
    ensures var qs := QueueStep(w, step);
            && |qs| <= 1 && Apply(w, step).queue == R.Run(w.queue, qs)
            && (qs != [] ==> R.Enabled(w.queue, clock, qs[0]) && qs[0].now == step.now)
            && Apply(w, step).joinWindowMs == w.joinWindowMs
  {
    RunOne(w.queue, QueueStep(w, step));
    hide E.Observed, N.ParsePunitive, E.Claims, Sent, Q.Pushed, Q.Woken, R.Run, RunHooks, RequestFor;
    match step
    case AttachSink(_) =>
    case BusMessage(m, now) =>
    case OtherLookup(_, _) =>
    case ChatLine(_, _, _) =>
    case Resolution(i, found, now, live) =>
      var m, known := w.resolving[i].message, w.resolving[i].known;
      var w1 := w.(resolving := w.resolving[..i] + w.resolving[i + 1..]);
      var w2 := if known.None? && found.Some? then w1.(guild := found.value) else w1;
      if QueueStep(w, step) != [] {
        SentQueue(w2, m.guildId, m.command, Some(m.correlationId), now, live);
      } else if known.Some? || found.Some? {
        NotSent(w2, m.guildId, m.command, Some(m.correlationId), now, live);
      }
    case StaffCommand(g, c, now, live) =>
      if QueueStep(w, step) != [] {
        SentQueue(w, g, c, None, now, live);
      } else {
        NotSent(w, g, c, None, now, live);
      }
    case Timer(now, live) =>
      var q := Q.Woken(w.queue, now, live);
      Q.WakeExtendsLog(w.queue, now, live);
      HooksFrame(w.(queue := q), q.log[|w.queue.log|..]);
  }

  lemma RunOne(q: Q.State, qs: seq<R.Step>)
    requires |qs| <= 1
    ensures R.Run(q, qs) == if qs == [] then q else R.Apply(q, qs[0])
  {
  }

  function QueueSteps(w: World, steps: seq<Step>): seq<R.Step>
    decreases |steps|
  {
    if steps == [] then [] else QueueStep(w, steps[0]) + QueueSteps(Apply(w, steps[0]), steps[1..])
  }

  /** The queue inside a pipeline run takes a run of its own, so every theorem about queue runs applies to it. */
  lemma {:induction false} QueueProjection(w: World, clock: int, clock': int, steps: seq<Step>)
    requires ValidRun(w, clock, steps) && clock' <= clock
    ensures R.ValidRun(w.queue, clock', QueueSteps(w, steps))
    ensures Run(w, steps).queue == R.Run(w.queue, QueueSteps(w, steps))
    decreases |steps|
  {
    if steps != [] {
      var step := steps[0];
      var w' := Apply(w, step);
      var qs, rest := QueueStep(w, step), QueueSteps(w', steps[1..]);
      QueueStepIsQueueStep(w, clock, step);
      QueueProjection(w', step.now, if qs == [] then clock' else step.now, steps[1..]);
      hide Apply, Enabled, QueueStep, R.Enabled, R.Apply;
      if qs == [] {
        assert qs + rest == rest;
      } else {
        assert qs == [qs[0]] && (qs + rest)[1..] == rest && qs[1..] == [];
        assert R.Run(w.queue, qs) == R.Run(R.Apply(w.queue, qs[0]), []);
      }
    }
  }

  /** What is typed is paced and fresh. */
  lemma TypedLinesArePaced(s: Setup, steps: seq<Step>, w: World)
    requires Reached(s, steps, w)
    ensures forall i, j :: 0 <= i < j < |w.queue.log| && w.queue.log[i].Sent? && w.queue.log[j].Sent?
              ==> w.queue.log[j].at - w.queue.log[i].at >= s.queue.spacing
    ensures forall i :: 0 <= i < |w.queue.log| && w.queue.log[i].Sent?
              ==> w.queue.log[i].at - w.queue.log[i].entry.at < w.queue.log[i].entry.maxAge
  {
    QueueProjection(Start(s), 0, 0, steps);
    R.PacedAndFresh(s.queue, QueueSteps(Start(s), steps), w.queue);
  }

  // ----- the echo watcher

  /** Deliveries are spaced, so the watcher never follows more than fit into its window. */
  lemma WatcherStaysSmall(s: Setup, steps: seq<Step>, w: World)
    requires Reached(s, steps, w) && s.queue.spacing > 0 && s.windowMs > 0
    ensures |w.echo.watches| <= (s.windowMs - 1) / s.queue.spacing + 1
  {
    ReachedInv(s, steps, w, "");
    EchoConstants(Start(s), steps);
    QueueProjection(Start(s), 0, 0, steps);
    R.OptionsFixed(Q.Initial(s.queue), QueueSteps(Start(s), steps));
    SpreadIsShort(w.echo.watches, s.queue.spacing, s.windowMs);
  }

  lemma SpreadIsShort(ws: seq<E.Watch>, spacing: nat, windowMs: int)
    requires Spread(ws, spacing, windowMs) && spacing > 0 && windowMs > 0
    ensures |ws| <= (windowMs - 1) / spacing + 1
  {
    if |ws| >= 2 {
      var times := seq(|ws|, i requires 0 <= i < |ws| => ws[i].at);
      SpacedApart(times, spacing, 0, |ws| - 1);
      assert (|ws| - 1) * spacing <= windowMs - 1;
      DivideBound(|ws| - 1, spacing, windowMs - 1);
    }
  }

  /** With the shipped ten-second window and 1200 ms spacing: nine. */
  lemma NineWatchesAtMost(s: Setup, steps: seq<Step>, w: World)
    requires Reached(s, steps, w) && s.queue.spacing == 1200 && s.windowMs == 10_000
    ensures |w.echo.watches| <= 9
  {
    WatcherStaysSmall(s, steps, w);
  }

  // ----- our own kicks

  /** The bridge confirmed a kick of this name less than the memory ago. */
  predicate KickedRecently(w: World, ign: string, now: int) {
    T.Lower(ign) in w.echo.confirmed && now - w.echo.confirmed[T.Lower(ign)] < w.echo.memoryMs
  }

  lemma KicksKnownThen(s: Setup, steps: seq<Step>, w: World, now: int)
    requires Reached(s, steps, w) && ClockAfter(0, steps) <= now
    ensures KicksKnown(w.echo, now)
  {
    ReachedInv(s, steps, w, "");
    hide Reached, R.Inv, R.Resting, Answering, Settling, EchoGood;
  }

  /** A line that settles nothing leaves the watcher as the expiry pass left it. */
  lemma Unanswered(echo: E.State, line: E.Line, now: int)
    requires E.Observed(echo, line, now).1.None?
    ensures E.Observed(echo, line, now).0 == E.Expired(echo, now)
  {
    hide E.Answer, E.Expired;
  }

  /** Right after an expiry pass, the claim is exact. */
  lemma ClaimExact(echo: E.State, ign: string, now: int)
    requires KicksKnown(echo, now)
    ensures E.Claims(E.Expired(echo, now), ign, now) <==>
            (T.Lower(ign) in echo.confirmed && now - echo.confirmed[T.Lower(ign)] < echo.memoryMs)
  {
  }

  /** Asked on its own, the claim holds for every kick younger than the memory, for none older, and at exactly the
      memory for those no expiry pass has dropped yet. */
  lemma ClaimBounds(s: Setup, steps: seq<Step>, w: World, ign: string, now: int)
    requires Reached(s, steps, w) && ClockAfter(0, steps) <= now
    ensures w.echo.memoryMs == s.memoryMs
    ensures E.Claims(w.echo, ign, now) <==>
            KickedRecently(w, ign, now) ||
            (T.Lower(ign) in w.echo.ourKicks && T.Lower(ign) in w.echo.confirmed &&
             now - w.echo.confirmed[T.Lower(ign)] == s.memoryMs)
  {
    hide T.Lower, Reached;
    KicksKnownThen(s, steps, w, now);
    ReachedMemory(s, steps, w);
  }

  lemma ReachedMemory(s: Setup, steps: seq<Step>, w: World)
    requires Reached(s, steps, w)
    ensures w.echo.memoryMs == s.memoryMs
  {
    EchoConstants(Start(s), steps);
  }

  /** At exactly the memory, a kick still held is claimed; after an expiry pass at that moment it is not. */
  lemma ClaimAtTheBoundary(echo: E.State, ign: string, now: int)
    requires T.Lower(ign) in echo.ourKicks && now - echo.ourKicks[T.Lower(ign)] == echo.memoryMs
    ensures E.Claims(echo, ign, now) && !E.Claims(E.Expired(echo, now), ign, now)
  {
  }

  /** Asking forgets the kick asked about when it is older than the memory, and nothing else. */
  lemma AskingForgetsOldKicks(echo: E.State, ign: string, now: int, name: string)
    ensures var asked := E.Claimed(echo, ign, now);
            && asked == echo.(ourKicks := asked.ourKicks)
            && (name in asked.ourKicks <==>
                name in echo.ourKicks && (name == T.Lower(ign) ==> now - echo.ourKicks[name] <= echo.memoryMs))
            && (name in asked.ourKicks ==> asked.ourKicks[name] == echo.ourKicks[name])
  {
  }

  /** Only kicks, mutes and unmutes are ever confirmed by what is printed: a promotion or demotion that was typed
      stays watched until it is refused or ages out. */
  lemma PromotionsAreNeverConfirmed(echo: E.State, line: E.Line, now: int)
    ensures var verdict := E.Observed(echo, line, now).1;
            verdict.Some? && verdict.value.Confirmed? ==>
              verdict.value.watch.intent.kind != N.PROMOTE && verdict.value.watch.intent.kind != N.DEMOTE
  {
  }

  /** A printed line confirms the oldest command of this intent that is still watched, and none when there is none. */
  predicate ConfirmsOldest(echo: E.State, intent: N.Intent, text: string, now: int) {
    var live := E.Expired(echo, now).watches;
    var verdict := E.Observed(echo, E.Line(text, false), now).1;
    if verdict.None? then forall x :: x in live ==> x.intent != intent
    else exists i :: 0 <= i < |live| && verdict.value == E.Confirmed(live[i]) && live[i].intent == intent &&
                     forall j :: 0 <= j < i ==> live[j].intent != intent
  }

  /** No other watched command asks for the same. */
  predicate Unwatched(echo: E.State, intent: N.Intent) {
    forall x :: x in echo.watches ==> x.intent != intent
  }

  /** The watcher after a moderation line was typed. */
  function Watching(echo: E.State, g: string, id: string, kind: N.Kind, name: string, reason: string, typedAt: int): E.State {
    E.Watched(echo, g, id, "/g " + N.VerbWord(kind) + name + reason, typedAt)
  }

  /** Whatever else is watched, a notice about the name confirms the oldest command it answers; when no other command
      asks for the same, that is the one typed, exactly while it is younger than the window. */
  predicate NoticeAnswers(echo: E.State, g: string, id: string, kind: N.Kind, name: string, reason: string, text: string,
                          typedAt: int, now: int) {
    var watching := Watching(echo, g, id, kind, name, reason, typedAt);
    var intent := N.Intent(kind, T.Lower(name));
    && ConfirmsOldest(watching, intent, text, now)
    && (Unwatched(echo, intent) ==>
          E.Observed(watching, E.Line(text, false), now).1
          == if now - typedAt < echo.windowMs then Some(E.Confirmed(E.Watch(g, id, intent, typedAt))) else None)
  }

  lemma NoticeConfirms(echo: E.State, g: string, id: string, kind: N.Kind, name: string, reason: string,
                       text: string, notice: N.Notice, typedAt: int, now: int)
    requires typedAt <= now
    requires T.IsName(name) && (reason == "" || !T.IsWordChar(reason[0]))
    requires T.Trim(text) == text != [] && N.ParsePunitive(text) == Some(notice)
    requires notice.kind == kind && notice.target == name && E.IsPunitive(notice)
    ensures NoticeAnswers(echo, g, id, kind, name, reason, text, typedAt, now)
  {
    hide N.ParsePunitive, T.Trim, E.AnsweredIntent, T.Lower, T.IsName, T.IsWordChar, Watching, E.Observed, E.Expired;
    hide N.ParseCommandIntent, E.IsPunitive, ConfirmsOldest, Unwatched, E.FirstFor, Filter;
    var intent := N.Intent(kind, T.Lower(name));
    var watching := Watching(echo, g, id, kind, name, reason, typedAt);
    AboutName(text, notice);
    SettlesOldest(watching, intent, E.Line(text, false), now);
    WatchingIs(echo, g, id, kind, name, reason, typedAt);
    if Unwatched(echo, intent) {
      LatestAlone(echo, E.Watch(g, id, intent, typedAt), watching, now);
    }
  }

  lemma AboutName(text: string, notice: N.Notice)
    requires T.Trim(text) == text && N.ParsePunitive(text) == Some(notice) && E.IsPunitive(notice)
    ensures E.AnsweredIntent(E.Line(text, false)) == Some(N.Intent(notice.kind, T.Lower(notice.target)))
  {
    hide N.ParsePunitive, T.Trim;
  }

  lemma WatchingIs(echo: E.State, g: string, id: string, kind: N.Kind, name: string, reason: string, typedAt: int)
    requires T.IsName(name) && (reason == "" || !T.IsWordChar(reason[0]))
    ensures var watching := Watching(echo, g, id, kind, name, reason, typedAt);
            && watching.watches == Filter(echo.watches, E.Younger(typedAt - echo.windowMs)) +
                                   [E.Watch(g, id, N.Intent(kind, T.Lower(name)), typedAt)]
            && watching.windowMs == echo.windowMs
  {
    hide N.ParseCommandIntent, T.Lower, N.VerbWord, T.IsName, T.IsWordChar, Filter, E.Remembered;
    N.IntentRoundTrip(kind, name, reason);
  }

  /** A line about an intent answers the oldest live watch for it. */
  lemma SettlesOldest(echo: E.State, intent: N.Intent, line: E.Line, now: int)
    requires !line.refusal && T.Trim(line.text) != [] && E.AnsweredIntent(line) == Some(intent)
    ensures ConfirmsOldest(echo, intent, line.text, now)
    ensures var live := E.Expired(echo, now).watches;
            var i := E.FirstFor(live, intent);
            E.Observed(echo, line, now).1 == if i < |live| then Some(E.Confirmed(live[i])) else None
  {
    hide T.Trim, E.AnsweredIntent;
  }

  /** A new watch nobody else shares the intent of stays the only one for it. */
  lemma LatestAlone(echo: E.State, x: E.Watch, watching: E.State, now: int)
    requires Unwatched(echo, x.intent) && watching.windowMs == echo.windowMs
    requires watching.watches == Filter(echo.watches, E.Younger(x.at - echo.windowMs)) + [x]
    ensures var live := E.Expired(watching, now).watches;
            var i := E.FirstFor(live, x.intent);
            if now - x.at < echo.windowMs then i < |live| && live[i] == x else i == |live|
  {
    hide Filter, E.FirstFor, E.Expired, Unwatched, E.Younger;
    var kept := Filter(echo.watches, E.Younger(x.at - echo.windowMs));
    NoOther(echo, x, now);
    ExpiredLast(watching, kept, x, now);
    FirstForLast(Filter(kept, E.Younger(now - watching.windowMs)), x);
  }

  lemma NoOther(echo: E.State, x: E.Watch, now: int)
    requires Unwatched(echo, x.intent)
    ensures var kept := Filter(echo.watches, E.Younger(x.at - echo.windowMs));
            forall y :: y in Filter(kept, E.Younger(now - echo.windowMs)) ==> y.intent != x.intent
  {
    hide Filter;
    var kept := Filter(echo.watches, E.Younger(x.at - echo.windowMs));
    forall y | y in Filter(kept, E.Younger(now - echo.windowMs)) ensures y.intent != x.intent {
      FilterMember(kept, E.Younger(now - echo.windowMs), y);
      FilterMember(echo.watches, E.Younger(x.at - echo.windowMs), y);
    }
  }

  lemma ExpiredLast(watching: E.State, kept: seq<E.Watch>, x: E.Watch, now: int)
    requires watching.watches == kept + [x]
    ensures var before := Filter(kept, E.Younger(now - watching.windowMs));
            E.Expired(watching, now).watches == if now - x.at < watching.windowMs then before + [x] else before
  {
    FilterOne(kept, x, E.Younger(now - watching.windowMs));
    hide Filter;
  }

  lemma FirstForLast(before: seq<E.Watch>, x: E.Watch)
    requires forall y :: y in before ==> y.intent != x.intent
    ensures E.FirstFor(before, x.intent) == |before| == E.FirstFor(before + [x], x.intent)
  {
    assert forall j :: 0 <= j < |before| ==> before[j] in before;
    E.FirstForIs(before, x.intent, |before|);
    E.FirstForIs(before + [x], x.intent, |before|);
  }

  /** From the typed line to the printed notice, whatever reason was typed and whatever ranks are shown. */
  lemma KickConfirmedByItsNotice(echo: E.State, g: string, id: string, name: string, reason: string,
                                 tag: string, actorTag: string, actor: string, typedAt: int, now: int)
    requires typedAt <= now && T.IsName(name) && (reason == "" || !T.IsWordChar(reason[0]))
    requires N.IsTag(tag) && N.IsTag(actorTag) && T.IsName(actor)
    ensures NoticeAnswers(echo, g, id, N.KICK, name, reason,
                          N.Printed(tag, name) + (N.KICKED_BY + (N.Printed(actorTag, actor) + "!")), typedAt, now)
  {
    var rest := N.KICKED_BY + (N.Printed(actorTag, actor) + "!");
    assert rest[0] == ' ' && rest[1] != '>' && rest[|rest| - 1] == '!';
    hide N.ParsePunitive, N.Printed, N.IsTag, T.Trim, NoticeAnswers, N.KICKED_BY;
    N.NoticeLine(tag, name, rest);
    N.KickNoticeRoundTrip(tag, name, actorTag, actor);
    NoticeConfirms(echo, g, id, N.KICK, name, reason, N.Printed(tag, name) + rest,
                   N.Notice(N.KICK, name, Some(actor), None), typedAt, now);
  }

  lemma MuteConfirmedByItsNotice(echo: E.State, g: string, id: string, name: string, reason: string, tag: string,
                                 actorTag: string, actor: string, duration: string, typedAt: int, now: int)
    requires typedAt <= now && T.IsName(name) && (reason == "" || !T.IsWordChar(reason[0]))
    requires N.IsTag(tag) && N.IsTag(actorTag) && T.IsName(actor) && N.IsDuration(duration)
    ensures NoticeAnswers(echo, g, id, N.MUTE, name, reason,
                          N.Printed(actorTag, actor) + (N.HAS_MUTED + (N.Printed(tag, name) + " for " + duration)),
                          typedAt, now)
  {
    var rest := N.HAS_MUTED + (N.Printed(tag, name) + " for " + duration);
    assert rest[0] == ' ' && rest[1] != '>' && rest[|rest| - 1] == duration[|duration| - 1];
    assert !T.IsSpace(rest[|rest| - 1]);
    hide N.ParsePunitive, N.Printed, N.IsTag, T.Trim, NoticeAnswers, N.HAS_MUTED, N.NoticeDuration;
    N.NoticeLine(actorTag, actor, rest);
    N.MuteNoticeRoundTrip(actorTag, actor, tag, name, duration);
    NoticeConfirms(echo, g, id, N.MUTE, name, reason, N.Printed(actorTag, actor) + rest,
                   N.Notice(N.MUTE, name, Some(actor), N.NoticeDuration(duration)), typedAt, now);
  }

  lemma UnmuteConfirmedByItsNotice(echo: E.State, g: string, id: string, name: string, reason: string, tag: string,
                                   actorTag: string, actor: string, typedAt: int, now: int)
    requires typedAt <= now && T.IsName(name) && (reason == "" || !T.IsWordChar(reason[0]))
    requires N.IsTag(tag) && N.IsTag(actorTag) && T.IsName(actor)
    ensures NoticeAnswers(echo, g, id, N.UNMUTE, name, reason,
                          N.Printed(actorTag, actor) + (N.HAS_UNMUTED + N.Printed(tag, name)), typedAt, now)
  {
    var rest := N.HAS_UNMUTED + N.Printed(tag, name);
    N.PrintedShape(tag, name);
    assert rest[0] == ' ' && rest[1] != '>' && !T.IsSpace(rest[|rest| - 1]);
    hide N.ParsePunitive, N.Printed, N.IsTag, T.Trim, NoticeAnswers, N.HAS_UNMUTED;
    N.NoticeLine(actorTag, actor, rest);
    N.UnmuteNoticeRoundTrip(actorTag, actor, tag, name);
    NoticeConfirms(echo, g, id, N.UNMUTE, name, reason, N.Printed(actorTag, actor) + rest,
                   N.Notice(N.UNMUTE, name, Some(actor), None), typedAt, now);
  }
}
