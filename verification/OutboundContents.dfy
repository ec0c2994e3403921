/** What the pipeline types, watches and answers is what was asked for: text, guild and id of every command come from one
    message of the bus (apps/bridge-bot/src/transport.ts:643-652, 1367-1384, 1435-1469). */
module OutboundContents {
  import opened Prelude
  import Q = CommandQueue
  import R = CommandQueueRuns
  import E = CommandEcho
  import N = ModNotice
  import T = ChatText
  import opened Outbound
  import opened OutboundRuns
  import opened OutboundGuarantees

  /** The entry carries this message: an answer to a join request goes first and has the join window to live. */
  predicate Ordered(m: Message, e: Q.Entry, joinWindowMs: int, maxAge: int) {
    && e.hooks == Some(m.correlationId) && e.command == m.command && e.guildId == m.guildId
    && e.urgent == N.IsJoinAnswer(m.command)
    && e.maxAge == if N.IsJoinAnswer(m.command) then joinWindowMs else maxAge
  }

  predicate EntryTold(e: Q.Entry, received: seq<Message>, joinWindowMs: int, maxAge: int) {
    e.hooks.Some? ==> exists m :: m in received && Ordered(m, e, joinWindowMs, maxAge)
  }

  predicate AckTold(a: Ack, received: seq<Message>) {
    exists m :: m in received && m.correlationId == a.correlationId && m.guildId == a.guildId
  }

  predicate WatchTold(x: E.Watch, received: seq<Message>) {
    exists m :: m in received && m.correlationId == x.correlationId && m.guildId == x.guildId &&
                N.ParseCommandIntent(m.command) == Some(x.intent)
  }

  predicate Told(w: World) {
    && (forall l :: l in w.resolving ==> l.message in w.received)
    && (forall e :: e in w.queue.accepted ==> EntryTold(e, w.received, w.joinWindowMs, w.queue.opts.maxAge))
    && AnswersTold(w)
  }

  predicate AnswersTold(w: World) {
    && (forall a :: a in w.acks ==> AckTold(a, w.received))
    && (forall x :: x in w.echo.watches ==> WatchTold(x, w.received))
  }

  // ----- hooks

  lemma WatchedTold(echo: E.State, g: string, id: string, command: string, now: int, received: seq<Message>)
    requires forall x :: x in echo.watches ==> WatchTold(x, received)
    requires Message(g, command, id) in received
    ensures forall x :: x in E.Watched(echo, g, id, command, now).watches ==> WatchTold(x, received)
  {
    hide N.ParseCommandIntent;
    var intent := N.ParseCommandIntent(command);
    if intent.Some? {
      ExpiredTold(echo, now, received);
      var x := E.Watch(g, id, intent.value, now);
      var m := Message(g, command, id);
      assert m.correlationId == x.correlationId && m.guildId == x.guildId && WatchTold(x, received);
    }
  }

  lemma ExpiredTold(echo: E.State, now: int, received: seq<Message>)
    requires forall x :: x in echo.watches ==> WatchTold(x, received)
    ensures forall x :: x in E.Expired(echo, now).watches ==> WatchTold(x, received)
  {
    hide WatchTold;
    forall x | x in E.Expired(echo, now).watches ensures WatchTold(x, received) {
      FilterMember(echo.watches, E.Younger(now - echo.windowMs), x);
    }
  }

  lemma HookTold(w: World, ev: Q.Event)
    requires AnswersTold(w) && EntryTold(ev.entry, w.received, w.joinWindowMs, w.queue.opts.maxAge)
    ensures AnswersTold(HookRun(w, ev))
  {
    hide E.Watched, N.IsJoinAnswer, WatchTold;
    if ev.entry.hooks.Some? {
      var m :| m in w.received && Ordered(m, ev.entry, w.joinWindowMs, w.queue.opts.maxAge);
      assert m == Message(ev.entry.guildId, ev.entry.command, ev.entry.hooks.value);
      var a := Ack(ev.entry.guildId, ev.entry.hooks.value, if ev.Sent? then TYPED else EXPIRED, ev.at);
      assert AckTold(a, w.received) && HookAck(ev) == [a];
      if ev.Sent? {
        WatchedTold(w.echo, ev.entry.guildId, ev.entry.hooks.value, ev.entry.command, ev.at, w.received);
      }
    } else {
      assert w.acks + [] == w.acks;
    }
  }

  lemma {:induction false} HooksTold(w: World, events: seq<Q.Event>)
    requires AnswersTold(w)
    requires forall i :: 0 <= i < |events| ==> EntryTold(events[i].entry, w.received, w.joinWindowMs, w.queue.opts.maxAge)
    ensures AnswersTold(RunHooks(w, events))
    decreases |events|
  {
    hide AnswersTold, EntryTold, HookEcho, HookAck;
    if events != [] {
      HookTold(w, events[0]);
      var rest := events[1..];
      assert forall i :: 0 <= i < |rest| ==> rest[i] == events[i + 1];
      HooksTold(HookRun(w, events[0]), rest);
    }
  }

  lemma MovedTold(w: World, q: Q.State, now: int)
    requires Told(w) && R.Inv(q, now) && w.queue.log <= q.log && q.opts == w.queue.opts
    requires forall e :: e in q.accepted ==> EntryTold(e, w.received, w.joinWindowMs, w.queue.opts.maxAge)
    ensures Told(QueueMoved(w, q))
  {
    hide EntryTold, AnswersTold, RunHooks;
    var events := q.log[|w.queue.log|..];
    forall i | 0 <= i < |events| ensures events[i].entry in q.accepted {
      assert events[i] == q.log[|w.queue.log| + i];
      LoggedWasAccepted(q, now, |w.queue.log| + i);
    }
    assert AnswersTold(w.(queue := q)) by { SameAnswers(w, w.(queue := q)); }
    HooksTold(w.(queue := q), events);
    HooksFrame(w.(queue := q), events);
  }

  lemma SameAnswers(w: World, w': World)
    requires AnswersTold(w) && w'.acks == w.acks && w'.echo.watches == w.echo.watches && w'.received == w.received
    ensures AnswersTold(w')
  {
  }

  lemma LoggedWasAccepted(q: Q.State, now: int, l: nat)
    requires R.Inv(q, now) && l < |q.log|
    ensures q.log[l].entry in q.accepted
  {
    assert R.Entries(q.log)[l] in multiset(R.Entries(q.log));
    assert q.log[l].entry in multiset(q.accepted);
  }

  // ----- steps

  /** The queue takes a command as it was asked for. */
  lemma QueuedAsAsked(w: World, g: string, c: string, hooks: Option<string>, now: int, live: bool)
    requires w.guild == Some(g)
    ensures var w' := Sent(w, g, c, hooks, now, live).0;
            var urgent := N.IsJoinAnswer(c);
            w'.queue.accepted ==
            if Q.Accepts(w.queue, urgent)
            then w.queue.accepted +
                 [Q.Entry(|w.queue.accepted|, c, g, now, urgent,
                          if urgent then w.joinWindowMs else w.queue.opts.maxAge, hooks)]
            else w.queue.accepted
  {
    hide Q.Pushed, Q.Accepts, N.IsJoinAnswer;
    SentQueue(w, g, c, hooks, now, live);
    Q.PushExtendsLog(w.queue, RequestFor(w.joinWindowMs, g, c, hooks), now, live);
  }

  lemma NewEntryTold(w: World, e: Q.Entry)
    requires e.hooks.Some? ==> Message(e.guildId, e.command, e.hooks.value) in w.received
    requires e.urgent == N.IsJoinAnswer(e.command)
    requires e.maxAge == if e.urgent then w.joinWindowMs else w.queue.opts.maxAge
    ensures EntryTold(e, w.received, w.joinWindowMs, w.queue.opts.maxAge)
  {
    hide N.IsJoinAnswer;
    if e.hooks.Some? {
      assert Ordered(Message(e.guildId, e.command, e.hooks.value), e, w.joinWindowMs, w.queue.opts.maxAge);
    }
  }

  lemma SentTold(w: World, clock: int, g: string, c: string, hooks: Option<string>, now: int, live: bool)
    requires Told(w) && R.Inv(w.queue, clock) && R.Resting(w.queue) && clock <= now
    requires hooks.Some? ==> Message(g, c, hooks.value) in w.received
    ensures Told(Sent(w, g, c, hooks, now, live).0)
  {
    if w.guild == Some(g) {
      var r := RequestFor(w.joinWindowMs, g, c, hooks);
      var q := Q.Pushed(w.queue, r, now, live);
      R.PushKeeps(w.queue, clock, r, now, live);
      R.StepOptions(w.queue, R.PushStep(r, now, live));
      Q.PushExtendsLog(w.queue, r, now, live);
      QueuedAsAsked(w, g, c, hooks, now, live);
      SentQueue(w, g, c, hooks, now, live);
      hide R.Inv, R.Resting, Q.Pushed, QueueMoved, RequestFor, AnswersTold, N.IsJoinAnswer, Q.Accepts, EntryTold;
      var urgent := N.IsJoinAnswer(c);
      var maxAge := if urgent then w.joinWindowMs else w.queue.opts.maxAge;
      NewEntryTold(w, Q.Entry(|w.queue.accepted|, c, g, now, urgent, maxAge, hooks));
      MovedTold(w, q, now);
    }
  }

  lemma AckMore(w: World, w': World, a: Ack)
    requires Told(w) && AckTold(a, w.received) && w' == w.(acks := w.acks + [a])
    ensures Told(w')
  {
  }

  lemma ResolvedTold(w: World, clock: int, i: nat, found: Option<Option<string>>, now: int, live: bool)
    requires Told(w) && R.Inv(w.queue, clock) && R.Resting(w.queue) && clock <= now && i < |w.resolving|
    ensures Told(Resolved(w, i, found, now, live))
  {
    hide EntryTold, AnswersTold, Sent, R.Inv, R.Resting;
    var m, known := w.resolving[i].message, w.resolving[i].known;
    assert w.resolving[i] in w.resolving;
    var w1 := w.(resolving := w.resolving[..i] + w.resolving[i + 1..]);
    var w2 := if known.None? && found.Some? then w1.(guild := found.value) else w1;
    SameAnswers(w, w1);
    SameAnswers(w, w2);
    if known.None? && found.None? {
      Addressed(m, WRONG_GUILD, now, w.received);
      AckMore(w1, Resolved(w, i, found, now, live), Ack(m.guildId, m.correlationId, WRONG_GUILD, now));
    } else {
      SentTold(w2, clock, m.guildId, m.command, Some(m.correlationId), now, live);
      var (w3, accepted) := Sent(w2, m.guildId, m.command, Some(m.correlationId), now, live);
      if !accepted {
        SentFrame(w2, m.guildId, m.command, Some(m.correlationId), now, live);
        Addressed(m, Refusal(w3, m, now).outcome, now, w.received);
        AckMore(w3, w3.(acks := w3.acks + [Refusal(w3, m, now)]), Refusal(w3, m, now));
      }
    }
  }

  lemma Addressed(m: Message, outcome: Outcome, now: int, received: seq<Message>)
    requires m in received
    ensures AckTold(Ack(m.guildId, m.correlationId, outcome, now), received)
  {
  }

  lemma SentFrame(w: World, g: string, c: string, hooks: Option<string>, now: int, live: bool)
    ensures Sent(w, g, c, hooks, now, live).0.received == w.received
  {
    var q := Q.Pushed(w.queue, RequestFor(w.joinWindowMs, g, c, hooks), now, live);
    hide Q.Pushed, RunHooks;
    if |w.queue.log| <= |q.log| {
      HooksFrame(w.(queue := q), q.log[|w.queue.log|..]);
    }
  }

  lemma ArrivedTold(w: World, m: Message, now: int)
    requires Told(w)
    ensures Told(Arrived(w, m, now))
  {
    hide N.IsJoinAnswer, N.ParseCommandIntent;
    var more := w.received + [m];
    forall e | EntryTold(e, w.received, w.joinWindowMs, w.queue.opts.maxAge)
      ensures EntryTold(e, more, w.joinWindowMs, w.queue.opts.maxAge)
    {
      if e.hooks.Some? {
        var x :| x in w.received && Ordered(x, e, w.joinWindowMs, w.queue.opts.maxAge);
        assert x in more;
      }
    }
    forall a | AckTold(a, w.received) ensures AckTold(a, more) {
      var x :| x in w.received && x.correlationId == a.correlationId && x.guildId == a.guildId;
      assert x in more;
    }
    forall x | WatchTold(x, w.received) ensures WatchTold(x, more) {
      var y :| y in w.received && y.correlationId == x.correlationId && y.guildId == x.guildId &&
               N.ParseCommandIntent(y.command) == Some(x.intent);
      assert y in more;
    }
    Addressed(m, EXPIRED, now, more);
    hide EntryTold, AckTold, WatchTold;
  }

  lemma ChattedTold(w: World, line: E.Line, found: Option<Option<string>>, now: int)
    requires Told(w)
    ensures Told(Chatted(w, line, found, now))
  {
    hide EntryTold, WatchTold, AckTold, Chatted, E.Observed, E.Expired;
    ExpiredTold(w.echo, now, w.received);
    ObservedTold(w.echo, line, now, w.received);
    ChattedParts(w, line, found, now);
    var verdict := E.Observed(w.echo, line, now).1;
    if verdict.Some? {
      VerdictTold(verdict.value, now, w.received);
    }
  }

  /** What a chat line leaves alone, and what it does to the watches and the answers. */
  lemma ChattedParts(w: World, line: E.Line, found: Option<Option<string>>, now: int)
    ensures var (echo, verdict) := E.Observed(w.echo, line, now);
            var w' := Chatted(w, line, found, now);
            && w' == w.(echo := w'.echo, acks := w'.acks, guild := w'.guild, mirrored := w'.mirrored)
            && w'.echo.watches == echo.watches
            && w'.acks == w.acks + if verdict.Some? then [VerdictAck(verdict.value, now)] else []
  {
    hide E.Observed, N.ParsePunitive, E.Claims, T.Lower;
    assert w.acks + [] == w.acks;
  }

  lemma VerdictTold(v: E.Verdict, now: int, received: seq<Message>)
    requires WatchTold(v.watch, received)
    ensures AckTold(VerdictAck(v, now), received)
  {
    hide N.ParseCommandIntent;
  }

  lemma ObservedTold(echo: E.State, line: E.Line, now: int, received: seq<Message>)
    requires forall x :: x in E.Expired(echo, now).watches ==> WatchTold(x, received)
    ensures var (echo', verdict) := E.Observed(echo, line, now);
            && (forall x :: x in echo'.watches ==> WatchTold(x, received))
            && (verdict.Some? ==> WatchTold(verdict.value.watch, received))
  {
    hide WatchTold, E.AnsweredIntent, E.Expired;
  }

  lemma StepTold(w: World, clock: int, step: Step)
    requires Told(w) && R.Inv(w.queue, clock) && R.Resting(w.queue) && Enabled(w, clock, step)
    ensures Told(Apply(w, step))
  {
    hide Told, R.Inv, R.Resting, Arrived, Resolved, Sent, Woken, Chatted;
    match step
    case AttachSink(_) => Untouched(w, Apply(w, step));
    case BusMessage(m, now) => ArrivedTold(w, m, now);
    case OtherLookup(_, _) => Untouched(w, Apply(w, step));
    case Resolution(i, found, now, live) => ResolvedTold(w, clock, i, found, now, live);
    case StaffCommand(g, c, now, live) => SentTold(w, clock, g, c, None, now, live);
    case Timer(now, live) => WokenTold(w, clock, now, live);
    case ChatLine(line, found, now) => ChattedTold(w, line, found, now);
  }

  lemma Untouched(w: World, w': World)
    requires Told(w) && w' == w.(sink := w'.sink, guild := w'.guild)
    ensures Told(w')
  {
  }

  lemma WokenTold(w: World, clock: int, now: int, live: bool)
    requires Told(w) && R.Inv(w.queue, clock) && R.Resting(w.queue) && Enabled(w, clock, Timer(now, live))
    ensures Told(Woken(w, now, live))
  {
    var q := Q.Woken(w.queue, now, live);
    R.ApplyKeeps(w.queue, clock, R.WakeStep(now, live));
    R.StepOptions(w.queue, R.WakeStep(now, live));
    Q.WakeExtendsLog(w.queue, now, live);
    hide R.Inv, R.Resting, Q.Woken, QueueMoved, EntryTold, AnswersTold;
    MovedTold(w, q, now);
  }

  lemma {:induction false} RunTold(w: World, clock: int, steps: seq<Step>)
    requires Told(w) && Inv(w, clock, "") && ValidRun(w, clock, steps)
    ensures Told(Run(w, steps))
    decreases |steps|
  {
    if steps != [] {
      QueueSound(w, clock);
      hide Told, Inv, Enabled, Apply, R.Inv, R.Resting;
      StepTold(w, clock, steps[0]);
      ApplyKeeps(w, clock, steps[0], "");
      RunTold(Apply(w, steps[0]), steps[0].now, steps[1..]);
    }
  }

  lemma QueueSound(w: World, clock: int)
    requires Inv(w, clock, "")
    ensures R.Inv(w.queue, clock) && R.Resting(w.queue)
  {
    hide R.Inv, R.Resting, EchoGood, KicksKnown;
  }

  lemma ReachedTold(s: Setup, steps: seq<Step>, w: World)
    requires Reached(s, steps, w)
    ensures Told(w) && Inv(w, ClockAfter(0, steps), "")
  {
    hide Inv, Told;
    ReachedInv(s, steps, w, "");
    StartTold(s);
    RunTold(Start(s), 0, steps);
  }

  lemma StartTold(s: Setup)
    ensures Told(Start(s)) && Inv(Start(s), 0, "")
  {
    hide R.Inv, R.Resting;
    R.ReachedInv(s.queue, [], Q.Initial(s.queue));
  }

  // ----- the theorems

  /** Every command that leaves the queue on behalf of a message is one: its text, its guild, its id; and every answer and
      every watch is about a message, on its id and for its guild. */
  lemma EveryCommandIsAMessage(s: Setup, steps: seq<Step>, w: World)
    requires Reached(s, steps, w)
    ensures forall l :: 0 <= l < |w.queue.log| ==>
              EntryTold(w.queue.log[l].entry, w.received, w.joinWindowMs, w.queue.opts.maxAge)
    ensures forall a :: a in w.acks ==> AckTold(a, w.received)
    ensures forall x :: x in w.echo.watches ==> WatchTold(x, w.received)
  {
    ReachedTold(s, steps, w);
    QueueSound(w, ClockAfter(0, steps));
    hide EntryTold, AckTold, WatchTold, R.Inv, R.Resting;
    forall l | 0 <= l < |w.queue.log|
      ensures EntryTold(w.queue.log[l].entry, w.received, w.joinWindowMs, w.queue.opts.maxAge)
    {
      LoggedWasAccepted(w.queue, ClockAfter(0, steps), l);
    }
  }

  /** With distinct ids: what is typed under the id of a message is that message. */
  lemma TypedIsTheMessage(s: Setup, steps: seq<Step>, w: World, l: nat, m: Message)
    requires Reached(s, steps, w) && m in w.received
    requires forall i, j :: 0 <= i < j < |w.received| ==> w.received[i].correlationId != w.received[j].correlationId
    requires l < |w.queue.log| && w.queue.log[l].entry.hooks == Some(m.correlationId)
    ensures var e := w.queue.log[l].entry;
            && e.command == m.command && e.guildId == m.guildId && e.urgent == N.IsJoinAnswer(m.command)
            && e.maxAge == if N.IsJoinAnswer(m.command) then w.joinWindowMs else w.queue.opts.maxAge
  {
    hide Reached, N.IsJoinAnswer;
    EveryCommandIsAMessage(s, steps, w);
    var e := w.queue.log[l].entry;
    assert EntryTold(e, w.received, w.joinWindowMs, w.queue.opts.maxAge);
    var x :| x in w.received && Ordered(x, e, w.joinWindowMs, w.queue.opts.maxAge);
    assert x.correlationId == m.correlationId;
  }
}
