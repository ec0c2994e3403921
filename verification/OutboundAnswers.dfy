/** What the bridge answers, step by step, in the words of the protocol (apps/bridge-bot/src/transport.ts:1430-1469,
    1692-1702; apps/bridge-bot/src/command-echo.ts:138-176). */
module OutboundAnswers {
  import opened Prelude
  import Q = CommandQueue
  import E = CommandEcho
  import N = ModNotice
  import T = ChatText
  import opened Outbound
  import opened OutboundRuns
  import opened OutboundGuarantees
  import opened OutboundRefusals

  // ----- answers read out of the game

  /** A chat line adds one answer if it settles a command and none otherwise: CONFIRMED_INGAME for a confirmed one,
      REFUSED_INGAME for a refused one, on its id and for its guild. */
  lemma ChatAnswers(w: World, line: E.Line, found: Option<Option<string>>, now: int)
    ensures var verdict := E.Observed(w.echo, line, now).1;
            var acks := Chatted(w, line, found, now).acks;
            match verdict
            case None => acks == w.acks
            case Some(Confirmed(x)) => acks == w.acks + [Ack(x.guildId, x.correlationId, CONFIRMED_INGAME, now)]
            case Some(Refused(x)) => acks == w.acks + [Ack(x.guildId, x.correlationId, REFUSED_INGAME, now)]
  {
    hide E.Observed, N.ParsePunitive, E.Claims, E.Claimed;
  }

  /** Only lines of the refusal table refuse, and they do nothing else. */
  lemma TableRefuses(echo: E.State, line: E.Line, now: int)
    ensures var verdict := E.Observed(echo, line, now).1;
            verdict.Some? ==> (verdict.value.Refused? <==> line.refusal)
  {
    hide E.AnsweredIntent, T.Trim, E.Expired;
  }

  /** A line outside the table never adds REFUSED_INGAME, a line inside it never CONFIRMED_INGAME. */
  lemma AnswersFollowTheTable(w: World, line: E.Line, found: Option<Option<string>>, now: int, a: Ack)
    requires a in Chatted(w, line, found, now).acks && a !in w.acks
    ensures a.outcome == (if line.refusal then REFUSED_INGAME else CONFIRMED_INGAME) && a.at == now
  {
    hide E.Observed, Chatted;
    ChatAnswers(w, line, found, now);
    TableRefuses(w.echo, line, now);
  }

  /** A settled command is watched no longer; the others that are still young are. */
  lemma SettledIsUnwatched(echo: E.State, line: E.Line, now: int)
    ensures var (echo', verdict) := E.Observed(echo, line, now);
            var live := Filter(echo.watches, E.Younger(now - echo.windowMs));
            if verdict.None? then echo'.watches == live
            else exists i :: 0 <= i < |live| && verdict.value.watch == live[i] &&
                             echo'.watches == live[..i] + live[i + 1..]
  {
    hide E.AnsweredIntent, T.Trim, Filter, E.Younger;
    var s := E.Expired(echo, now);
    var answer := E.Answer(s, line);
    var live := Filter(echo.watches, E.Younger(now - echo.windowMs));
    if answer.Some? {
      var i := answer.value.0;
      assert answer.value.1.watch == live[i];
      assert E.Observed(echo, line, now).0.watches == live[..i] + live[i + 1..];
    }
  }

  // ----- printed notices, to the end

  /** In a bridge that has just had this command typed and watches no other for the same name, the line is answered
      CONFIRMED_INGAME on its id while it is younger than the window, and not at all afterwards. */
  ghost predicate ConfirmedOnTheBus(w: World, g: string, id: string, text: string, typedAt: int, now: int) {
    forall found :: Chatted(w, E.Line(text, false), found, now).acks ==
                    w.acks + if now - typedAt < w.echo.windowMs then [Ack(g, id, CONFIRMED_INGAME, now)] else []
  }

  lemma NoticeReachesTheBus(w: World, echo: E.State, g: string, id: string, kind: N.Kind, name: string, reason: string,
                            text: string, typedAt: int, now: int)
    requires NoticeAnswers(echo, g, id, kind, name, reason, text, typedAt, now)
    requires T.IsName(name) && (reason == "" || !T.IsWordChar(reason[0]))
    requires Unwatched(echo, N.Intent(kind, T.Lower(name)))
    requires w.echo == Watching(echo, g, id, kind, name, reason, typedAt)
    ensures ConfirmedOnTheBus(w, g, id, text, typedAt, now)
  {
    hide Watching, E.Observed, Chatted, ConfirmsOldest, Unwatched, T.Lower, T.IsName, T.IsWordChar;
    WatchingIs(echo, g, id, kind, name, reason, typedAt);
    assert w.echo.windowMs == echo.windowMs;
    forall found
      ensures Chatted(w, E.Line(text, false), found, now).acks ==
              w.acks + if now - typedAt < w.echo.windowMs then [Ack(g, id, CONFIRMED_INGAME, now)] else []
    {
      ChatAnswers(w, E.Line(text, false), found, now);
      assert w.acks + [] == w.acks;
    }
  }

  lemma KickAnsweredOnTheBus(w: World, echo: E.State, g: string, id: string, name: string, reason: string,
                             tag: string, actorTag: string, actor: string, typedAt: int, now: int)
    requires typedAt <= now && T.IsName(name) && (reason == "" || !T.IsWordChar(reason[0]))
    requires N.IsTag(tag) && N.IsTag(actorTag) && T.IsName(actor)
    requires Unwatched(echo, N.Intent(N.KICK, T.Lower(name)))
    requires w.echo == Watching(echo, g, id, N.KICK, name, reason, typedAt)
    ensures ConfirmedOnTheBus(w, g, id, N.Printed(tag, name) + (N.KICKED_BY + (N.Printed(actorTag, actor) + "!")),
                              typedAt, now)
  {
    hide N.Printed, N.IsTag, N.KICKED_BY, NoticeAnswers, ConfirmedOnTheBus, Watching, Unwatched, T.Lower, T.IsName;
    KickConfirmedByItsNotice(echo, g, id, name, reason, tag, actorTag, actor, typedAt, now);
    NoticeReachesTheBus(w, echo, g, id, N.KICK, name, reason,
                        N.Printed(tag, name) + (N.KICKED_BY + (N.Printed(actorTag, actor) + "!")), typedAt, now);
  }

  lemma MuteAnsweredOnTheBus(w: World, echo: E.State, g: string, id: string, name: string, reason: string, tag: string,
                             actorTag: string, actor: string, duration: string, typedAt: int, now: int)
    requires typedAt <= now && T.IsName(name) && (reason == "" || !T.IsWordChar(reason[0]))
    requires N.IsTag(tag) && N.IsTag(actorTag) && T.IsName(actor) && N.IsDuration(duration)
    requires Unwatched(echo, N.Intent(N.MUTE, T.Lower(name)))
    requires w.echo == Watching(echo, g, id, N.MUTE, name, reason, typedAt)
    ensures ConfirmedOnTheBus(w, g, id,
              N.Printed(actorTag, actor) + (N.HAS_MUTED + (N.Printed(tag, name) + " for " + duration)), typedAt, now)
  {
    hide N.Printed, N.IsTag, N.HAS_MUTED, NoticeAnswers, ConfirmedOnTheBus, Watching, Unwatched, T.Lower, T.IsName;
    hide N.IsDuration;
    MuteConfirmedByItsNotice(echo, g, id, name, reason, tag, actorTag, actor, duration, typedAt, now);
    NoticeReachesTheBus(w, echo, g, id, N.MUTE, name, reason,
                        N.Printed(actorTag, actor) + (N.HAS_MUTED + (N.Printed(tag, name) + " for " + duration)),
                        typedAt, now);
  }

  lemma UnmuteAnsweredOnTheBus(w: World, echo: E.State, g: string, id: string, name: string, reason: string, tag: string,
                               actorTag: string, actor: string, typedAt: int, now: int)
    requires typedAt <= now && T.IsName(name) && (reason == "" || !T.IsWordChar(reason[0]))
    requires N.IsTag(tag) && N.IsTag(actorTag) && T.IsName(actor)
    requires Unwatched(echo, N.Intent(N.UNMUTE, T.Lower(name)))
    requires w.echo == Watching(echo, g, id, N.UNMUTE, name, reason, typedAt)
    ensures ConfirmedOnTheBus(w, g, id, N.Printed(actorTag, actor) + (N.HAS_UNMUTED + N.Printed(tag, name)), typedAt, now)
  {
    hide N.Printed, N.IsTag, N.HAS_UNMUTED, NoticeAnswers, ConfirmedOnTheBus, Watching, Unwatched, T.Lower, T.IsName;
    UnmuteConfirmedByItsNotice(echo, g, id, name, reason, tag, actorTag, actor, typedAt, now);
    NoticeReachesTheBus(w, echo, g, id, N.UNMUTE, name, reason,
                        N.Printed(actorTag, actor) + (N.HAS_UNMUTED + N.Printed(tag, name)), typedAt, now);
  }

  /** The whole way: a kick arrives, is typed, and its own notice is read inside the window. */
  lemma KickConfirmedInGame(c: Scene, tag: string, actorTag: string, actor: string, later: int)
    requires SceneOk(c) && c.at <= later < c.at + c.setup.windowMs
    requires N.IsTag(tag) && N.IsTag(actorTag) && T.IsName(actor)
    ensures var text := N.Printed(tag, c.name) + (N.KICKED_BY + (N.Printed(actorTag, actor) + "!"));
            var steps := Played(c, E.Line(text, false), later);
            && ValidRun(Start(c.setup), 0, steps)
            && Run(Start(c.setup), steps).acks
               == [Ack(c.guild, c.id, TYPED, c.at), Ack(c.guild, c.id, CONFIRMED_INGAME, later)]
  {
    assert |Arrived(Start(c.setup).(sink := true), Kick(c), c.at).resolving| == 1;
    hide N.Printed, N.IsTag, N.KICKED_BY, ConfirmedOnTheBus, Chatted, Resolved, Arrived, Kick, T.Lower, T.IsName, Played;
    var text := N.Printed(tag, c.name) + (N.KICKED_BY + (N.Printed(actorTag, actor) + "!"));
    var w1 := Start(c.setup).(sink := true);
    var w2 := Arrived(w1, Kick(c), c.at);
    KickIsTyped(c);
    var w3 := Resolved(w2, 0, Some(Some(c.guild)), c.at, true);
    WatchingKick(c);
    var echo := E.Initial(c.setup.windowMs, c.setup.memoryMs);
    assert Unwatched(echo, N.Intent(N.KICK, T.Lower(c.name)));
    hide Watching, Unwatched;
    KickAnsweredOnTheBus(w3, echo, c.guild, c.id, c.name, c.reason, tag, actorTag, actor, c.at, later);
    Unrolled(Start(c.setup), w1, w2, w3, c, E.Line(text, false), later);
    OneMore(w3, c, text, later);
  }

  lemma OneMore(w: World, c: Scene, text: string, later: int)
    requires ConfirmedOnTheBus(w, c.guild, c.id, text, c.at, later)
    requires w.echo.windowMs == c.setup.windowMs && later < c.at + c.setup.windowMs
    ensures Chatted(w, E.Line(text, false), None, later).acks == w.acks + [Ack(c.guild, c.id, CONFIRMED_INGAME, later)]
  {
    hide Chatted;
  }

  lemma WatchingKick(c: Scene)
    requires SceneOk(c)
    ensures var echo := E.Initial(c.setup.windowMs, c.setup.memoryMs);
            Watching(echo, c.guild, c.id, N.KICK, c.name, c.reason, c.at) == echo.(watches := [KickWatch(c)])
  {
    hide N.ParseCommandIntent, N.VerbWord, T.Lower, T.IsName, T.IsWordChar;
    N.IntentRoundTrip(N.KICK, c.name, c.reason);
    var s := E.Expired(E.Initial(c.setup.windowMs, c.setup.memoryMs), c.at);
    assert s.watches == [] && s.ourKicks == map[];
  }

  // ----- the bridge's own answers

  /** What the sink says when these commands left the queue. */
  function LeftAnswers(events: seq<Q.Event>): seq<Ack> {
    if events == [] then []
    else
      var ev := events[0];
      (match ev.entry.hooks
       case None => []
       case Some(id) => [Ack(ev.entry.guildId, id, if ev.Sent? then TYPED else EXPIRED, ev.at)])
      + LeftAnswers(events[1..])
  }

  lemma {:induction false} HooksSay(w: World, events: seq<Q.Event>)
    ensures RunHooks(w, events).acks == w.acks + LeftAnswers(events) && RunHooks(w, events).queue == w.queue
    decreases |events|
  {
    hide HookEcho;
    if events == [] {
      assert w.acks + [] == w.acks;
    } else {
      var first := HookAck(events[0]);
      HooksSay(w.(echo := HookEcho(w.echo, events[0]), acks := w.acks + first), events[1..]);
      hide RunHooks, HookAck;
      RunHooksFirst(w, events);
      assert w.acks + first + LeftAnswers(events[1..]) == w.acks + (first + LeftAnswers(events[1..]));
      FirstAnswer(events);
    }
  }

  lemma FirstAnswer(events: seq<Q.Event>)
    requires events != []
    ensures LeftAnswers(events) == HookAck(events[0]) + LeftAnswers(events[1..])
  {
  }

  /** What left the queue between two moments. */
  function LeftSince(w: World, w': World): seq<Q.Event> {
    if |w.queue.log| <= |w'.queue.log| then w'.queue.log[|w.queue.log|..] else []
  }

  /** A timer answers for the commands that leave, and for nothing else: TYPED for each one typed, EXPIRED for each other,
      in the order they leave. */
  lemma TimerAnswers(w: World, now: int, live: bool)
    ensures var w' := Woken(w, now, live);
            && w.queue.log <= w'.queue.log
            && w'.acks == w.acks + LeftAnswers(LeftSince(w, w'))
  {
    Q.WakeExtendsLog(w.queue, now, live);
    hide Q.Woken, RunHooks, LeftAnswers;
    var q := Q.Woken(w.queue, now, live);
    HooksSay(w.(queue := q), q.log[|w.queue.log|..]);
  }

  lemma SentAnswers(w: World, g: string, c: string, hooks: Option<string>, now: int, live: bool)
    ensures var (w', accepted) := Sent(w, g, c, hooks, now, live);
            && w.queue.log <= w'.queue.log
            && w'.acks == w.acks + LeftAnswers(LeftSince(w, w'))
            && (accepted <==> w.guild == Some(g) && Q.Accepts(w.queue, N.IsJoinAnswer(c)))
  {
    hide Q.Pushed, Q.Accepts, N.IsJoinAnswer, RunHooks;
    var r := RequestFor(w.joinWindowMs, g, c, hooks);
    var q := Q.Pushed(w.queue, r, now, live);
    Q.PushExtendsLog(w.queue, r, now, live);
    HooksSay(w.(queue := q), q.log[|w.queue.log|..]);
    assert w.queue.log[|w.queue.log|..] == [] && w.acks + [] == w.acks;
  }

  /** A message that finds no session is EXPIRED at once; any other waits for its guild. */
  lemma ArrivalAnswers(w: World, m: Message, now: int)
    ensures var w' := Arrived(w, m, now);
            && w'.received == w.received + [m] && w'.queue == w.queue
            && (if w.sink then w'.acks == w.acks && w'.resolving == w.resolving + [Lookup(m, w.guild)]
                else w'.acks == w.acks + [Ack(m.guildId, m.correlationId, EXPIRED, now)] && w'.resolving == w.resolving)
  {
  }

  /** A lookup that ends: WRONG_GUILD when it was needed and failed or the guild is another; else REFUSED_BACKLOG when the
      queue does not take the command; else only what leaves the queue at this moment is answered. */
  lemma LookupAnswers(w: World, i: nat, found: Option<Option<string>>, now: int, live: bool)
    requires i < |w.resolving|
    ensures var m, known := w.resolving[i].message, w.resolving[i].known;
            var w' := Resolved(w, i, found, now, live);
            var guild := if known.None? then (if found.Some? then found.value else None) else w.guild;
            var left := LeftSince(w, w');
            && w.queue.log <= w'.queue.log
            && (guild != Some(m.guildId) ==>
                  w'.acks == w.acks + [Ack(m.guildId, m.correlationId, WRONG_GUILD, now)] && left == [])
            && (guild == Some(m.guildId) && !Q.Accepts(w.queue, N.IsJoinAnswer(m.command)) ==>
                  w'.acks == w.acks + [Ack(m.guildId, m.correlationId, REFUSED_BACKLOG, now)] && left == [])
            && (guild == Some(m.guildId) && Q.Accepts(w.queue, N.IsJoinAnswer(m.command)) ==>
                  w'.acks == w.acks + LeftAnswers(left))
  {
    hide Q.Accepts, N.IsJoinAnswer, Sent, LeftAnswers;
    var m, known := w.resolving[i].message, w.resolving[i].known;
    var w1 := w.(resolving := w.resolving[..i] + w.resolving[i + 1..]);
    var w2 := if known.None? && found.Some? then w1.(guild := found.value) else w1;
    if !(known.None? && found.None?) {
      SentAnswers(w2, m.guildId, m.command, Some(m.correlationId), now, live);
      SentConstants(w2, m.guildId, m.command, Some(m.correlationId), now, live);
      if w2.guild != Some(m.guildId) {
        NotSent(w2, m.guildId, m.command, Some(m.correlationId), now, live);
      } else if !Q.Accepts(w.queue, N.IsJoinAnswer(m.command)) {
        RefusedQuietly(w2, m.guildId, m.command, Some(m.correlationId), now, live);
      }
    }
  }

  lemma RefusedQuietly(w: World, g: string, c: string, hooks: Option<string>, now: int, live: bool)
    requires w.guild == Some(g) && !Q.Accepts(w.queue, N.IsJoinAnswer(c))
    ensures var w' := Sent(w, g, c, hooks, now, live).0; w'.queue.log == w.queue.log && w'.acks == w.acks
  {
    hide Q.Accepts, N.IsJoinAnswer;
    RefusedPush(w, g, c, hooks, now, live);
  }

  /** A line typed on behalf of a message and recognised as a moderation line is watched from then on. */
  lemma TypedIsWatched(w: World, ev: Q.Event)
    requires ev.Sent? && ev.entry.hooks.Some? && N.ParseCommandIntent(ev.entry.command).Some?
    ensures var watches := HookRun(w, ev).echo.watches;
            && watches != []
            && watches[|watches| - 1] == E.Watch(ev.entry.guildId, ev.entry.hooks.value,
                                                 N.ParseCommandIntent(ev.entry.command).value, ev.at)
            && watches[..|watches| - 1] == Filter(w.echo.watches, E.Younger(ev.at - w.echo.windowMs))
  {
    hide N.ParseCommandIntent, Filter;
  }
}
