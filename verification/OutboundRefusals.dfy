/** What guild chat can do to a typed command (apps/bridge-bot/src/command-echo.ts:138-176). Refusals are looked for in
    every line; only confirmations exclude the chat channels. */
module OutboundRefusals {
  import opened Prelude
  import Q = CommandQueue
  import E = CommandEcho
  import N = ModNotice
  import T = ChatText
  import opened Outbound
  import opened OutboundRuns
  import opened OutboundGuarantees

  /** A line of one of the two chat channels of the guild. */
  predicate IsChannelLine(text: string) {
    "Guild >" <= T.Trim(text) || "Officer >" <= T.Trim(text)
  }

  lemma ChannelLineIsNoNotice(text: string)
    requires IsChannelLine(text)
    ensures T.Trim(text) != [] && E.AnsweredIntent(E.Line(text, false)) == None
    ensures N.ParsePunitive(text) == None
  {
    var t := T.Trim(text);
    assert t[0] == 'G' || t[0] == 'O';
    N.TrimUnchanged(t);
  }

  /** A line of guild or officer chat settles a command exactly when the table of refusals matches it and some command
      is still watched; it settles the oldest one, as refused. */
  lemma ChannelLineOnlyRefuses(s: E.State, text: string, refusal: bool, now: int)
    requires IsChannelLine(text)
    ensures var verdict := E.Observed(s, E.Line(text, refusal), now).1;
            var live := E.Expired(s, now).watches;
            && (verdict.Some? <==> refusal && live != [])
            && (verdict.Some? ==> verdict.value == E.Refused(live[0]))
  {
    ChannelLineIsNoNotice(text);
    hide N.ParsePunitive, T.Trim, E.Expired;
  }

  /** What `/invalid usage/i` matches. */
  ghost predicate SaysInvalidUsage(text: string) {
    exists i :: T.OccursAt(T.Lower(text), "invalid usage", i)
  }

  const STEVE := "Guild > Steve: invalid usage"

  /** A member only has to say it. */
  lemma SteveSaysInvalidUsage()
    ensures IsChannelLine(STEVE) && SaysInvalidUsage(STEVE)
  {
    assert STEVE[0] == 'G' && STEVE[|STEVE| - 1] == 'e';
    N.TrimUnchanged(STEVE);
    assert STEVE[..7] == "Guild >";
    assert T.Lower(STEVE)[15..] == "invalid usage";
    assert T.OccursAt(T.Lower(STEVE), "invalid usage", 15);
  }

  /** One kick, typed at `at` and answered by one chat line. */
  datatype Scene = Scene(setup: Setup, guild: string, id: string, name: string, reason: string, at: int)

  predicate SceneOk(c: Scene) {
    && T.IsName(c.name) && (c.reason == "" || !T.IsWordChar(c.reason[0]))
    && c.setup.queue.maxBacklog > 0 && c.setup.queue.maxAge > 0 && c.setup.windowMs > 0
    && 0 <= c.at && c.at >= c.setup.queue.spacing
  }

  function Kick(c: Scene): Message {
    Message(c.guild, "/g " + N.VerbWord(N.KICK) + c.name + c.reason, c.id)
  }

  function KickWatch(c: Scene): E.Watch {
    E.Watch(c.guild, c.id, N.Intent(N.KICK, T.Lower(c.name)), c.at)
  }

  /** The session starts, the kick arrives, its guild is looked up, and a line is read. */
  function Played(c: Scene, line: E.Line, later: int): seq<Step> {
    [AttachSink(c.at), BusMessage(Kick(c), c.at), Resolution(0, Some(Some(c.guild)), c.at, true), ChatLine(line, None, later)]
  }

  lemma KickIsWatched(c: Scene)
    requires SceneOk(c)
    ensures !N.IsJoinAnswer(Kick(c).command)
    ensures N.ParseCommandIntent(Kick(c).command) == Some(N.Intent(N.KICK, T.Lower(c.name)))
  {
    N.IntentRoundTrip(N.KICK, c.name, c.reason);
    if N.IsJoinAnswer(Kick(c).command) {
      N.JoinAnswerIsNotWatched(Kick(c).command);
    }
  }

  /** The queue's first command is typed at once. */
  lemma FirstPush(c: Scene)
    requires SceneOk(c)
    ensures var q := Q.Initial(c.setup.queue);
            var r := RequestFor(c.setup.joinWindowMs, c.guild, Kick(c).command, Some(c.id));
            && Q.Accepts(q, r.urgent) && r.hooks == Some(c.id) && r.command == Kick(c).command && r.guildId == c.guild
            && Q.Pushed(q, r, c.at, true).log == [Q.Sent(Q.NewEntry(q, r, c.at), c.at)]
  {
    KickIsWatched(c);
    hide N.IsJoinAnswer, N.ParseCommandIntent, Kick;
    var q := Q.Initial(c.setup.queue);
    var r := RequestFor(c.setup.joinWindowMs, c.guild, Kick(c).command, Some(c.id));
    var s := Q.Admit(q, Q.NewEntry(q, r, c.at));
    assert s.pending == [Q.NewEntry(q, r, c.at)];
    assert Q.DrainFrom(s, c.at, true) == Q.DrainFrom(Q.Deliver(s, c.at), c.at, true);
    assert Q.Deliver(s, c.at).pending == [];
  }

  /** The hook of the first command answers TYPED and opens the watch. */
  lemma FirstHook(c: Scene, w: World, ev: Q.Event)
    requires SceneOk(c) && w.echo == E.Initial(c.setup.windowMs, c.setup.memoryMs) && w.acks == []
    requires ev.Sent? && ev.at == c.at && ev.entry.guildId == c.guild && ev.entry.hooks == Some(c.id)
    requires ev.entry.command == Kick(c).command
    ensures var w' := RunHooks(w, [ev]);
            && w'.acks == [Ack(c.guild, c.id, TYPED, c.at)]
            && w'.echo == w.echo.(watches := [KickWatch(c)])
  {
    KickIsWatched(c);
    hide N.IsJoinAnswer, N.ParseCommandIntent, Kick;
    RunHooksFirst(w, [ev]);
    assert [ev][1..] == [];
    var s := E.Expired(w.echo, c.at);
    assert s.watches == [] && s.ourKicks == map[];
  }

  lemma KickIsTyped(c: Scene)
    requires SceneOk(c)
    ensures var w := Resolved(Arrived(Start(c.setup).(sink := true), Kick(c), c.at), 0, Some(Some(c.guild)), c.at, true);
            && w.acks == [Ack(c.guild, c.id, TYPED, c.at)]
            && w.echo == E.Initial(c.setup.windowMs, c.setup.memoryMs).(watches := [KickWatch(c)])
  {
    var m := Kick(c);
    FirstPush(c);
    hide Q.Accepts, Q.Pushed, Kick, RequestFor;
    var w1 := Arrived(Start(c.setup).(sink := true), m, c.at);
    assert w1.resolving == [Lookup(m, None)] && w1.resolving[..0] + w1.resolving[1..] == [];
    var w2 := w1.(resolving := [], guild := Some(c.guild));
    var r := RequestFor(c.setup.joinWindowMs, c.guild, m.command, Some(c.id));
    var q := Q.Pushed(w2.queue, r, c.at, true);
    var ev := q.log[0];
    assert q.log[0..] == [ev];
    FirstHook(c, w2.(queue := q), ev);
  }

  /** A line of guild or officer chat that a pattern of the table matches settles a typed kick as refused, whoever
      said it. */
  lemma ChatRefusesAKick(c: Scene, text: string, later: int)
    requires SceneOk(c) && IsChannelLine(text) && c.at <= later < c.at + c.setup.windowMs
    ensures var steps := Played(c, E.Line(text, true), later);
            && ValidRun(Start(c.setup), 0, steps)
            && Run(Start(c.setup), steps).acks
               == [Ack(c.guild, c.id, TYPED, c.at), Ack(c.guild, c.id, REFUSED_INGAME, later)]
  {
    KickIsTyped(c);
    var w1 := Start(c.setup).(sink := true);
    var w2 := Arrived(w1, Kick(c), c.at);
    assert |w2.resolving| == 1;
    var w3 := Resolved(w2, 0, Some(Some(c.guild)), c.at, true);
    ChannelLineOnlyRefuses(w3.echo, text, true, later);
    assert E.Expired(w3.echo, later).watches == [KickWatch(c)] by {
      assert [KickWatch(c)][1..] == [];
    }
    hide E.Observed, E.Expired, N.ParsePunitive, Resolved, Arrived, Kick, E.Claims, IsChannelLine;
    Unrolled(Start(c.setup), w1, w2, w3, c, E.Line(text, true), later);
  }

  lemma Unrolled(w: World, w1: World, w2: World, w3: World, c: Scene, line: E.Line, later: int)
    requires w1 == w.(sink := true) && w2 == Arrived(w1, Kick(c), c.at) && |w2.resolving| > 0
    requires w3 == Resolved(w2, 0, Some(Some(c.guild)), c.at, true)
    requires 0 <= c.at <= later
    ensures ValidRun(w, 0, Played(c, line, later))
    ensures Run(w, Played(c, line, later)) == Chatted(w3, line, None, later)
  {
    hide Resolved, Arrived, Kick, Chatted;
    var steps := Played(c, line, later);
    assert steps[1..][0] == steps[1] && steps[1..][1..] == steps[2..];
    assert steps[2..][0] == steps[2] && steps[2..][1..] == steps[3..];
    assert steps[3..][0] == steps[3] && steps[3..][1..] == [];
    assert Apply(w, steps[0]) == w1 && Apply(w1, steps[1]) == w2 && Apply(w2, steps[2]) == w3;
    assert Run(w3, steps[3..]) == Chatted(w3, line, None, later);
    assert ValidRun(w3, c.at, steps[3..]);
    assert ValidRun(w2, c.at, steps[2..]) && Run(w2, steps[2..]) == Run(w3, steps[3..]);
    assert ValidRun(w1, c.at, steps[1..]) && Run(w1, steps[1..]) == Run(w2, steps[2..]);
  }

  /** The same on the bridge itself: staff are told their kick was refused because of what Steve typed. */
  method RefusedBySteve(c: Scene, later: int) returns (acks: seq<Ack>)
    requires SceneOk(c) && c.at <= later < c.at + c.setup.windowMs
    ensures acks == [Ack(c.guild, c.id, TYPED, c.at), Ack(c.guild, c.id, REFUSED_INGAME, later)]
  {
    var line := E.Line(STEVE, true);
    SteveSaysInvalidUsage();
    ChatRefusesAKick(c, STEVE, later);
    hide Arrived, Resolved, Chatted, Kick, STEVE, SceneOk;
    var bridge := new Bridge(c.setup.queue, c.setup.windowMs, c.setup.memoryMs, c.setup.joinWindowMs);
    ghost var w := bridge.View();
    bridge.AttachSink();
    bridge.HandleBusMessage(Kick(c), c.at);
    ghost var w2 := bridge.View();
    bridge.HandleResolved(0, Some(Some(c.guild)), c.at, true);
    Unrolled(w, w.(sink := true), w2, bridge.View(), c, line, later);
    bridge.HandleChatLine(line, None, later);
    acks := bridge.acks;
    assert acks == bridge.View().acks;
  }
}
