/** From the moderation bus to guild chat and back (apps/bridge-bot/src/transport.ts): the guild check, the queue's
    hooks, the echo watcher and the mirror of in-game notices, as one system. Publishing an acknowledgement is
    recorded as one entry of `acks`. */
module Outbound {
  import opened Prelude
  import Q = CommandQueue
  import E = CommandEcho
  import N = ModNotice
  import T = ChatText

  datatype Message = Message(guildId: string, command: string, correlationId: string)

  datatype Outcome = TYPED | EXPIRED | REFUSED_BACKLOG | WRONG_GUILD | CONFIRMED_INGAME | REFUSED_INGAME

  datatype Ack = Ack(guildId: string, correlationId: string, outcome: Outcome, at: int)

  /** A message waiting for the guild to be resolved. `known` is the guild when it had been resolved before. */
  datatype Lookup = Lookup(message: Message, known: Option<string>)

  /** A notice recorded as somebody's decision in the game, against a guild. */
  datatype Mirror = Mirror(guildId: string, notice: N.Notice, at: int)

  /** `received` is history. */
  datatype World = World(
    queue: Q.State,
    echo: E.State,
    joinWindowMs: int,
    guild: Option<string>,
    sink: bool,
    resolving: seq<Lookup>,
    received: seq<Message>,
    acks: seq<Ack>,
    mirrored: seq<Mirror>)

  function Initial(opts: Q.Options, windowMs: int, memoryMs: int, joinWindowMs: int): World {
    World(Q.Initial(opts), E.Initial(windowMs, memoryMs), joinWindowMs, None, false, [], [], [], [])
  }

  /** A join answer goes first and carries Hypixel's own deadline. */
  function RequestFor(joinWindowMs: int, guildId: string, command: string, hooks: Option<string>): Q.Request {
    if N.IsJoinAnswer(command) then Q.Request(command, guildId, true, Some(joinWindowMs), hooks)
    else Q.Request(command, guildId, false, None, hooks)
  }

  // ----- the hooks the sink attaches

  function HookAck(ev: Q.Event): seq<Ack> {
    if ev.entry.hooks.None? then []
    else [Ack(ev.entry.guildId, ev.entry.hooks.value, if ev.Sent? then TYPED else EXPIRED, ev.at)]
  }

  function HookEcho(echo: E.State, ev: Q.Event): E.State {
    if ev.Sent? && ev.entry.hooks.Some?
    then E.Watched(echo, ev.entry.guildId, ev.entry.hooks.value, ev.entry.command, ev.at)
    else echo
  }

  function RunHooks(w: World, events: seq<Q.Event>): World
    decreases |events|
  {
    if events == [] then w
    else RunHooks(w.(echo := HookEcho(w.echo, events[0]), acks := w.acks + HookAck(events[0])), events[1..])
  }

  lemma RunHooksFirst(w: World, events: seq<Q.Event>)
    requires events != []
    ensures RunHooks(w, events) ==
            RunHooks(w.(echo := HookEcho(w.echo, events[0]), acks := w.acks + HookAck(events[0])), events[1..])
  {
  }

  /** The queue moved to `q`; the hooks of the events it added run in order. */
  function QueueMoved(w: World, q: Q.State): World
    requires |w.queue.log| <= |q.log|
  {
    RunHooks(w.(queue := q), q.log[|w.queue.log|..])
  }

  // ----- the entry points

  function Pushed(w: World, r: Q.Request, now: int, live: bool): World {
    var q := Q.Pushed(w.queue, r, now, live);
    if |w.queue.log| <= |q.log| then QueueMoved(w, q) else w
  }

  /** `sendGameCommand`: only this bridge's guild, and only if the queue takes it. */
  function Sent(w: World, guildId: string, command: string, hooks: Option<string>, now: int, live: bool): (World, bool) {
    if w.guild != Some(guildId) then (w, false)
    else
      var r := RequestFor(w.joinWindowMs, guildId, command, hooks);
      (Pushed(w, r, now, live), Q.Accepts(w.queue, r.urgent))
  }

  function Refusal(w: World, m: Message, now: int): Ack {
    Ack(m.guildId, m.correlationId, if w.guild == Some(m.guildId) then REFUSED_BACKLOG else WRONG_GUILD, now)
  }

  /** A message arrives: answered at once when no session was ever attached, else its guild is looked up. */
  function Arrived(w: World, m: Message, now: int): World {
    var w' := w.(received := w.received + [m]);
    if !w.sink then w'.(acks := w'.acks + [Ack(m.guildId, m.correlationId, EXPIRED, now)])
    else w'.(resolving := w'.resolving + [Lookup(m, w.guild)])
  }

  /** The i-th lookup completes. `found` is None when it failed; a guild known beforehand is not looked up again. */
  function Resolved(w: World, i: nat, found: Option<Option<string>>, now: int, live: bool): World
    requires i < |w.resolving|
  {
    var m, known := w.resolving[i].message, w.resolving[i].known;
    var w1 := w.(resolving := w.resolving[..i] + w.resolving[i + 1..]);
    if known.None? && found.None? then w1.(acks := w1.acks + [Ack(m.guildId, m.correlationId, WRONG_GUILD, now)])
    else
      var w2 := if known.None? then w1.(guild := found.value) else w1;
      var (w3, accepted) := Sent(w2, m.guildId, m.command, Some(m.correlationId), now, live);
      if accepted then w3 else w3.(acks := w3.acks + [Refusal(w3, m, now)])
  }

  function Woken(w: World, now: int, live: bool): World {
    var q := Q.Woken(w.queue, now, live);
    if |w.queue.log| <= |q.log| then QueueMoved(w, q) else w
  }

  function VerdictAck(v: E.Verdict, now: int): Ack {
    Ack(v.watch.guildId, v.watch.correlationId, if v.Confirmed? then CONFIRMED_INGAME else REFUSED_INGAME, now)
  }

  /** The guild is looked up when it is not known yet; without a guild there is no history to write into. */
  function NoticeRecorded(w: World, notice: N.Notice, found: Option<Option<string>>, now: int): World {
    var guild := if w.guild.Some? || found.None? then w.guild else found.value;
    w.(guild := guild, mirrored := w.mirrored + if guild.Some? then [Mirror(guild.value, notice, now)] else [])
  }

  /** A chat line: an answer to one of our commands, our own kick coming back, or somebody's decision in game. `found`
      is what looking up the guild would answer, None when it would fail. */
  function Chatted(w: World, line: E.Line, found: Option<Option<string>>, now: int): World {
    var (echo, verdict) := E.Observed(w.echo, line, now);
    if verdict.Some? then w.(echo := echo, acks := w.acks + [VerdictAck(verdict.value, now)])
    else
      var notice := N.ParsePunitive(line.text);
      if notice.None? || !E.IsPunitive(notice.value) then w.(echo := echo)
      else if notice.value.kind.KICK? && E.Claims(echo, notice.value.target, now) then w.(echo := echo)
      else
        NoticeRecorded(
          w.(echo := if notice.value.kind.KICK? then E.Claimed(echo, notice.value.target, now) else echo),
          notice.value, found, now)
  }

  /** The closure state of the transport, around the two objects it owns. */
  class Bridge {
    const queue: Q.CommandQueue
    const echo: E.CommandEcho
    const joinWindowMs: int
    var internalGuildId: Option<string>
    var sinkAttached: bool
    var resolving: seq<Lookup>
    var acks: seq<Ack>
    var mirrored: seq<Mirror>
    /** How many of the queue's hook calls have run. */
    var hooksRun: nat
    ghost var received: seq<Message>

    ghost predicate Valid()
      reads this, queue
    {
      queue.Valid() && hooksRun == |queue.log|
    }

    ghost function View(): World
      reads this, queue, echo
    {
      World(queue.View(), echo.View(), joinWindowMs, internalGuildId, sinkAttached, resolving, received, acks, mirrored)
    }

    constructor (opts: Q.Options, windowMs: int, memoryMs: int, joinWindowMs: int)
      ensures Valid() && fresh(queue) && fresh(echo)
      ensures View() == Initial(opts, windowMs, memoryMs, joinWindowMs)
    {
      queue := new Q.CommandQueue(opts);
      echo := new E.CommandEcho(windowMs, memoryMs);
      this.joinWindowMs := joinWindowMs;
      internalGuildId, sinkAttached, resolving, acks, mirrored, hooksRun := None, false, [], [], [], 0;
      received := [];
    }

    method AttachSink()
      requires Valid()
      modifies `sinkAttached
      ensures Valid() && View() == old(View()).(sink := true)
    {
      sinkAttached := true;
    }

    /** The queue tells the sink that a command left: typed, or not. */
    method RunHook(ev: Q.Event)
      modifies `acks, echo
      ensures View() == old(View()).(echo := HookEcho(old(View()).echo, ev), acks := old(View()).acks + HookAck(ev))
    {
      hide E.Watched;
      if ev.entry.hooks.Some? {
        if ev.Sent? {
          echo.StartWatch(ev.entry.guildId, ev.entry.hooks.value, ev.entry.command, ev.at);
          acks := acks + [Ack(ev.entry.guildId, ev.entry.hooks.value, TYPED, ev.at)];
        } else {
          acks := acks + [Ack(ev.entry.guildId, ev.entry.hooks.value, EXPIRED, ev.at)];
        }
      }
    }

    /** Run the hooks of the events the queue added. */
    method RunNewHooks()
      requires queue.Valid() && hooksRun <= |queue.log|
      modifies `acks, `hooksRun, echo
      ensures Valid()
      ensures View() == RunHooks(old(View()), queue.log[old(hooksRun)..])
    {
      while hooksRun < |queue.log|
        invariant queue.Valid() && hooksRun <= |queue.log|
        invariant RunHooks(View(), queue.log[hooksRun..]) == RunHooks(old(View()), queue.log[old(hooksRun)..])
      {
        hide RunHooks, HookEcho, HookAck;
        var ev := queue.log[hooksRun];
        assert queue.log[hooksRun..][1..] == queue.log[hooksRun + 1..] && queue.log[hooksRun..][0] == ev;
        RunHooksFirst(View(), queue.log[hooksRun..]);
        RunHook(ev);
        hooksRun := hooksRun + 1;
      }
    }

    method SendGameCommand(guildId: string, command: string, hooks: Option<string>, now: int, live: bool)
      returns (accepted: bool)
      requires Valid()
      modifies `acks, `hooksRun, queue, echo
      ensures Valid()
      ensures (View(), accepted) == Sent(old(View()), guildId, command, hooks, now, live)
    {
      if internalGuildId != Some(guildId) {
        return false;
      }
      accepted := queue.Push(RequestFor(joinWindowMs, guildId, command, hooks), now, live);
      Q.PushExtendsLog(old(queue.View()), RequestFor(joinWindowMs, guildId, command, hooks), now, live);
      RunNewHooks();
    }

    method HandleBusMessage(m: Message, now: int)
      requires Valid()
      modifies this
      ensures Valid() && View() == Arrived(old(View()), m, now)
    {
      received := received + [m];
      if !sinkAttached {
        acks := acks + [Ack(m.guildId, m.correlationId, EXPIRED, now)];
        return;
      }
      resolving := resolving + [Lookup(m, internalGuildId)];
    }

    method HandleResolved(i: nat, found: Option<Option<string>>, now: int, live: bool)
      requires Valid() && i < |resolving|
      modifies this, queue, echo
      ensures Valid() && View() == Resolved(old(View()), i, found, now, live)
    {
      var m, known := resolving[i].message, resolving[i].known;
      resolving := resolving[..i] + resolving[i + 1..];
      if known.None? {
        if found.None? {
          acks := acks + [Ack(m.guildId, m.correlationId, WRONG_GUILD, now)];
          return;
        }
        internalGuildId := found.value;
      }
      var accepted := SendGameCommand(m.guildId, m.command, Some(m.correlationId), now, live);
      if !accepted {
        var outcome := if internalGuildId == Some(m.guildId) then REFUSED_BACKLOG else WRONG_GUILD;
        acks := acks + [Ack(m.guildId, m.correlationId, outcome, now)];
      }
    }

    method HandleTimer(now: int, live: bool)
      requires Valid()
      modifies this, queue, echo
      ensures Valid() && View() == Woken(old(View()), now, live)
    {
      Q.WakeExtendsLog(queue.View(), now, live);
      queue.Wake(now, live);
      RunNewHooks();
    }

    method HandleChatLine(line: E.Line, found: Option<Option<string>>, now: int)
      requires Valid()
      modifies this, echo
      ensures Valid() && View() == Chatted(old(View()), line, found, now)
    {
      hide N.ParsePunitive, E.Observed, NoticeRecorded, T.Lower;
      var verdict := echo.Observe(line, now);
      if verdict.Some? {
        acks := acks + [VerdictAck(verdict.value, now)];
        return;
      }
      var notice := N.ParsePunitive(line.text);
      if notice.None? || !E.IsPunitive(notice.value) {
        return;
      }
      if notice.value.kind.KICK? {
        var ours := echo.ClaimedKick(notice.value.target, now);
        if ours {
          return;
        }
      }
      RecordNotice(notice.value, found, now);
    }

    /** Write a notice into the history of the bridge's guild; without one, drop it. */
    method RecordNotice(notice: N.Notice, found: Option<Option<string>>, now: int)
      modifies `internalGuildId, `mirrored
      ensures View() == NoticeRecorded(old(View()), notice, found, now)
    {
      if internalGuildId.None? && found.Some? {
        internalGuildId := found.value;
      }
      if internalGuildId.None? {
        return;
      }
      mirrored := mirrored + [Mirror(internalGuildId.value, notice, now)];
    }
  }
}
