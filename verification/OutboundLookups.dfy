/** When the bridge says WRONG_GUILD (apps/bridge-bot/src/transport.ts:1435-1469): also when it could not find out. */
module OutboundLookups {
  import opened Prelude
  import Q = CommandQueue
  import E = CommandEcho
  import N = ModNotice
  import opened Outbound
  import opened OutboundRuns
  import opened OutboundGuarantees

  predicate SaysWrongGuild(acks: seq<Ack>) {
    exists a :: a in acks && a.outcome.WRONG_GUILD?
  }

  /** The i-th lookup was needed and failed, or the guild known after it is not the message's. */
  predicate Misdirected(w: World, i: nat, found: Option<Option<string>>)
    requires i < |w.resolving|
  {
    var m, known := w.resolving[i].message, w.resolving[i].known;
    if known.None? then found != Some(Some(m.guildId)) else w.guild != Some(m.guildId)
  }

  /** The queue's hooks say TYPED or EXPIRED. */
  lemma {:induction false} HooksNeverWrong(w: World, events: seq<Q.Event>)
    ensures var w' := RunHooks(w, events); w.acks <= w'.acks && !SaysWrongGuild(w'.acks[|w.acks|..])
    decreases |events|
  {
    hide HookEcho;
    if events != [] {
      var w1 := w.(echo := HookEcho(w.echo, events[0]), acks := w.acks + HookAck(events[0]));
      HooksNeverWrong(w1, events[1..]);
      var acks := RunHooks(w, events).acks;
      assert acks[|w.acks|..] == HookAck(events[0]) + acks[|w1.acks|..];
    }
  }

  lemma SentNeverWrong(w: World, g: string, c: string, hooks: Option<string>, now: int, live: bool)
    ensures var w' := Sent(w, g, c, hooks, now, live).0;
            w.acks <= w'.acks && !SaysWrongGuild(w'.acks[|w.acks|..]) && w'.guild == w.guild
  {
    SentConstants(w, g, c, hooks, now, live);
    hide Q.Pushed, RequestFor, RunHooks, SaysWrongGuild, Q.Accepts;
    var q := Q.Pushed(w.queue, RequestFor(w.joinWindowMs, g, c, hooks), now, live);
    NoneSaid(w.acks);
    if |w.queue.log| <= |q.log| {
      HooksNeverWrong(w.(queue := q), q.log[|w.queue.log|..]);
    }
  }

  lemma NoneSaid(acks: seq<Ack>)
    ensures !SaysWrongGuild(acks[|acks|..])
  {
  }

  /** One answer more. */
  lemma OneSaid(acks: seq<Ack>, more: seq<Ack>, a: Ack)
    requires acks <= more
    ensures (more + [a])[|acks|..] == more[|acks|..] + [a]
    ensures SaysWrongGuild((more + [a])[|acks|..]) <==> SaysWrongGuild(more[|acks|..]) || a.outcome.WRONG_GUILD?
  {
    assert (more + [a])[|acks|..] == more[|acks|..] + [a];
    assert forall x :: x in more[|acks|..] + [a] <==> x in more[|acks|..] || x == a;
  }

  /** A completed lookup says WRONG_GUILD exactly when the lookup was needed and did not name the message's guild, or
      the guild known beforehand is another; and then that is all it says. */
  lemma WrongGuildExactly(w: World, i: nat, found: Option<Option<string>>, now: int, live: bool)
    requires i < |w.resolving|
    ensures var m := w.resolving[i].message;
            var w' := Resolved(w, i, found, now, live);
            && w.acks <= w'.acks
            && (SaysWrongGuild(w'.acks[|w.acks|..]) <==> Misdirected(w, i, found))
            && (Misdirected(w, i, found) ==> w'.acks == w.acks + [Ack(m.guildId, m.correlationId, WRONG_GUILD, now)])
  {
    hide Sent, SaysWrongGuild;
    var m, known := w.resolving[i].message, w.resolving[i].known;
    var w1 := w.(resolving := w.resolving[..i] + w.resolving[i + 1..]);
    var w2 := if known.None? && found.Some? then w1.(guild := found.value) else w1;
    var w3 := Sent(w2, m.guildId, m.command, Some(m.correlationId), now, live).0;
    NoneSaid(w.acks);
    OneSaid(w.acks, w.acks, Ack(m.guildId, m.correlationId, WRONG_GUILD, now));
    if !(known.None? && found.None?) {
      SentNeverWrong(w2, m.guildId, m.command, Some(m.correlationId), now, live);
      OneSaid(w.acks, w3.acks, Refusal(w3, m, now));
      if w2.guild != Some(m.guildId) {
        NotSent(w2, m.guildId, m.command, Some(m.correlationId), now, live);
      }
    }
  }

  /** Nothing else ever says it. */
  lemma OnlyLookupsSayWrongGuild(w: World, step: Step)
    requires !step.Resolution?
    ensures w.acks <= Apply(w, step).acks && !SaysWrongGuild(Apply(w, step).acks[|w.acks|..])
  {
    NoneSaid(w.acks);
    hide Sent, Chatted, Woken, SaysWrongGuild;
    match step
    case AttachSink(_) =>
    case BusMessage(m, now) => OneSaid(w.acks, w.acks, Ack(m.guildId, m.correlationId, EXPIRED, now));
    case OtherLookup(_, _) =>
    case StaffCommand(g, c, now, live) => SentNeverWrong(w, g, c, None, now, live);
    case Timer(now, live) => WokenNeverWrong(w, now, live);
    case ChatLine(line, found, now) => ChattedNeverWrong(w, line, found, now);
  }

  lemma WokenNeverWrong(w: World, now: int, live: bool)
    ensures w.acks <= Woken(w, now, live).acks && !SaysWrongGuild(Woken(w, now, live).acks[|w.acks|..])
  {
    hide Q.Woken, RunHooks, SaysWrongGuild;
    var q := Q.Woken(w.queue, now, live);
    NoneSaid(w.acks);
    if |w.queue.log| <= |q.log| {
      HooksNeverWrong(w.(queue := q), q.log[|w.queue.log|..]);
    }
  }

  lemma ChattedNeverWrong(w: World, line: E.Line, found: Option<Option<string>>, now: int)
    ensures var w' := Chatted(w, line, found, now); w.acks <= w'.acks && !SaysWrongGuild(w'.acks[|w.acks|..])
  {
    hide E.Observed, N.ParsePunitive, E.Claims, E.Claimed, SaysWrongGuild;
    NoneSaid(w.acks);
    var verdict := E.Observed(w.echo, line, now).1;
    if verdict.Some? {
      OneSaid(w.acks, w.acks, VerdictAck(verdict.value, now));
    }
  }

  /** It is said about our own guild too: the message's own lookup fails although another has named the guild since. */
  lemma OwnMessageCalledForeign(s: Setup, home: string, command: string, id: string, at: int)
    returns (steps: seq<Step>, w: World)
    requires at >= 0
    ensures Reached(s, steps, w) && w.guild == Some(home)
    ensures w.received == [Message(home, command, id)] && w.acks == [Ack(home, id, WRONG_GUILD, at)]
  {
    var m := Message(home, command, id);
    var w1 := Start(s).(sink := true);
    var w2 := Arrived(w1, m, at);
    var w3 := w2.(guild := Some(home));
    w := Resolved(w3, 0, None, at, true);
    steps := [AttachSink(at), BusMessage(m, at), OtherLookup(Some(home), at), Resolution(0, None, at, true)];
    assert steps[1..][0] == steps[1] && steps[1..][1..] == steps[2..];
    assert steps[2..][0] == steps[2] && steps[2..][1..] == steps[3..];
    assert steps[3..][0] == steps[3] && steps[3..][1..] == [];
    assert Run(w3, steps[3..]) == w && ValidRun(w3, at, steps[3..]);
    assert Run(w2, steps[2..]) == w && ValidRun(w2, at, steps[2..]);
    assert Run(w1, steps[1..]) == w && ValidRun(w1, at, steps[1..]);
  }
}
