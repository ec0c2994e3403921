/** Our own kicks coming back as notices (apps/bridge-bot/src/command-echo.ts:160-205; apps/bridge-bot/src/transport.ts:
    1692-1702): what is remembered follows from the answers read so far, and decides what is recorded. */
module OutboundKicks {
  import opened Prelude
  import Q = CommandQueue
  import E = CommandEcho
  import N = ModNotice
  import T = ChatText
  import opened Outbound
  import opened OutboundRuns
  import opened OutboundGuarantees

  /** The step reads a line that confirms a typed kick of this name. */
  predicate ConfirmsKick(w: World, step: Step, name: string) {
    step.ChatLine? &&
    var verdict := E.Observed(w.echo, step.line, step.now).1;
    verdict.Some? && verdict.value.Confirmed? && verdict.value.watch.intent == N.Intent(N.KICK, name)
  }

  /** When such an answer was last read, `last` being the latest before these steps. */
  function LastKick(w: World, steps: seq<Step>, name: string, last: Option<int>): Option<int>
    decreases |steps|
  {
    if steps == [] then last
    else LastKick(Apply(w, steps[0]), steps[1..], name, if ConfirmsKick(w, steps[0], name) then Some(steps[0].now) else last)
  }

  predicate KnownAt(w: World, name: string, at: Option<int>) {
    if at.None? then name !in w.echo.confirmed else name in w.echo.confirmed && w.echo.confirmed[name] == at.value
  }

  lemma StepKnows(w: World, step: Step, name: string, last: Option<int>)
    requires KnownAt(w, name, last)
    ensures KnownAt(Apply(w, step), name, if ConfirmsKick(w, step, name) then Some(step.now) else last)
  {
    hide Arrived, Resolved, Sent, Woken, Chatted, E.Observed;
    match step
    case AttachSink(_) =>
    case BusMessage(m, now) => ArrivedConfirms(w, m, now);
    case OtherLookup(_, _) =>
    case Resolution(i, found, now, live) =>
      if i < |w.resolving| {
        ResolvedConfirms(w, i, found, now, live);
      }
    case StaffCommand(g, c, now, live) => SentConfirms(w, g, c, None, now, live);
    case Timer(now, live) => WokenConfirms(w, now, live);
    case ChatLine(line, found, now) => ChattedConfirms(w, line, found, now);
  }

  lemma ArrivedConfirms(w: World, m: Message, now: int)
    ensures Arrived(w, m, now).echo == w.echo
  {
  }

  lemma SentConfirms(w: World, g: string, c: string, hooks: Option<string>, now: int, live: bool)
    ensures Sent(w, g, c, hooks, now, live).0.echo.confirmed == w.echo.confirmed
  {
    hide Q.Pushed, Q.Accepts, RequestFor, RunHooks;
    var q := Q.Pushed(w.queue, RequestFor(w.joinWindowMs, g, c, hooks), now, live);
    if |w.queue.log| <= |q.log| {
      HooksFrame(w.(queue := q), q.log[|w.queue.log|..]);
    }
  }

  lemma WokenConfirms(w: World, now: int, live: bool)
    ensures Woken(w, now, live).echo.confirmed == w.echo.confirmed
  {
    hide Q.Woken, RunHooks;
    var q := Q.Woken(w.queue, now, live);
    if |w.queue.log| <= |q.log| {
      HooksFrame(w.(queue := q), q.log[|w.queue.log|..]);
    }
  }

  lemma ResolvedConfirms(w: World, i: nat, found: Option<Option<string>>, now: int, live: bool)
    requires i < |w.resolving|
    ensures Resolved(w, i, found, now, live).echo.confirmed == w.echo.confirmed
  {
    hide Sent;
    var m, known := w.resolving[i].message, w.resolving[i].known;
    var w1 := w.(resolving := w.resolving[..i] + w.resolving[i + 1..]);
    var w2 := if known.None? && found.Some? then w1.(guild := found.value) else w1;
    SentConfirms(w2, m.guildId, m.command, Some(m.correlationId), now, live);
  }

  lemma ChattedConfirms(w: World, line: E.Line, found: Option<Option<string>>, now: int)
    ensures var verdict := E.Observed(w.echo, line, now).1;
            var confirmed := Chatted(w, line, found, now).echo.confirmed;
            if verdict.Some? && verdict.value.Confirmed? && verdict.value.watch.intent.kind == N.KICK
            then confirmed == w.echo.confirmed[verdict.value.watch.intent.target := now]
            else confirmed == w.echo.confirmed
  {
    hide N.ParsePunitive, E.Claims, E.Answer, E.Expired, T.Lower;
    ExpiredConfirms(w.echo, now);
  }

  lemma ExpiredConfirms(echo: E.State, now: int)
    ensures E.Expired(echo, now).confirmed == echo.confirmed
  {
  }

  lemma {:induction false} RunKnows(w: World, steps: seq<Step>, name: string, last: Option<int>)
    requires KnownAt(w, name, last)
    ensures KnownAt(Run(w, steps), name, LastKick(w, steps, name, last))
    decreases |steps|
  {
    hide Apply, KnownAt, ConfirmsKick;
    if steps != [] {
      StepKnows(w, steps[0], name, last);
      RunKnows(Apply(w, steps[0]), steps[1..], name,
               if ConfirmsKick(w, steps[0], name) then Some(steps[0].now) else last);
    }
  }

  /** Over every run: a kick of a name counts as confirmed, at t, exactly when the last answer that confirmed a typed kick
      of that name was read at t. */
  lemma KicksFollowAnswers(s: Setup, steps: seq<Step>, w: World, name: string)
    requires Reached(s, steps, w)
    ensures KnownAt(w, name, LastKick(Start(s), steps, name, None))
  {
    RunKnows(Start(s), steps, name, None);
  }

  /** This bridge read the confirmation of a typed kick of this name less than the memory ago. */
  predicate KickedByUs(s: Setup, steps: seq<Step>, ign: string, now: int) {
    var last := LastKick(Start(s), steps, T.Lower(ign), None);
    last.Some? && now - last.value < s.memoryMs
  }

  /** What is recorded of a line that answers no command of ours: nothing unless it is a kick, mute or unmute; of those,
      everything but a kick that this bridge has read the confirmation of within the memory; and only when the guild is
      known or can be looked up. */
  lemma OwnKickNeverMirrored(s: Setup, steps: seq<Step>, w: World, line: E.Line, found: Option<Option<string>>, now: int)
    requires Reached(s, steps, w) && ClockAfter(0, steps) <= now && E.Observed(w.echo, line, now).1.None?
    ensures var notice := N.ParsePunitive(line.text);
            var guild := if w.guild.Some? || found.None? then w.guild else found.value;
            Chatted(w, line, found, now).mirrored ==
            if || notice.None? || guild.None?
               || (notice.value.kind != N.KICK && notice.value.kind != N.MUTE && notice.value.kind != N.UNMUTE)
               || (notice.value.kind == N.KICK && KickedByUs(s, steps, notice.value.target, now))
            then w.mirrored
            else w.mirrored + [Mirror(guild.value, notice.value, now)]
  {
    KicksKnownThen(s, steps, w, now);
    Unanswered(w.echo, line, now);
    var notice := N.ParsePunitive(line.text);
    hide E.Observed, N.ParsePunitive, E.Expired, E.Claimed, LastKick, KicksKnown, Reached, T.Lower;
    if notice.Some? {
      ClaimExact(w.echo, notice.value.target, now);
      KicksFollowAnswers(s, steps, w, T.Lower(notice.value.target));
      ReachedMemory(s, steps, w);
      hide E.Claims;
      assert w.mirrored + [] == w.mirrored;
    }
  }

  /** In particular our own kick, printed again, is never taken for somebody else's. */
  lemma RepeatedKickIsOurs(s: Setup, steps: seq<Step>, w: World, line: E.Line, found: Option<Option<string>>, now: int)
    requires Reached(s, steps, w) && ClockAfter(0, steps) <= now && E.Observed(w.echo, line, now).1.None?
    requires var notice := N.ParsePunitive(line.text);
             && notice.Some? && notice.value.kind == N.KICK
             && LastKick(Start(s), steps, T.Lower(notice.value.target), None).Some?
             && now < LastKick(Start(s), steps, T.Lower(notice.value.target), None).value + s.memoryMs
    ensures Chatted(w, line, found, now).mirrored == w.mirrored
  {
    hide E.Observed, N.ParsePunitive, LastKick, Chatted, Reached;
    OwnKickNeverMirrored(s, steps, w, line, found, now);
  }
}
