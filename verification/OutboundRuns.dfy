/** What every run of the outbound pipeline keeps: each message is answered as the protocol promises, nothing for
    another guild is typed, and the echo watcher stays small. */
module OutboundRuns {
  import opened Prelude
  import Q = CommandQueue
  import R = CommandQueueRuns
  import E = CommandEcho
  import N = ModNotice
  import T = ChatText
  import opened Outbound

  /** `Resolution` completes the i-th lookup; `OtherLookup` is any other part of the bridge resolving the guild. */
  datatype Step =
    | AttachSink(now: int)
    | BusMessage(message: Message, now: int)
    | Resolution(i: nat, found: Option<Option<string>>, now: int, live: bool)
    | OtherLookup(resolved: Option<string>, now: int)
    | StaffCommand(guildId: string, command: string, now: int, live: bool)
    | Timer(now: int, live: bool)
    | ChatLine(line: E.Line, lookup: Option<Option<string>>, now: int)

  predicate Enabled(w: World, clock: int, step: Step) {
    && clock <= step.now
    && (step.Resolution? ==> step.i < |w.resolving|)
    && (step.Timer? ==> !w.queue.phase.Idle? && w.queue.phase.wakeAt <= step.now)
  }

  function Apply(w: World, step: Step): World {
    match step
    case AttachSink(_) => w.(sink := true)
    case BusMessage(m, now) => Arrived(w, m, now)
    case Resolution(i, found, now, live) => if i < |w.resolving| then Resolved(w, i, found, now, live) else w
    case OtherLookup(found, _) => w.(guild := found)
    case StaffCommand(g, c, now, live) => Sent(w, g, c, None, now, live).0
    case Timer(now, live) => Woken(w, now, live)
    case ChatLine(line, found, now) => Chatted(w, line, found, now)
  }

  predicate ValidRun(w: World, clock: int, steps: seq<Step>)
    decreases |steps|
  {
    steps == [] || (Enabled(w, clock, steps[0]) && ValidRun(Apply(w, steps[0]), steps[0].now, steps[1..]))
  }

  function Run(w: World, steps: seq<Step>): World
    decreases |steps|
  {
    if steps == [] then w else Run(Apply(w, steps[0]), steps[1..])
  }

  function ClockAfter(clock: int, steps: seq<Step>): int {
    if steps == [] then clock else steps[|steps| - 1].now
  }

  // ----- labels

  /** One of the four answers the bridge itself gives. */
  predicate IsDelivery(o: Outcome) {
    o.TYPED? || o.EXPIRED? || o.REFUSED_BACKLOG? || o.WRONG_GUILD?
  }

  /** One of the two answers read out of guild chat. */
  predicate IsSettled(o: Outcome) {
    o.CONFIRMED_INGAME? || o.REFUSED_INGAME?
  }

  function HookIs(id: string): Q.Entry -> bool {
    (e: Q.Entry) => e.hooks == Some(id)
  }

  function SentIs(id: string): Q.Event -> bool {
    (ev: Q.Event) => ev.Sent? && ev.entry.hooks == Some(id)
  }

  function MessageIs(id: string): Message -> bool {
    (m: Message) => m.correlationId == id
  }

  function LookupIs(id: string): Lookup -> bool {
    (l: Lookup) => l.message.correlationId == id
  }

  function WatchIs(id: string): E.Watch -> bool {
    (x: E.Watch) => x.correlationId == id
  }

  function DeliveryIs(id: string): Ack -> bool {
    (a: Ack) => a.correlationId == id && IsDelivery(a.outcome)
  }

  function SettledIs(id: string): Ack -> bool {
    (a: Ack) => a.correlationId == id && IsSettled(a.outcome)
  }

  function TypedIs(id: string): Ack -> bool {
    (a: Ack) => a.correlationId == id && a.outcome.TYPED?
  }

  // ----- the invariant

  /** Conservation of answers, id by id: what came in is being looked up, was taken by the queue, or was
      answered; what the queue took and let go was answered. */
  predicate Answering(w: World, id: string) {
    Count(w.received, MessageIs(id)) + Count(R.Entries(w.queue.log), HookIs(id))
    == Count(w.resolving, LookupIs(id)) + Count(w.queue.accepted, HookIs(id)) + Count(w.acks, DeliveryIs(id))
  }

  /** TYPED is said exactly when a line reaches the session, and what is watched or settled was typed. */
  predicate Settling(w: World, id: string) {
    && Count(w.queue.log, SentIs(id)) == Count(w.acks, TypedIs(id))
    && Followed(w, id) <= Count(w.acks, TypedIs(id))
  }

  function Followed(w: World, id: string): nat {
    Count(w.echo.watches, WatchIs(id)) + Count(w.acks, SettledIs(id))
  }

  predicate TypedAt(acks: seq<Ack>, id: string, at: int) {
    exists k :: 0 <= k < |acks| && acks[k].outcome == TYPED && acks[k].correlationId == id && acks[k].at == at
  }

  predicate SentAt(log: seq<Q.Event>, at: int) {
    exists k :: 0 <= k < |log| && log[k].Sent? && log[k].at == at
  }

  /** Every in-game answer follows a TYPED on the same id by less than the window. */
  ghost predicate GoodAcks(acks: seq<Ack>, windowMs: int) {
    acks == [] ||
    (GoodAcks(acks[..|acks| - 1], windowMs) && InWindow(acks[..|acks| - 1], acks[|acks| - 1], windowMs))
  }

  ghost predicate InWindow(before: seq<Ack>, a: Ack, windowMs: int) {
    IsSettled(a.outcome) ==> exists t :: TypedAt(before, a.correlationId, t) && 0 <= a.at - t < windowMs
  }

  /** Watches are as far apart as deliveries, and fit into one window. */
  predicate Spread(ws: seq<E.Watch>, spacing: nat, windowMs: int) {
    && (forall i, j :: 0 <= i < j < |ws| ==> ws[j].at - ws[i].at >= spacing)
    && (forall i :: 0 <= i < |ws| - 1 ==> ws[|ws| - 1].at - ws[i].at < windowMs)
  }

  predicate WatchesFrom(ws: seq<E.Watch>, log: seq<Q.Event>, acks: seq<Ack>) {
    forall x :: x in ws ==> SentAt(log, x.at) && TypedAt(acks, x.correlationId, x.at)
  }

  ghost predicate EchoGood(echo: E.State, log: seq<Q.Event>, acks: seq<Ack>, spacing: nat) {
    Spread(echo.watches, spacing, echo.windowMs) && WatchesFrom(echo.watches, log, acks) && GoodAcks(acks, echo.windowMs)
  }

  /** Our kicks are remembered exactly, up to the memory. */
  predicate KicksKnown(echo: E.State, clock: int) {
    && (forall k :: k in echo.ourKicks ==> k in echo.confirmed && echo.ourKicks[k] == echo.confirmed[k])
    && (forall k :: k in echo.confirmed ==> echo.confirmed[k] <= clock)
    && (forall k :: k in echo.confirmed && k !in echo.ourKicks ==> clock - echo.confirmed[k] >= echo.memoryMs)
  }

  ghost predicate Inv(w: World, clock: int, id: string) {
    && R.Inv(w.queue, clock) && R.Resting(w.queue)
    && Answering(w, id) && Settling(w, id)
    && EchoGood(w.echo, w.queue.log, w.acks, w.queue.opts.spacing)
    && KicksKnown(w.echo, clock)
  }

  // ----- running hooks

  lemma {:induction false} HooksFrame(w: World, events: seq<Q.Event>)
    ensures var w' := RunHooks(w, events);
            && w' == w.(echo := w'.echo, acks := w'.acks)
            && w'.echo == w.echo.(watches := w'.echo.watches, ourKicks := w'.echo.ourKicks)
    decreases |events|
  {
    if events != [] {
      HooksFrame(w.(echo := HookEcho(w.echo, events[0]), acks := w.acks + HookAck(events[0])), events[1..]);
    }
  }

  lemma WatchedCount(echo: E.State, g: string, id: string, command: string, now: int, x: string)
    ensures Count(E.Watched(echo, g, id, command, now).watches, WatchIs(x))
            <= Count(echo.watches, WatchIs(x)) + if id == x then 1 else 0
  {
    CountFilter(echo.watches, E.Younger(now - echo.windowMs), WatchIs(x));
    var intent := N.ParseCommandIntent(command);
    if intent.Some? {
      CountOne(E.Expired(echo, now).watches, E.Watch(g, id, intent.value, now), WatchIs(x));
    }
  }

  function HookRun(w: World, ev: Q.Event): World {
    w.(echo := HookEcho(w.echo, ev), acks := w.acks + HookAck(ev))
  }

  /** Running one hook answers exactly the id it carries. */
  lemma HookAnswers(w: World, ev: Q.Event, id: string)
    ensures var w' := HookRun(w, ev);
            && Count(w'.acks, DeliveryIs(id)) == Count(w.acks, DeliveryIs(id)) + (if HookIs(id)(ev.entry) then 1 else 0)
            && Count(w'.acks, TypedIs(id)) == Count(w.acks, TypedIs(id)) + (if SentIs(id)(ev) then 1 else 0)
            && Followed(w', id) <= Followed(w, id) + (if SentIs(id)(ev) then 1 else 0)
  {
    if ev.entry.hooks.None? {
      assert w.acks + [] == w.acks;
    } else {
      var a := Ack(ev.entry.guildId, ev.entry.hooks.value, if ev.Sent? then TYPED else EXPIRED, ev.at);
      assert HookAck(ev) == [a];
      CountOne(w.acks, a, DeliveryIs(id));
      CountOne(w.acks, a, SettledIs(id));
      CountOne(w.acks, a, TypedIs(id));
      WatchedCount(w.echo, ev.entry.guildId, ev.entry.hooks.value, ev.entry.command, ev.at, id);
      hide E.Watched, Count;
    }
  }

  /** Running the hooks of some events answers exactly the ids they carry. */
  lemma {:induction false} HooksAnswer(w: World, events: seq<Q.Event>, id: string)
    ensures var w' := RunHooks(w, events);
            && Count(w'.acks, DeliveryIs(id)) == Count(w.acks, DeliveryIs(id)) + Count(R.Entries(events), HookIs(id))
            && Count(w'.acks, TypedIs(id)) == Count(w.acks, TypedIs(id)) + Count(events, SentIs(id))
            && Followed(w', id) <= Followed(w, id) + Count(events, SentIs(id))
    decreases |events|
  {
    if events != [] {
      assert R.Entries(events)[1..] == R.Entries(events[1..]);
      HookAnswers(w, events[0], id);
      HooksAnswer(HookRun(w, events[0]), events[1..], id);
      hide HookEcho, HookAck, Followed, HookIs, SentIs;
    }
  }

  lemma GoodAcksAppend(acks: seq<Ack>, a: Ack, windowMs: int)
    requires GoodAcks(acks, windowMs) && InWindow(acks, a, windowMs)
    ensures GoodAcks(acks + [a], windowMs)
  {
  }

  lemma TypedAtMore(acks: seq<Ack>, more: seq<Ack>, id: string, at: int)
    requires TypedAt(acks, id, at)
    ensures TypedAt(acks + more, id, at)
  {
    var k :| 0 <= k < |acks| && acks[k].outcome == TYPED && acks[k].correlationId == id && acks[k].at == at;
    assert (acks + more)[k] == acks[k];
  }

  lemma SentAtMore(log: seq<Q.Event>, more: seq<Q.Event>, at: int)
    requires SentAt(log, at)
    ensures SentAt(log + more, at)
  {
    var k :| 0 <= k < |log| && log[k].Sent? && log[k].at == at;
    assert (log + more)[k] == log[k];
  }

  lemma WatchesFromMore(ws: seq<E.Watch>, log: seq<Q.Event>, moreLog: seq<Q.Event>, acks: seq<Ack>, moreAcks: seq<Ack>)
    requires WatchesFrom(ws, log, acks)
    ensures WatchesFrom(ws, log + moreLog, acks + moreAcks)
  {
    forall x | x in ws ensures SentAt(log + moreLog, x.at) && TypedAt(acks + moreAcks, x.correlationId, x.at) {
      SentAtMore(log, moreLog, x.at);
      TypedAtMore(acks, moreAcks, x.correlationId, x.at);
    }
  }

  /** Watches stand in the order of their times, so expiring the old ones leaves a tail. */
  lemma {:induction false} ExpiryLeavesTail(ws: seq<E.Watch>, cutoff: int) returns (k: nat)
    requires forall i, j :: 0 <= i < j < |ws| ==> ws[i].at <= ws[j].at
    ensures k <= |ws| && Filter(ws, E.Younger(cutoff)) == ws[k..]
    ensures forall x :: x in ws[k..] ==> x.at > cutoff
  {
    if ws == [] {
      k := 0;
    } else if ws[0].at > cutoff {
      k := 0;
      FilterAll(ws, E.Younger(cutoff));
    } else {
      k := ExpiryLeavesTail(ws[1..], cutoff);
      assert ws[k + 1..] == ws[1..][k..];
      k := k + 1;
    }
  }

  lemma TailSpread(ws: seq<E.Watch>, k: nat, spacing: nat, windowMs: int)
    requires Spread(ws, spacing, windowMs) && k <= |ws|
    ensures Spread(ws[k..], spacing, windowMs)
  {
  }

  lemma ExpiryKeepsEcho(echo: E.State, now: int, log: seq<Q.Event>, acks: seq<Ack>, spacing: nat)
    requires EchoGood(echo, log, acks, spacing)
    ensures EchoGood(E.Expired(echo, now), log, acks, spacing)
    ensures forall x :: x in E.Expired(echo, now).watches ==> x.at > now - echo.windowMs
    ensures forall x :: x in E.Expired(echo, now).watches ==> x in echo.watches
  {
    var ws := echo.watches;
    assert forall i, j :: 0 <= i < j < |ws| ==> ws[i].at <= ws[j].at;
    var k := ExpiryLeavesTail(ws, now - echo.windowMs);
    assert E.Expired(echo, now).watches == ws[k..] && E.Expired(echo, now).windowMs == echo.windowMs;
    TailSpread(ws, k, spacing, echo.windowMs);
    assert forall x :: x in ws[k..] ==> x in ws;
    hide GoodAcks, E.Expired, Filter, Spread, SentAt, TypedAt;
  }

  lemma ExpiryKeepsKicks(echo: E.State, now: int, clock: int)
    requires KicksKnown(echo, clock) && now <= clock
    ensures KicksKnown(E.Expired(echo, now), clock)
  {
  }

  /** A new delivery is far enough from every watch. */
  lemma DeliveriesApart(log: seq<Q.Event>, n: nat, spacing: nat, at: int)
    requires n < |log| && R.GoodLog(log, spacing) && log[n].Sent? && SentAt(log[..n], at)
    ensures log[n].at - at >= spacing
  {
  }

  /** The delivery at log[n] opens a watch, or is not one the watcher follows. */
  lemma WatchKeepsEcho(echo: E.State, log: seq<Q.Event>, n: nat, acks: seq<Ack>, spacing: nat)
    requires n < |log| && R.GoodLog(log, spacing) && log[n].Sent? && log[n].entry.hooks.Some?
    requires EchoGood(echo, log[..n], acks, spacing)
    ensures EchoGood(HookEcho(echo, log[n]), log[..n + 1], acks + HookAck(log[n]), spacing)
  {
    var ev := log[n];
    var a := Ack(ev.entry.guildId, ev.entry.hooks.value, TYPED, ev.at);
    GoodAcksAppend(acks, a, echo.windowMs);
    assert HookAck(ev) == [a];
    if N.ParseCommandIntent(ev.entry.command).Some? {
      ExpiryKeepsEcho(echo, ev.at, log[..n], acks, spacing);
      assert HookEcho(echo, ev).windowMs == echo.windowMs;
      hide GoodAcks;
      OpenedWatch(echo, log, n, acks, spacing);
    } else {
      assert log[..n + 1] == log[..n] + [ev];
      hide N.ParseCommandIntent, GoodAcks, HookAck, Spread;
      WatchesFromMore(echo.watches, log[..n], [ev], acks, [a]);
    }
  }

  lemma OpenedWatch(echo: E.State, log: seq<Q.Event>, n: nat, acks: seq<Ack>, spacing: nat)
    requires n < |log| && R.GoodLog(log, spacing) && log[n].Sent? && log[n].entry.hooks.Some?
    requires N.ParseCommandIntent(log[n].entry.command).Some?
    requires var kept := E.Expired(echo, log[n].at).watches;
             && Spread(kept, spacing, echo.windowMs) && WatchesFrom(kept, log[..n], acks)
             && forall x :: x in kept ==> x.at > log[n].at - echo.windowMs
    ensures Spread(HookEcho(echo, log[n]).watches, spacing, echo.windowMs)
    ensures WatchesFrom(HookEcho(echo, log[n]).watches, log[..n + 1], acks + HookAck(log[n]))
  {
    var ev := log[n];
    var id := ev.entry.hooks.value;
    var a := Ack(ev.entry.guildId, id, TYPED, ev.at);
    var x := E.Watch(ev.entry.guildId, id, N.ParseCommandIntent(ev.entry.command).value, ev.at);
    var kept := E.Expired(echo, ev.at).watches;
    assert HookAck(ev) == [a] && HookEcho(echo, ev).watches == kept + [x];
    hide E.Expired, N.ParseCommandIntent, HookEcho, HookAck, R.GoodLog, Spread, WatchesFrom, SentAt, TypedAt;
    assert log[..n + 1] == log[..n] + [ev];
    SentNow(log[..n], ev);
    TypedNow(acks, a);
    WatchGaps(kept, log, n, acks, spacing, echo.windowMs);
    WatchesFromMore(kept, log[..n], [ev], acks, [a]);
    NewWatch(kept, x, log[..n + 1], acks + [a], spacing, echo.windowMs);
  }

  lemma WatchGaps(ws: seq<E.Watch>, log: seq<Q.Event>, n: nat, acks: seq<Ack>, spacing: nat, windowMs: int)
    requires n < |log| && R.GoodLog(log, spacing) && log[n].Sent? && WatchesFrom(ws, log[..n], acks)
    requires forall x :: x in ws ==> x.at > log[n].at - windowMs
    ensures forall x :: x in ws ==> spacing <= log[n].at - x.at < windowMs
  {
    hide R.GoodLog, SentAt, TypedAt;
    forall x | x in ws ensures spacing <= log[n].at - x.at {
      DeliveriesApart(log, n, spacing, x.at);
    }
  }

  lemma SentNow(log: seq<Q.Event>, ev: Q.Event)
    requires ev.Sent?
    ensures SentAt(log + [ev], ev.at)
  {
    assert (log + [ev])[|log|] == ev;
  }

  lemma TypedNow(acks: seq<Ack>, a: Ack)
    requires a.outcome.TYPED?
    ensures TypedAt(acks + [a], a.correlationId, a.at)
  {
    assert (acks + [a])[|acks|] == a;
  }

  lemma NewWatch(ws: seq<E.Watch>, x: E.Watch, log: seq<Q.Event>, acks: seq<Ack>, spacing: nat, windowMs: int)
    requires Spread(ws, spacing, windowMs)
    requires forall y :: y in ws ==> spacing <= x.at - y.at < windowMs
    requires WatchesFrom(ws, log, acks) && SentAt(log, x.at) && TypedAt(acks, x.correlationId, x.at)
    ensures Spread(ws + [x], spacing, windowMs) && WatchesFrom(ws + [x], log, acks)
  {
  }

  /** One hook keeps the watcher in order. */
  lemma HookKeepsEcho(w: World, n: nat)
    requires n < |w.queue.log| && R.GoodLog(w.queue.log, w.queue.opts.spacing)
    requires EchoGood(w.echo, w.queue.log[..n], w.acks, w.queue.opts.spacing)
    ensures var w' := HookRun(w, w.queue.log[n]);
            EchoGood(w'.echo, w.queue.log[..n + 1], w'.acks, w.queue.opts.spacing)
  {
    var log := w.queue.log;
    var ev := log[n];
    if ev.Sent? && ev.entry.hooks.Some? {
      WatchKeepsEcho(w.echo, log, n, w.acks, w.queue.opts.spacing);
    } else {
      hide R.GoodLog;
      assert log[..n + 1] == log[..n] + [ev];
      WatchesFromMore(w.echo.watches, log[..n], [ev], w.acks, HookAck(ev));
      if ev.entry.hooks.Some? {
        GoodAcksAppend(w.acks, HookAck(ev)[0], w.echo.windowMs);
        assert HookAck(ev) == [HookAck(ev)[0]];
      } else {
        assert w.acks + HookAck(ev) == w.acks;
      }
    }
  }

  lemma HookKeepsKicks(echo: E.State, ev: Q.Event, clock: int)
    requires KicksKnown(echo, clock) && ev.at <= clock
    ensures KicksKnown(HookEcho(echo, ev), clock)
  {
  }

  lemma {:induction false} HooksKeepEcho(w: World, n: nat, clock: int)
    requires n <= |w.queue.log| && R.GoodLog(w.queue.log, w.queue.opts.spacing)
    requires EchoGood(w.echo, w.queue.log[..n], w.acks, w.queue.opts.spacing)
    requires KicksKnown(w.echo, clock)
    requires forall i :: n <= i < |w.queue.log| ==> w.queue.log[i].at <= clock
    ensures var w' := RunHooks(w, w.queue.log[n..]);
            EchoGood(w'.echo, w.queue.log, w'.acks, w.queue.opts.spacing) && KicksKnown(w'.echo, clock)
    decreases |w.queue.log| - n
  {
    var log := w.queue.log;
    if n == |log| {
      assert log[..n] == log && log[n..] == [];
    } else {
      hide EchoGood, KicksKnown, R.GoodLog, RunHooks, HookEcho, HookAck;
      assert log[n..][0] == log[n] && log[n..][1..] == log[n + 1..];
      var w1 := HookRun(w, log[n]);
      RunHooksFirst(w, log[n..]);
      HookKeepsEcho(w, n);
      HookKeepsKicks(w.echo, log[n], clock);
      HooksKeepEcho(w1, n + 1, clock);
    }
  }

  // ----- every step keeps the invariant

  /** The queue took one step and its new hooks ran. */
  lemma QueueMovedAnswers(w: World, q: Q.State, id: string)
    requires Settling(w, id) && w.queue.log <= q.log
    requires Count(w.received, MessageIs(id)) + Count(R.Entries(w.queue.log), HookIs(id))
             == Count(w.resolving, LookupIs(id)) + Count(q.accepted, HookIs(id)) + Count(w.acks, DeliveryIs(id))
    ensures Answering(QueueMoved(w, q), id) && Settling(QueueMoved(w, q), id)
  {
    var events := q.log[|w.queue.log|..];
    var w0 := w.(queue := q);
    assert q.log == w.queue.log + events;
    EntriesJoin(w.queue.log, events);
    hide RunHooks, Count, R.Entries, HookIs, SentIs, MessageIs, LookupIs, WatchIs, DeliveryIs, SettledIs, TypedIs;
    CountAppend(R.Entries(w.queue.log), R.Entries(events), HookIs(id));
    CountAppend(w.queue.log, events, SentIs(id));
    HooksFrame(w0, events);
    HooksAnswer(w0, events, id);
  }

  lemma EntriesJoin(a: seq<Q.Event>, b: seq<Q.Event>)
    ensures R.Entries(a + b) == R.Entries(a) + R.Entries(b)
  {
  }

  lemma QueueMovedKeeps(w: World, q: Q.State, clock: int, now: int, id: string)
    requires EchoGood(w.echo, w.queue.log, w.acks, w.queue.opts.spacing) && KicksKnown(w.echo, clock) && clock <= now
    requires Settling(w, id)
    requires R.Inv(q, now) && R.Resting(q) && w.queue.log <= q.log && q.opts == w.queue.opts
    requires Count(w.received, MessageIs(id)) + Count(R.Entries(w.queue.log), HookIs(id))
             == Count(w.resolving, LookupIs(id)) + Count(q.accepted, HookIs(id)) + Count(w.acks, DeliveryIs(id))
    ensures Inv(QueueMoved(w, q), now, id)
  {
    QueueMovedAnswers(w, q, id);
    var n := |w.queue.log|;
    var w0 := w.(queue := q);
    assert q.log[..n] == w.queue.log;
    assert QueueMoved(w, q) == RunHooks(w0, q.log[n..]);
    HooksFrame(w0, q.log[n..]);
    assert KicksKnown(w.echo, now);
    assert R.GoodLog(q.log, q.opts.spacing) && forall i :: 0 <= i < |q.log| ==> q.log[i].at <= now;
    hide R.Inv, R.GoodLog, EchoGood, KicksKnown, RunHooks, Answering, Settling, QueueMoved, Count;
    HooksKeepEcho(w0, n, now);
  }

  /** One of the bridge's own answers other than TYPED is added. */
  lemma DeniedEcho(echo: E.State, log: seq<Q.Event>, acks: seq<Ack>, a: Ack, spacing: nat)
    requires a.outcome.EXPIRED? || a.outcome.REFUSED_BACKLOG? || a.outcome.WRONG_GUILD?
    requires EchoGood(echo, log, acks, spacing)
    ensures EchoGood(echo, log, acks + [a], spacing)
  {
    hide Spread, WatchesFrom;
    GoodAcksAppend(acks, a, echo.windowMs);
    WatchesFromMore(echo.watches, log, [], acks, [a]);
    assert log + [] == log;
  }

  lemma DeniedKeeps(w: World, a: Ack, clock: int, now: int, id: string)
    requires a.outcome.EXPIRED? || a.outcome.REFUSED_BACKLOG? || a.outcome.WRONG_GUILD?
    requires R.Inv(w.queue, now) && R.Resting(w.queue) && Settling(w, id)
    requires EchoGood(w.echo, w.queue.log, w.acks, w.queue.opts.spacing) && KicksKnown(w.echo, clock) && clock <= now
    requires Count(w.received, MessageIs(id)) + Count(R.Entries(w.queue.log), HookIs(id))
             == Count(w.resolving, LookupIs(id)) + Count(w.queue.accepted, HookIs(id)) + Count(w.acks, DeliveryIs(id))
                + (if a.correlationId == id then 1 else 0)
    ensures Inv(w.(acks := w.acks + [a]), now, id)
  {
    hide R.Inv, R.Resting, Count, R.Entries, KicksKnown, EchoGood;
    CountOne(w.acks, a, DeliveryIs(id));
    CountOne(w.acks, a, SettledIs(id));
    CountOne(w.acks, a, TypedIs(id));
    DeniedEcho(w.echo, w.queue.log, w.acks, a, w.queue.opts.spacing);
    LaterKnowsKicks(w.echo, clock, now);
  }

  lemma ArrivedKeeps(w: World, clock: int, m: Message, now: int, id: string)
    requires Inv(w, clock, id) && clock <= now
    ensures Inv(Arrived(w, m, now), now, id)
  {
    R.LaterKeeps(w.queue, clock, now);
    CountOne(w.received, m, MessageIs(id));
    var w1 := w.(received := w.received + [m]);
    assert Settling(w1, id);
    if w.sink {
      CountOne(w.resolving, Lookup(m, w.guild), LookupIs(id));
      assert KicksKnown(w.echo, now);
      hide R.Inv, Count, EchoGood, R.Entries;
    } else {
      hide R.Inv, Count, EchoGood, R.Entries, Settling;
      DeniedKeeps(w1, Ack(m.guildId, m.correlationId, EXPIRED, now), clock, now, id);
    }
  }

  /** A push that is taken, on behalf of a message (hooks) or of staff (none). `owed` is the answer the books
      still miss for `id` because its message has just left the lookups. */
  lemma SentKeeps(w: World, clock: int, g: string, command: string, hooks: Option<string>, now: int, live: bool, id: string)
    requires R.Inv(w.queue, clock) && R.Resting(w.queue) && Settling(w, id) && clock <= now
    requires EchoGood(w.echo, w.queue.log, w.acks, w.queue.opts.spacing) && KicksKnown(w.echo, clock)
    requires w.guild == Some(g) && Q.Accepts(w.queue, RequestFor(w.joinWindowMs, g, command, hooks).urgent)
    requires Count(w.received, MessageIs(id)) + Count(R.Entries(w.queue.log), HookIs(id))
             == Count(w.resolving, LookupIs(id)) + Count(w.queue.accepted, HookIs(id)) + Count(w.acks, DeliveryIs(id))
                + (if hooks == Some(id) then 1 else 0)
    ensures Inv(Sent(w, g, command, hooks, now, live).0, now, id)
  {
    var r := RequestFor(w.joinWindowMs, g, command, hooks);
    var q := Q.Pushed(w.queue, r, now, live);
    R.PushKeeps(w.queue, clock, r, now, live);
    Q.PushExtendsLog(w.queue, r, now, live);
    CountOne(w.queue.accepted, Q.NewEntry(w.queue, r, now), HookIs(id));
    R.StepOptions(w.queue, R.PushStep(r, now, live));
    hide R.Inv, R.Resting, EchoGood, KicksKnown, Settling, Count, R.Entries, Q.Pushed, QueueMoved, Q.Accepts;
    QueueMovedKeeps(w, q, clock, now, id);
  }

  /** A push the queue refuses changes nothing but its counter. */
  lemma RefusedPush(w: World, g: string, command: string, hooks: Option<string>, now: int, live: bool)
    requires w.guild == Some(g) && !Q.Accepts(w.queue, RequestFor(w.joinWindowMs, g, command, hooks).urgent)
    ensures Sent(w, g, command, hooks, now, live) == (w.(queue := w.queue.(dropped := w.queue.dropped + 1)), false)
  {
  }

  lemma StaffKeeps(w: World, clock: int, g: string, command: string, now: int, live: bool, id: string)
    requires Inv(w, clock, id) && clock <= now
    ensures Inv(Sent(w, g, command, None, now, live).0, now, id)
  {
    R.LaterKeeps(w.queue, clock, now);
    if w.guild != Some(g) {
      assert KicksKnown(w.echo, now);
    } else if Q.Accepts(w.queue, RequestFor(w.joinWindowMs, g, command, None).urgent) {
      hide R.Inv, EchoGood, KicksKnown, Settling, Q.Accepts;
      SentKeeps(w, clock, g, command, None, now, live, id);
    } else {
      RefusedPush(w, g, command, None, now, live);
      R.DroppedKeeps(w.queue, now);
      assert KicksKnown(w.echo, now);
      hide R.Inv, EchoGood, Sent, Q.Accepts;
    }
  }

  /** The message `m` has left the lookups and is offered to the queue: taken, or answered. */
  lemma OfferedKeeps(w: World, clock: int, m: Message, now: int, live: bool, id: string)
    requires R.Inv(w.queue, clock) && R.Resting(w.queue) && Settling(w, id) && clock <= now
    requires EchoGood(w.echo, w.queue.log, w.acks, w.queue.opts.spacing) && KicksKnown(w.echo, clock)
    requires Count(w.received, MessageIs(id)) + Count(R.Entries(w.queue.log), HookIs(id))
             == Count(w.resolving, LookupIs(id)) + Count(w.queue.accepted, HookIs(id)) + Count(w.acks, DeliveryIs(id))
                + (if m.correlationId == id then 1 else 0)
    ensures var (w', accepted) := Sent(w, m.guildId, m.command, Some(m.correlationId), now, live);
            Inv(if accepted then w' else w'.(acks := w'.acks + [Refusal(w', m, now)]), now, id)
  {
    hide R.Inv, EchoGood, KicksKnown, Count, R.Entries, Q.Accepts, RequestFor;
    R.LaterKeeps(w.queue, clock, now);
    if w.guild != Some(m.guildId) {
      hide Settling;
      DeniedKeeps(w, Refusal(w, m, now), clock, now, id);
    } else if Q.Accepts(w.queue, RequestFor(w.joinWindowMs, m.guildId, m.command, Some(m.correlationId)).urgent) {
      hide Settling;
      SentKeeps(w, clock, m.guildId, m.command, Some(m.correlationId), now, live, id);
    } else {
      RefusedPush(w, m.guildId, m.command, Some(m.correlationId), now, live);
      R.DroppedKeeps(w.queue, now);
      var w' := w.(queue := w.queue.(dropped := w.queue.dropped + 1));
      assert Settling(w', id) && R.Resting(w'.queue);
      hide R.Resting, Settling, Sent;
      DeniedKeeps(w', Refusal(w', m, now), clock, now, id);
    }
  }

  lemma ResolvedKeeps(w: World, clock: int, i: nat, found: Option<Option<string>>, now: int, live: bool, id: string)
    requires Inv(w, clock, id) && clock <= now && i < |w.resolving|
    ensures Inv(Resolved(w, i, found, now, live), now, id)
  {
    var m, known := w.resolving[i].message, w.resolving[i].known;
    CountRemove(w.resolving, i, LookupIs(id));
    R.LaterKeeps(w.queue, clock, now);
    var w1 := w.(resolving := w.resolving[..i] + w.resolving[i + 1..]);
    var w2 := if known.None? && found.Some? then w1.(guild := found.value) else w1;
    assert Settling(w2, id) && LookupIs(id)(w.resolving[i]) == (m.correlationId == id);
    hide R.Inv, R.Resting, EchoGood, KicksKnown, Settling, Count, R.Entries, Sent;
    if known.None? && found.None? {
      DeniedKeeps(w1, Ack(m.guildId, m.correlationId, WRONG_GUILD, now), clock, now, id);
    } else {
      OfferedKeeps(w2, clock, m, now, live, id);
    }
  }

  lemma WokenKeeps(w: World, clock: int, now: int, live: bool, id: string)
    requires Inv(w, clock, id) && clock <= now && !w.queue.phase.Idle? && w.queue.phase.wakeAt <= now
    ensures Inv(Woken(w, now, live), now, id)
  {
    var q := Q.Woken(w.queue, now, live);
    R.ApplyKeeps(w.queue, clock, R.WakeStep(now, live));
    R.StepOptions(w.queue, R.WakeStep(now, live));
    Q.WakeExtendsLog(w.queue, now, live);
    hide R.Inv, R.Resting, EchoGood, KicksKnown, Settling, Count, R.Entries, Q.Woken, QueueMoved;
    QueueMovedKeeps(w, q, clock, now, id);
  }

  lemma RemovedSpread(ws: seq<E.Watch>, i: nat, spacing: nat, windowMs: int)
    requires Spread(ws, spacing, windowMs) && i < |ws|
    ensures Spread(ws[..i] + ws[i + 1..], spacing, windowMs)
  {
  }

  /** Settling a watch moves its id from the watched to the settled. */
  lemma SettledCounts(w: World, i: nat, a: Ack, id: string)
    requires i < |w.echo.watches| && a.correlationId == w.echo.watches[i].correlationId && IsSettled(a.outcome)
    requires Answering(w, id) && Settling(w, id)
    ensures var w' := w.(echo := E.Settled(w.echo, i), acks := w.acks + [a]); Answering(w', id) && Settling(w', id)
  {
    CountRemove(w.echo.watches, i, WatchIs(id));
    CountOne(w.acks, a, DeliveryIs(id));
    CountOne(w.acks, a, SettledIs(id));
    CountOne(w.acks, a, TypedIs(id));
    hide Count, R.Entries;
  }

  /** Settling a watch inside its window keeps the watcher in order. */
  lemma SettledInWindow(echo: E.State, log: seq<Q.Event>, acks: seq<Ack>, spacing: nat, i: nat, a: Ack)
    requires i < |echo.watches| && a.correlationId == echo.watches[i].correlationId
    requires 0 <= a.at - echo.watches[i].at < echo.windowMs
    requires EchoGood(echo, log, acks, spacing)
    ensures EchoGood(E.Settled(echo, i), log, acks + [a], spacing)
  {
    var x := echo.watches[i];
    var rest := echo.watches[..i] + echo.watches[i + 1..];
    assert x in echo.watches;
    GoodAcksAppend(acks, a, echo.windowMs);
    RemovedSpread(echo.watches, i, spacing, echo.windowMs);
    assert forall y :: y in rest ==> y in echo.watches;
    assert WatchesFrom(rest, log, acks);
    hide Spread, WatchesFrom, GoodAcks;
    WatchesFromMore(rest, log, [], acks, [a]);
    assert log + [] == log;
  }

  lemma ExpiryKeepsIds(w: World, now: int, id: string)
    requires Answering(w, id) && Settling(w, id)
    ensures var w' := w.(echo := E.Expired(w.echo, now)); Answering(w', id) && Settling(w', id)
  {
    CountFilter(w.echo.watches, E.Younger(now - w.echo.windowMs), WatchIs(id));
    hide Count, R.Entries;
  }

  /** What the answers and the watches say does not depend on the remembered kicks. */
  lemma SameWatches(w: World, echo: E.State, id: string)
    requires echo.watches == w.echo.watches && echo.windowMs == w.echo.windowMs
    requires Answering(w, id) && Settling(w, id) && EchoGood(w.echo, w.queue.log, w.acks, w.queue.opts.spacing)
    ensures var w' := w.(echo := echo);
            Answering(w', id) && Settling(w', id) && EchoGood(w'.echo, w'.queue.log, w'.acks, w'.queue.opts.spacing)
  {
  }

  lemma AnswerIsWatch(echo: E.State, line: E.Line)
    ensures var answer := E.Answer(echo, line);
            answer.Some? ==> answer.value.0 < |echo.watches| && answer.value.1.watch == echo.watches[answer.value.0]
  {
  }

  /** The line answers a watch. */
  lemma AnsweredKeeps(w: World, answer: (nat, E.Verdict), clock: int, now: int, id: string)
    requires R.Inv(w.queue, clock) && clock <= now
    requires Answering(w, id) && Settling(w, id) && EchoGood(w.echo, w.queue.log, w.acks, w.queue.opts.spacing)
    requires KicksKnown(w.echo, now)
    requires forall x :: x in w.echo.watches ==> x.at > now - w.echo.windowMs
    requires answer.0 < |w.echo.watches| && answer.1.watch == w.echo.watches[answer.0]
    ensures var x := answer.1.watch;
            var s2 := E.Settled(w.echo, answer.0);
            var echo := if answer.1.Confirmed? && x.intent.kind.KICK? then E.Kicked(s2, x.intent.target, now) else s2;
            var w' := w.(echo := echo, acks := w.acks + [VerdictAck(answer.1, now)]);
            && Answering(w', id) && Settling(w', id)
            && EchoGood(w'.echo, w'.queue.log, w'.acks, w'.queue.opts.spacing)
            && KicksKnown(w'.echo, now)
  {
    var x := answer.1.watch;
    assert x in w.echo.watches && SentAt(w.queue.log, x.at);
    assert x.at <= clock;
    var s2 := E.Settled(w.echo, answer.0);
    var echo := if answer.1.Confirmed? && x.intent.kind.KICK? then E.Kicked(s2, x.intent.target, now) else s2;
    assert KicksKnown(echo, now);
    hide R.Inv, EchoGood, KicksKnown, Answering, Settling;
    SettledCounts(w, answer.0, VerdictAck(answer.1, now), id);
    SettledInWindow(w.echo, w.queue.log, w.acks, w.queue.opts.spacing, answer.0, VerdictAck(answer.1, now));
    SameWatches(w.(echo := s2, acks := w.acks + [VerdictAck(answer.1, now)]), echo, id);
  }

  /** What a chat line does, in terms of the watch it answers. */
  lemma ChattedShape(w: World, line: E.Line, found: Option<Option<string>>, now: int)
    ensures var w1 := w.(echo := E.Expired(w.echo, now));
            var answer := E.Answer(w1.echo, line);
            var w' := Chatted(w, line, found, now);
            if answer.Some? then
              var x := answer.value.1.watch;
              var s2 := E.Settled(w1.echo, answer.value.0);
              w' == w1.(echo := if answer.value.1.Confirmed? && x.intent.kind.KICK?
                                then E.Kicked(s2, x.intent.target, now) else s2,
                        acks := w.acks + [VerdictAck(answer.value.1, now)])
            else
              && w' == w1.(echo := w'.echo, guild := w'.guild, mirrored := w'.mirrored)
              && w'.echo.watches == w1.echo.watches && w'.echo.windowMs == w1.echo.windowMs
              && (KicksKnown(w1.echo, now) ==> KicksKnown(w'.echo, now))
  {
    hide N.ParsePunitive, E.Answer, E.Expired, T.Lower;
  }

  lemma LaterKnowsKicks(echo: E.State, clock: int, now: int)
    requires KicksKnown(echo, clock) && clock <= now
    ensures KicksKnown(echo, now)
  {
  }

  lemma ChattedKeeps(w: World, clock: int, line: E.Line, found: Option<Option<string>>, now: int, id: string)
    requires Inv(w, clock, id) && clock <= now
    ensures Inv(Chatted(w, line, found, now), now, id)
  {
    hide R.Inv, R.Resting, EchoGood, KicksKnown, Count, E.Answer, E.Observed, E.Settled, E.Kicked, Chatted;
    R.LaterKeeps(w.queue, clock, now);
    ExpiryKeepsIds(w, now, id);
    ExpiryKeepsEcho(w.echo, now, w.queue.log, w.acks, w.queue.opts.spacing);
    LaterKnowsKicks(w.echo, clock, now);
    ExpiryKeepsKicks(w.echo, now, now);
    var w1 := w.(echo := E.Expired(w.echo, now));
    assert w1.echo.windowMs == w.echo.windowMs;
    hide E.Expired;
    var answer := E.Answer(w1.echo, line);
    AnswerIsWatch(w1.echo, line);
    ChattedShape(w, line, found, now);
    if answer.Some? {
      AnsweredKeeps(w1, answer.value, clock, now, id);
    } else {
      SameWatches(w1, Chatted(w, line, found, now).echo, id);
    }
  }

  lemma ApplyKeeps(w: World, clock: int, step: Step, id: string)
    requires Inv(w, clock, id) && Enabled(w, clock, step)
    ensures Inv(Apply(w, step), step.now, id)
  {
    R.LaterKeeps(w.queue, clock, step.now);
    assert KicksKnown(w.echo, step.now);
    hide Arrived, Resolved, Sent, Woken, Chatted, R.Inv, R.Resting, EchoGood, KicksKnown;
    match step
    case AttachSink(now) =>
    case BusMessage(m, now) => ArrivedKeeps(w, clock, m, now, id);
    case Resolution(i, found, now, live) => ResolvedKeeps(w, clock, i, found, now, live, id);
    case OtherLookup(_, now) =>
    case StaffCommand(g, c, now, live) => StaffKeeps(w, clock, g, c, now, live, id);
    case Timer(now, live) => WokenKeeps(w, clock, now, live, id);
    case ChatLine(line, found, now) => ChattedKeeps(w, clock, line, found, now, id);
  }

  lemma {:induction false} RunKeeps(w: World, clock: int, steps: seq<Step>, id: string)
    requires Inv(w, clock, id) && ValidRun(w, clock, steps)
    ensures Inv(Run(w, steps), ClockAfter(clock, steps), id)
    decreases |steps|
  {
    hide Inv, Enabled, Apply;
    if steps != [] {
      ApplyKeeps(w, clock, steps[0], id);
      RunKeeps(Apply(w, steps[0]), steps[0].now, steps[1..], id);
    }
  }
}
