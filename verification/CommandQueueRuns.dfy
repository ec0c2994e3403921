/** What every run of the paced queue keeps: conservation, order, pacing and age. */
module CommandQueueRuns {
  import opened Prelude
  import opened Q = CommandQueue

  /** A push or a timer, at time `now`, with the session live or not. */
  datatype Step = PushStep(request: Request, now: int, live: bool) | WakeStep(now: int, live: bool)

  /** Time never runs backwards, and a timer never fires early. It may fire late. */
  predicate Enabled(s: State, clock: int, step: Step) {
    clock <= step.now && (step.WakeStep? ==> !s.phase.Idle? && s.phase.wakeAt <= step.now)
  }

  function Apply(s: State, step: Step): State {
    match step
    case PushStep(r, now, live) => Pushed(s, r, now, live)
    case WakeStep(now, live) => Woken(s, now, live)
  }

  predicate ValidRun(s: State, clock: int, steps: seq<Step>)
    decreases |steps|
  {
    steps == [] || (Enabled(s, clock, steps[0]) && ValidRun(Apply(s, steps[0]), steps[0].now, steps[1..]))
  }

  function Run(s: State, steps: seq<Step>): State
    decreases |steps|
  {
    if steps == [] then s else Run(Apply(s, steps[0]), steps[1..])
  }

  function ClockAfter(clock: int, steps: seq<Step>): int {
    if steps == [] then clock else steps[|steps| - 1].now
  }

  // ----- the invariant

  function Entries(log: seq<Event>): (es: seq<Entry>)
    ensures |es| == |log|
    ensures forall i :: 0 <= i < |log| ==> es[i] == log[i].entry
  {
    seq(|log|, i requires 0 <= i < |log| => log[i].entry)
  }

  datatype Tally = Tally(sent: nat, expired: nat, evicted: nat)

  /** How many times each hook was called, by cause. */
  function CountHooks(log: seq<Event>): Tally {
    if log == [] then Tally(0, 0, 0)
    else
      var t := CountHooks(log[..|log| - 1]);
      match log[|log| - 1]
      case Sent(_, _) => t.(sent := t.sent + 1)
      case Aged(_, _) => t.(expired := t.expired + 1)
      case Displaced(_, _) => t.(evicted := t.evicted + 1)
  }

  /** Conservation: what was accepted is waiting or has had exactly one hook called. */
  ghost predicate Ledger(s: State) {
    && multiset(s.pending) + multiset(Entries(s.log)) == multiset(s.accepted)
    && (forall i :: 0 <= i < |s.accepted| ==> s.accepted[i].ticket == i)
    && CountHooks(s.log) == Tally(s.sent, s.expired, s.evicted)
    && |s.accepted| == s.sent + s.expired + s.evicted + |s.pending|
    && |s.pending| <= s.opts.maxBacklog
  }

  predicate LeftFromHead(ev: Event) {
    !ev.Displaced?
  }

  /** `e` was pushed after every command of its class that has left from the head. */
  predicate AfterItsClass(log: seq<Event>, e: Entry) {
    forall i :: 0 <= i < |log| && LeftFromHead(log[i]) && log[i].entry.urgent == e.urgent ==> log[i].entry.ticket < e.ticket
  }

  /** If `e` is urgent, no ordinary command was typed after it was pushed. */
  predicate NotOvertaken(log: seq<Event>, e: Entry) {
    e.urgent ==> forall i :: 0 <= i < |log| && log[i].Sent? && !log[i].entry.urgent ==> log[i].at <= e.at
  }

  /** `ev` may follow `log`: it keeps its class's order, the spacing and its own age limit. */
  predicate GoodEvent(log: seq<Event>, ev: Event, spacing: nat) {
    && ev.entry.at <= ev.at
    && NotOvertaken(log, ev.entry)
    && (LeftFromHead(ev) ==> AfterItsClass(log, ev.entry))
    && match ev
       case Sent(e, t) => t - e.at < e.maxAge && forall i :: 0 <= i < |log| && log[i].Sent? ==> t - log[i].at >= spacing
       case Aged(e, t) => t - e.at >= e.maxAge
       case Displaced(e, _) => !e.urgent
  }

  predicate GoodLog(log: seq<Event>, spacing: nat) {
    log == [] || (GoodLog(log[..|log| - 1], spacing) && GoodEvent(log[..|log| - 1], log[|log| - 1], spacing))
  }

  /** Who is typed first: urgent before ordinary, and by ticket within a class. */
  predicate Precedes(a: Entry, b: Entry) {
    if a.urgent == b.urgent then a.ticket < b.ticket else a.urgent
  }

  predicate WaitOrder(p: seq<Entry>) {
    forall i, j :: 0 <= i < j < |p| ==> Precedes(p[i], p[j])
  }

  predicate GoodWaiting(s: State, e: Entry, clock: int) {
    e.at <= clock && e.ticket < |s.accepted| && AfterItsClass(s.log, e) && NotOvertaken(s.log, e)
  }

  predicate EveryWaiting(s: State, clock: int) {
    forall e :: e in s.pending ==> GoodWaiting(s, e, clock)
  }

  predicate Past(s: State, clock: int) {
    && s.lastSentAt <= clock
    && (forall i :: 0 <= i < |s.log| ==> s.log[i].at <= clock && s.log[i].entry.ticket < |s.accepted|)
    && (forall i :: 0 <= i < |s.log| && s.log[i].Sent? ==> s.log[i].at <= s.lastSentAt)
  }

  ghost predicate Inv(s: State, clock: int) {
    && Ledger(s)
    && WaitOrder(s.pending)
    && GoodLog(s.log, s.opts.spacing)
    && EveryWaiting(s, clock)
    && Past(s, clock)
  }

  /** The loop runs exactly while something waits, and its pacing sleep is long enough. */
  predicate Resting(s: State) {
    && (s.phase.Idle? <==> s.pending == [])
    && (s.phase.Pacing? ==> s.phase.wakeAt == s.lastSentAt + s.opts.spacing)
    && (s.phase.Holding? ==> s.phase.wakeAt >= s.lastSentAt + s.opts.spacing)
  }

  // ----- each edit keeps the invariant

  lemma EntriesAppend(log: seq<Event>, ev: Event)
    ensures Entries(log + [ev]) == Entries(log) + [ev.entry]
    ensures CountHooks(log + [ev]) ==
            var t := CountHooks(log);
            match ev
            case Sent(_, _) => t.(sent := t.sent + 1)
            case Aged(_, _) => t.(expired := t.expired + 1)
            case Displaced(_, _) => t.(evicted := t.evicted + 1)
  {
  }

  lemma GoodLogAppend(log: seq<Event>, ev: Event, spacing: nat)
    requires GoodLog(log, spacing) && GoodEvent(log, ev, spacing)
    ensures GoodLog(log + [ev], spacing)
  {
  }

  lemma WaitOrderRemove(p: seq<Entry>, i: int)
    requires WaitOrder(p) && 0 <= i < |p|
    ensures WaitOrder(p[..i] + p[i + 1..])
    ensures multiset(p) == multiset(p[..i] + p[i + 1..]) + multiset{p[i]}
    ensures forall e :: e in p[..i] + p[i + 1..] ==> e in p
  {
    assert p == p[..i] + [p[i]] + p[i + 1..];
  }

  lemma WaitOrderBetween(a: seq<Entry>, e: Entry, b: seq<Entry>)
    requires WaitOrder(a + b)
    requires forall x :: x in a ==> Precedes(x, e)
    requires forall x :: x in b ==> Precedes(e, x)
    ensures WaitOrder(a + [e] + b)
  {
    var q := a + [e] + b;
    forall i, j | 0 <= i < j < |q| ensures Precedes(q[i], q[j]) {
      if i != |a| && j != |a| {
        var i', j' := if i < |a| then i else i - 1, if j < |a| then j else j - 1;
        assert (a + b)[i'] == q[i] && (a + b)[j'] == q[j];
      }
    }
  }

  lemma WaitOrderInsert(p: seq<Entry>, e: Entry)
    requires WaitOrder(p) && forall x :: x in p ==> x.ticket < e.ticket
    ensures WaitOrder(Insert(p, e))
    ensures multiset(Insert(p, e)) == multiset(p) + multiset{e}
    ensures forall x :: x in Insert(p, e) ==> x in p || x == e
  {
    var k := if e.urgent then UrgentPrefix(p) else |p|;
    var a, b := p[..k], p[k..];
    assert p == a + b && Insert(p, e) == a + [e] + b;
    PlaceOrder(p, e);
    hide WaitOrder, UrgentPrefix, Precedes, Insert;
    WaitOrderBetween(a, e, b);
  }

  /** A new entry comes after what it is put behind, and before what it is put in front of. */
  lemma PlaceOrder(p: seq<Entry>, e: Entry)
    requires WaitOrder(p) && forall x :: x in p ==> x.ticket < e.ticket
    ensures var k := if e.urgent then UrgentPrefix(p) else |p|;
            (forall x :: x in p[..k] ==> Precedes(x, e)) && (forall x :: x in p[k..] ==> Precedes(e, x))
  {
    var k := if e.urgent then UrgentPrefix(p) else |p|;
    forall x | x in p[k..] ensures Precedes(e, x) {
      assert x == p[k] || Precedes(p[k], x);
    }
  }

  /** One more event in the log leaves a waiting entry good, if the event does not pass it. */
  lemma WaitingAfter(s: State, s': State, ev: Event, e: Entry, clock: int, now: int)
    requires GoodWaiting(s, e, clock) && clock <= now && s'.log == s.log + [ev] && s'.accepted == s.accepted
    requires LeftFromHead(ev) && ev.entry.urgent == e.urgent ==> ev.entry.ticket < e.ticket
    requires ev.Sent? && !ev.entry.urgent ==> !e.urgent
    ensures GoodWaiting(s', e, now)
  {
  }

  lemma EvictKeeps(s: State, now: int, clock: int)
    requires Inv(s, clock) && clock <= now && LastOrdinary(s.pending) >= 0
    ensures Inv(Evict(s, LastOrdinary(s.pending), now), now)
  {
    hide WaitOrder, GoodLog, AfterItsClass, NotOvertaken, LastOrdinary, CountHooks, Entries;
    var i := LastOrdinary(s.pending);
    var s' := Evict(s, i, now);
    var ev := Displaced(s.pending[i], now);
    assert GoodWaiting(s, s.pending[i], clock);
    EntriesAppend(s.log, ev);
    WaitOrderRemove(s.pending, i);
    GoodLogAppend(s.log, ev, s.opts.spacing);
    forall e | e in s'.pending ensures GoodWaiting(s', e, now) {
      WaitingAfter(s, s', ev, e, clock, now);
    }
  }

  lemma AdmitKeeps(s: State, e: Entry, now: int)
    requires Inv(s, now) && |s.pending| < s.opts.maxBacklog
    requires e.ticket == |s.accepted| && e.at == now
    ensures Inv(Admit(s, e), now)
  {
    hide WaitOrder, GoodLog, CountHooks, Insert;
    assert forall x :: x in s.pending ==> GoodWaiting(s, x, now);
    WaitOrderInsert(s.pending, e);
    var s' := Admit(s, e);
    assert |multiset(s'.pending)| == |s'.pending|;
    forall x | x in s'.pending ensures GoodWaiting(s', x, now) {
      if x in s.pending {
        assert GoodWaiting(s, x, now);
      }
    }
  }

  /** The head leaves. */
  lemma HeadLeaves(s: State, s': State, ev: Event, now: int)
    requires Inv(s, now) && s.pending != [] && ev.entry == s.pending[0] && LeftFromHead(ev)
    requires GoodEvent(s.log, ev, s.opts.spacing)
    requires s'.pending == s.pending[1..] && s'.log == s.log + [ev] && s'.accepted == s.accepted && s'.opts == s.opts
    ensures WaitOrder(s'.pending) && GoodLog(s'.log, s'.opts.spacing) && EveryWaiting(s', now)
    ensures multiset(s'.pending) + multiset(Entries(s'.log)) == multiset(s.accepted)
  {
    hide GoodLog, CountHooks;
    EntriesAppend(s.log, ev);
    GoodLogAppend(s.log, ev, s.opts.spacing);
    assert s.pending == [s.pending[0]] + s.pending[1..];
    forall e | e in s'.pending ensures GoodWaiting(s', e, now) {
      assert e in s.pending && GoodWaiting(s, e, now);
      WaitingAfter(s, s', ev, e, now, now);
    }
  }

  lemma AgeOutKeeps(s: State, now: int)
    requires Inv(s, now) && s.pending != [] && now - s.pending[0].at >= s.pending[0].maxAge
    ensures Inv(AgeOut(s, now), now)
  {
    var ev := Aged(s.pending[0], now);
    assert GoodWaiting(s, s.pending[0], now);
    EntriesAppend(s.log, ev);
    HeadLeaves(s, AgeOut(s, now), ev, now);
  }

  lemma DeliverKeeps(s: State, now: int)
    requires Inv(s, now) && s.pending != [] && now - s.pending[0].at < s.pending[0].maxAge
    requires now - s.lastSentAt >= s.opts.spacing
    ensures Inv(Deliver(s, now), now)
  {
    var ev := Sent(s.pending[0], now);
    assert GoodWaiting(s, s.pending[0], now);
    EntriesAppend(s.log, ev);
    HeadLeaves(s, Deliver(s, now), ev, now);
  }

  lemma {:induction false} DrainKeeps(s: State, now: int, live: bool)
    requires Inv(s, now)
    ensures Inv(DrainFrom(s, now, live), now) && Resting(DrainFrom(s, now, live))
    decreases |s.pending|, 1
  {
    if s.pending != [] && now - s.lastSentAt >= s.opts.spacing {
      AttemptKeeps(s, now, live);
    }
  }

  lemma PhaseKeeps(s: State, phase: Phase, now: int)
    requires Inv(s, now)
    ensures Inv(s.(phase := phase), now)
  {
  }

  lemma {:induction false} AttemptKeeps(s: State, now: int, live: bool)
    requires Inv(s, now) && now - s.lastSentAt >= s.opts.spacing
    ensures Inv(Attempt(s, now, live), now) && Resting(Attempt(s, now, live))
    decreases |s.pending|, 0
  {
    hide Inv;
    if s.pending == [] {
      PhaseKeeps(s, Idle, now);
    } else if now - s.pending[0].at >= s.pending[0].maxAge {
      AgeOutKeeps(s, now);
      DrainKeeps(AgeOut(s, now), now, live);
    } else if live {
      DeliverKeeps(s, now);
      DrainKeeps(Deliver(s, now), now, live);
    } else {
      PhaseKeeps(s, Holding(now + s.opts.spacing), now);
    }
  }

  /** Letting time pass keeps the invariant. */
  lemma LaterKeeps(s: State, clock: int, now: int)
    requires Inv(s, clock) && clock <= now
    ensures Inv(s, now)
  {
  }

  lemma RoomAfterEviction(s: State, now: int)
    requires |s.pending| <= s.opts.maxBacklog
    ensures LastOrdinary(s.pending) >= 0 <==> exists i :: 0 <= i < |s.pending| && !s.pending[i].urgent
    ensures Accepts(s, true) ==> |MakeRoom(s, now).pending| < s.opts.maxBacklog
    ensures var s1 := MakeRoom(s, now); s1.phase == s.phase && s1.lastSentAt == s.lastSentAt && s1.opts == s.opts
    ensures Accepts(s, false) ==> MakeRoom(s, now) == s
  {
  }

  lemma BacklogFits(s: State, clock: int)
    requires Inv(s, clock)
    ensures |s.pending| <= s.opts.maxBacklog
  {
  }

  lemma PushKeeps(s: State, clock: int, r: Request, now: int, live: bool)
    requires Inv(s, clock) && Resting(s) && clock <= now
    ensures Inv(Pushed(s, r, now, live), now) && Resting(Pushed(s, r, now, live))
  {
    hide Inv, MakeRoom, DrainFrom;
    LaterKeeps(s, clock, now);
    BacklogFits(s, clock);
    RoomAfterEviction(s, now);
    if Accepts(s, r.urgent) {
      RoomKeeps(s, clock, now);
      var s1 := MakeRoom(s, now);
      var e := NewEntry(s1, r, now);
      assert |s1.pending| < s1.opts.maxBacklog;
      AdmitKeeps(s1, e, now);
      if s.phase.Idle? {
        DrainKeeps(Admit(s1, e), now, live);
      } else {
        assert |Insert(s1.pending, e)| > 0;
      }
    } else {
      DroppedKeeps(s, now);
    }
  }

  lemma RoomKeeps(s: State, clock: int, now: int)
    requires Inv(s, clock) && clock <= now
    ensures Inv(MakeRoom(s, now), now)
  {
    LaterKeeps(s, clock, now);
    if MakeRoom(s, now) != s {
      EvictKeeps(s, now, clock);
    }
  }

  lemma DroppedKeeps(s: State, now: int)
    requires Inv(s, now)
    ensures Inv(s.(dropped := s.dropped + 1), now)
  {
  }

  lemma ApplyKeeps(s: State, clock: int, step: Step)
    requires Inv(s, clock) && Resting(s) && Enabled(s, clock, step)
    ensures Inv(Apply(s, step), step.now) && Resting(Apply(s, step))
  {
    hide Inv, Pushed;
    match step
    case PushStep(r, now, live) =>
      PushKeeps(s, clock, r, now, live);
    case WakeStep(now, live) =>
      LaterKeeps(s, clock, now);
      if s.phase.Pacing? {
        AttemptKeeps(s, now, live);
      } else {
        DrainKeeps(s, now, live);
      }
  }

  lemma {:induction false} RunKeeps(s: State, clock: int, steps: seq<Step>)
    requires Inv(s, clock) && Resting(s) && ValidRun(s, clock, steps)
    ensures Inv(Run(s, steps), ClockAfter(clock, steps)) && Resting(Run(s, steps))
    decreases |steps|
  {
    hide Inv, Apply, Enabled, Resting;
    if steps != [] {
      ApplyKeeps(s, clock, steps[0]);
      RunKeeps(Apply(s, steps[0]), steps[0].now, steps[1..]);
    }
  }

  // ----- the theorems, over every run from the empty queue

  ghost predicate Reached(opts: Options, steps: seq<Step>, s: State) {
    ValidRun(Initial(opts), 0, steps) && s == Run(Initial(opts), steps)
  }

  lemma ReachedInv(opts: Options, steps: seq<Step>, s: State)
    requires Reached(opts, steps, s)
    ensures Inv(s, ClockAfter(0, steps)) && Resting(s)
    ensures s.opts == opts
  {
    RunKeeps(Initial(opts), 0, steps);
    OptionsFixed(Initial(opts), steps);
  }

  lemma {:induction false} DrainOptions(s: State, now: int, live: bool)
    ensures DrainFrom(s, now, live).opts == s.opts && Attempt(s, now, live).opts == s.opts
    decreases |s.pending|
  {
    if s.pending != [] {
      DrainOptions(AgeOut(s, now), now, live);
      DrainOptions(Deliver(s, now), now, live);
    }
  }

  lemma StepOptions(s: State, step: Step)
    ensures Apply(s, step).opts == s.opts
  {
    match step
    case PushStep(r, now, live) =>
      var s1 := MakeRoom(s, now);
      DrainOptions(Admit(s1, NewEntry(s1, r, now)), now, live);
    case WakeStep(now, live) =>
      DrainOptions(s, now, live);
  }

  lemma {:induction false} OptionsFixed(s: State, steps: seq<Step>)
    ensures Run(s, steps).opts == s.opts
    decreases |steps|
  {
    if steps != [] {
      StepOptions(s, steps[0]);
      OptionsFixed(Apply(s, steps[0]), steps[1..]);
    }
  }

  /** How often `e` occurs among the hook calls. */
  ghost function HookCalls(s: State, e: Entry): nat {
    multiset(Entries(s.log))[e]
  }

  /** Every accepted command has had no hook called while it waits and exactly one after it left;
      the counters add up and the bound holds. */
  lemma EveryCommandAccountedFor(opts: Options, steps: seq<Step>, s: State)
    requires Reached(opts, steps, s)
    ensures forall e :: e in s.accepted ==> HookCalls(s, e) == if e in s.pending then 0 else 1
    ensures forall e :: e in s.pending ==> e in s.accepted
    ensures forall i :: 0 <= i < |s.log| ==> s.log[i].entry in s.accepted
    ensures |s.accepted| == s.sent + s.expired + s.evicted + |s.pending|
    ensures CountHooks(s.log) == Tally(s.sent, s.expired, s.evicted)
    ensures |s.pending| <= opts.maxBacklog
  {
    ReachedInv(opts, steps, s);
    forall e | e in s.accepted
      ensures HookCalls(s, e) == if e in s.pending then 0 else 1
    {
      AcceptedOnce(s.accepted, e);
      assert multiset(s.pending)[e] + multiset(Entries(s.log))[e] == 1;
      assert e in s.pending <==> multiset(s.pending)[e] > 0;
    }
    forall e | e in s.pending
      ensures e in s.accepted
    {
      assert e in multiset(s.pending) + multiset(Entries(s.log));
    }
    forall i | 0 <= i < |s.log|
      ensures s.log[i].entry in s.accepted
    {
      assert Entries(s.log)[i] in multiset(Entries(s.log));
      assert s.log[i].entry in multiset(s.accepted);
    }
  }

  lemma {:induction false} AcceptedOnce(accepted: seq<Entry>, e: Entry)
    requires forall i :: 0 <= i < |accepted| ==> accepted[i].ticket == i
    requires e in accepted
    ensures multiset(accepted)[e] == 1
  {
    var k := e.ticket;
    assert accepted == accepted[..k] + [e] + accepted[k + 1..];
    assert e !in accepted[..k] && e !in accepted[k + 1..];
  }

  /** What the log records about its i-th event, for every earlier event. */
  lemma {:induction false} GoodLogAt(log: seq<Event>, spacing: nat, i: nat)
    requires GoodLog(log, spacing) && i < |log|
    ensures GoodEvent(log[..i], log[i], spacing)
  {
    if i < |log| - 1 {
      GoodLogAt(log[..|log| - 1], spacing, i);
      assert log[..|log| - 1][..i] == log[..i];
    }
  }

  /** The backlog is an urgent block then an ordinary block, each in push order. */
  lemma BacklogOrder(opts: Options, steps: seq<Step>, s: State)
    requires Reached(opts, steps, s)
    ensures forall i :: 0 <= i < |s.pending| ==> (s.pending[i].urgent <==> i < UrgentPrefix(s.pending))
    ensures forall i, j :: 0 <= i < j < |s.pending| && s.pending[i].urgent == s.pending[j].urgent
              ==> s.pending[i].ticket < s.pending[j].ticket
  {
    ReachedInv(opts, steps, s);
    assert WaitOrder(s.pending);
    var k := UrgentPrefix(s.pending);
    assert forall i :: k < i < |s.pending| ==> Precedes(s.pending[k], s.pending[i]);
    assert forall i, j :: 0 <= i < j < |s.pending| ==> Precedes(s.pending[i], s.pending[j]);
  }

  /** Each class leaves the head in push order, typed or aged out, and no urgent command is ever displaced. */
  lemma ClassesTypedInOrder(opts: Options, steps: seq<Step>, s: State)
    requires Reached(opts, steps, s)
    ensures forall i, j ::
              0 <= i < j < |s.log| && LeftFromHead(s.log[i]) && LeftFromHead(s.log[j]) &&
              s.log[i].entry.urgent == s.log[j].entry.urgent
              ==> s.log[i].entry.ticket < s.log[j].entry.ticket
    ensures forall i :: 0 <= i < |s.log| && s.log[i].Displaced? ==> !s.log[i].entry.urgent
  {
    ReachedInv(opts, steps, s);
    forall j | 0 <= j < |s.log|
      ensures GoodEvent(s.log[..j], s.log[j], opts.spacing)
    {
      GoodLogAt(s.log, opts.spacing, j);
    }
    forall i, j | 0 <= i < j < |s.log| && LeftFromHead(s.log[i]) && LeftFromHead(s.log[j])
      && s.log[i].entry.urgent == s.log[j].entry.urgent
      ensures s.log[i].entry.ticket < s.log[j].entry.ticket
    {
      assert s.log[..j][i] == s.log[i];
    }
  }

  lemma LaterUrgentPushedLater(log: seq<Event>, spacing: nat, i: nat, j: nat)
    requires GoodLog(log, spacing) && i < |log| && j < |log|
    requires log[i].Sent? && !log[i].entry.urgent && log[j].entry.urgent
    ensures log[j].entry.at < log[i].at ==> j < i
  {
  }

  /** When an ordinary command is typed, no urgent one pushed before that moment is still waiting. */
  lemma OrdinaryNeverOvertakes(opts: Options, steps: seq<Step>, s: State, i: nat, u: Entry)
    requires Reached(opts, steps, s)
    requires i < |s.log| && s.log[i].Sent? && !s.log[i].entry.urgent
    requires u in s.accepted && u.urgent && u.at < s.log[i].at
    ensures u in Entries(s.log[..i])
  {
    ReachedInv(opts, steps, s);
    assert u in multiset(s.pending) + multiset(Entries(s.log));
    assert forall e :: e in s.pending ==> GoodWaiting(s, e, ClockAfter(0, steps));
    assert u !in s.pending;
    assert u in Entries(s.log);
    var j :| 0 <= j < |s.log| && s.log[j].entry == u;
    LaterUrgentPushedLater(s.log, opts.spacing, i, j);
    assert Entries(s.log[..i])[j] == u;
  }

  /** Any two typed commands are at least the spacing apart, and each is younger than its own limit;
      whatever is discarded by age has reached it. */
  lemma PacedAndFresh(opts: Options, steps: seq<Step>, s: State)
    requires Reached(opts, steps, s)
    ensures forall i, j :: 0 <= i < j < |s.log| && s.log[i].Sent? && s.log[j].Sent?
              ==> s.log[j].at - s.log[i].at >= opts.spacing
    ensures forall i :: 0 <= i < |s.log| && s.log[i].Sent?
              ==> 0 <= s.log[i].at - s.log[i].entry.at < s.log[i].entry.maxAge
    ensures forall i :: 0 <= i < |s.log| && s.log[i].Aged?
              ==> s.log[i].at - s.log[i].entry.at >= s.log[i].entry.maxAge
  {
    ReachedInv(opts, steps, s);
    forall j | 0 <= j < |s.log|
      ensures GoodEvent(s.log[..j], s.log[j], opts.spacing)
    {
      GoodLogAt(s.log, opts.spacing, j);
    }
    forall i, j | 0 <= i < j < |s.log| && s.log[i].Sent? && s.log[j].Sent?
      ensures s.log[j].at - s.log[i].at >= opts.spacing
    {
      assert s.log[..j][i] == s.log[i];
    }
  }

  /** A push is refused exactly when the backlog is full and the command is ordinary or every waiting one is
      urgent; an accepted push costs at most one waiting command, and that one is the newest ordinary one. */
  lemma PushOutcome(opts: Options, steps: seq<Step>, s: State, r: Request, now: int)
    requires Reached(opts, steps, s)
    ensures !Accepts(s, r.urgent) <==>
              |s.pending| == opts.maxBacklog && (!r.urgent || forall i :: 0 <= i < |s.pending| ==> s.pending[i].urgent)
    ensures Accepts(s, r.urgent) ==>
              var room := MakeRoom(s, now);
              (|s.pending| < opts.maxBacklog ==> room == s) &&
              (|s.pending| == opts.maxBacklog ==>
                 |room.log| == |s.log| + 1 && room.log[|s.log|].Displaced? &&
                 var v := room.log[|s.log|].entry;
                 v in s.pending && !v.urgent && room.pending == s.pending[..|s.pending| - 1] &&
                 forall e :: e in s.pending && !e.urgent ==> e.ticket <= v.ticket)
  {
    ReachedInv(opts, steps, s);
    var i := LastOrdinary(s.pending);
    if i >= 0 {
      assert i == |s.pending| - 1;
      assert s.pending[..i] + s.pending[i + 1..] == s.pending[..|s.pending| - 1];
    }
  }
}
