/** The paced two-level queue of guild commands (apps/bridge-bot/src/command-queue.ts).
    An atomic step is the code between two awaits. A step reads the clock once, and the session is
    either live or not for the whole step. */
module CommandQueue {
  import opened Prelude

  /** `hooks` is the correlation id the caller wants answered on, or None when it attached no hook. */
  datatype Request = Request(command: string, guildId: string, urgent: bool, maxAge: Option<int>, hooks: Option<string>)

  /** A waiting command. `ticket` numbers accepted commands in push order. */
  datatype Entry = Entry(ticket: nat, command: string, guildId: string, at: int, urgent: bool, maxAge: int, hooks: Option<string>)

  /** One hook call. `Sent` is `onSent`; `Aged` and `Displaced` are the two ways to `onExpired`. */
  datatype Event =
    | Sent(entry: Entry, at: int)
    | Aged(entry: Entry, at: int)
    | Displaced(entry: Entry, at: int)

  datatype Options = Options(spacing: nat, maxBacklog: nat, maxAge: int)

  /** Where the drain loop is suspended: not running, in its pacing sleep, or holding for a session. */
  datatype Phase = Idle | Pacing(wakeAt: int) | Holding(wakeAt: int)

  /** `accepted` and `log` are history: what was taken in, and the hook calls made. */
  datatype State = State(
    opts: Options,
    pending: seq<Entry>,
    phase: Phase,
    lastSentAt: int,
    sent: nat,
    dropped: nat,
    expired: nat,
    evicted: nat,
    accepted: seq<Entry>,
    log: seq<Event>)

  function Initial(opts: Options): State {
    State(opts, [], Idle, 0, 0, 0, 0, 0, [], [])
  }

  // ----- single edits of the backlog

  /** How many urgent entries stand at the front. */
  function UrgentPrefix(p: seq<Entry>): (k: nat)
    ensures k <= |p|
    ensures forall i :: 0 <= i < k ==> p[i].urgent
    ensures k < |p| ==> !p[k].urgent
  {
    if p == [] || !p[0].urgent then 0 else 1 + UrgentPrefix(p[1..])
  }

  /** Position of the last ordinary entry, or -1. */
  function LastOrdinary(p: seq<Entry>): (i: int)
    ensures -1 <= i < |p|
    ensures 0 <= i ==> !p[i].urgent
    ensures forall j :: i < j < |p| ==> p[j].urgent
  {
    if p == [] then -1
    else if !p[|p| - 1].urgent then |p| - 1
    else LastOrdinary(p[..|p| - 1])
  }

  function Insert(p: seq<Entry>, e: Entry): seq<Entry> {
    if e.urgent then p[..UrgentPrefix(p)] + [e] + p[UrgentPrefix(p)..] else p + [e]
  }

  function Evict(s: State, i: int, now: int): State
    requires 0 <= i < |s.pending|
  {
    s.(pending := s.pending[..i] + s.pending[i + 1..],
       evicted := s.evicted + 1,
       log := s.log + [Displaced(s.pending[i], now)])
  }

  function NewEntry(s: State, r: Request, now: int): Entry {
    Entry(|s.accepted|, r.command, r.guildId, now, r.urgent,
          if r.maxAge.Some? then r.maxAge.value else s.opts.maxAge, r.hooks)
  }

  function Admit(s: State, e: Entry): State {
    s.(pending := Insert(s.pending, e), accepted := s.accepted + [e])
  }

  function AgeOut(s: State, now: int): State
    requires s.pending != []
  {
    s.(pending := s.pending[1..], expired := s.expired + 1, log := s.log + [Aged(s.pending[0], now)])
  }

  function Deliver(s: State, now: int): State
    requires s.pending != []
  {
    s.(pending := s.pending[1..], lastSentAt := now, sent := s.sent + 1, log := s.log + [Sent(s.pending[0], now)])
  }

  // ----- the drain loop up to its next sleep

  /** From the loop head: pace, then attempt. */
  function DrainFrom(s: State, now: int, live: bool): State
    decreases |s.pending|, 1
  {
    if s.pending == [] then s.(phase := Idle)
    else if now - s.lastSentAt < s.opts.spacing then s.(phase := Pacing(s.lastSentAt + s.opts.spacing))
    else Attempt(s, now, live)
  }

  /** From just after the pacing sleep: age check, deliver or hold. */
  function Attempt(s: State, now: int, live: bool): State
    decreases |s.pending|, 0
  {
    if s.pending == [] then s.(phase := Idle)
    else if now - s.pending[0].at >= s.pending[0].maxAge then DrainFrom(AgeOut(s, now), now, live)
    else if !live then s.(phase := Holding(now + s.opts.spacing))
    else DrainFrom(Deliver(s, now), now, live)
  }

  // ----- the two entry points

  predicate Accepts(s: State, urgent: bool) {
    |s.pending| < s.opts.maxBacklog || (urgent && exists i :: 0 <= i < |s.pending| && !s.pending[i].urgent)
  }

  /** Room is made by displacing the newest ordinary entry, and only for an urgent request. */
  function MakeRoom(s: State, now: int): State {
    if |s.pending| >= s.opts.maxBacklog && LastOrdinary(s.pending) >= 0
    then Evict(s, LastOrdinary(s.pending), now) else s
  }

  function Pushed(s: State, r: Request, now: int, live: bool): State {
    if !Accepts(s, r.urgent) then s.(dropped := s.dropped + 1)
    else
      var s1 := MakeRoom(s, now);
      var s2 := Admit(s1, NewEntry(s1, r, now));
      if s2.phase.Idle? then DrainFrom(s2, now, live) else s2
  }

  /** The timer behind `sleep` fires. */
  function Woken(s: State, now: int, live: bool): State {
    match s.phase
    case Idle => s
    case Pacing(_) => Attempt(s, now, live)
    case Holding(_) => DrainFrom(s, now, live)
  }

  lemma {:induction false} DrainExtendsLog(s: State, now: int, live: bool)
    ensures s.log <= DrainFrom(s, now, live).log && s.log <= Attempt(s, now, live).log
    ensures DrainFrom(s, now, live).accepted == Attempt(s, now, live).accepted == s.accepted
    decreases |s.pending|
  {
    if s.pending != [] {
      DrainExtendsLog(AgeOut(s, now), now, live);
      DrainExtendsLog(Deliver(s, now), now, live);
    }
  }

  /** A push adds at most its own entry to what was accepted, and only adds hook calls. */
  lemma PushExtendsLog(s: State, r: Request, now: int, live: bool)
    ensures s.log <= Pushed(s, r, now, live).log
    ensures Pushed(s, r, now, live).accepted ==
            if Accepts(s, r.urgent) then s.accepted + [NewEntry(s, r, now)] else s.accepted
  {
    var s1 := MakeRoom(s, now);
    DrainExtendsLog(Admit(s1, NewEntry(s1, r, now)), now, live);
  }

  lemma WakeExtendsLog(s: State, now: int, live: bool)
    ensures s.log <= Woken(s, now, live).log
    ensures Woken(s, now, live).accepted == s.accepted
  {
    DrainExtendsLog(s, now, live);
  }

  lemma LastOrdinaryBelow(p: seq<Entry>, i: nat)
    requires i < |p|
    ensures LastOrdinary(p[..i + 1]) == if p[i].urgent then LastOrdinary(p[..i]) else i
  {
    assert p[..i + 1][..i] == p[..i];
  }

  /** The object itself. The sleeping continuation of `drain` is kept as `phase`. */
  class CommandQueue {
    const opts: Options
    var pending: seq<Entry>
    var phase: Phase
    var lastSentAt: int
    var sent: nat
    var dropped: nat
    var expired: nat
    var evicted: nat
    /** The hook calls made so far, in order. */
    var log: seq<Event>
    ghost var accepted: seq<Entry>
    var tickets: nat

    ghost predicate Valid()
      reads this
    {
      tickets == |accepted|
    }

    ghost function View(): State
      reads this
    {
      State(opts, pending, phase, lastSentAt, sent, dropped, expired, evicted, accepted, log)
    }

    constructor (opts: Options)
      ensures Valid() && View() == Initial(opts) && this.opts == opts
    {
      this.opts := opts;
      pending, phase, lastSentAt, log := [], Idle, 0, [];
      sent, dropped, expired, evicted := 0, 0, 0, 0;
      accepted, tickets := [], 0;
    }

    method Push(r: Request, now: int, live: bool) returns (taken: bool)
      requires Valid()
      modifies this
      ensures Valid()
      ensures taken == old(Accepts(View(), r.urgent))
      ensures View() == Pushed(old(View()), r, now, live)
    {
      hide DrainFrom, Attempt, Insert, LastOrdinary;
      var entry := Entry(tickets, r.command, r.guildId, now, r.urgent,
                         if r.maxAge.Some? then r.maxAge.value else opts.maxAge, r.hooks);
      if |pending| >= opts.maxBacklog {
        if !r.urgent {
          dropped := dropped + 1;
          return false;
        }
        var displaced := DisplaceOrdinary(now);
        if !displaced {
          dropped := dropped + 1;
          return false;
        }
      }
      ghost var roomy := View();
      assert roomy == MakeRoom(old(View()), now);
      Place(entry);
      accepted, tickets := accepted + [entry], tickets + 1;
      assert View() == Admit(roomy, NewEntry(roomy, r, now));
      if phase.Idle? {
        Drain(now, live, false);
      }
      return true;
    }

    /** An urgent command goes behind the urgent block, an ordinary one to the end. */
    method Place(entry: Entry)
      modifies `pending
      ensures pending == Insert(old(pending), entry)
    {
      if entry.urgent {
        var at := 0;
        while at < |pending| && pending[at].urgent
          invariant 0 <= at <= |pending|
          invariant UrgentPrefix(pending) == at + UrgentPrefix(pending[at..])
        {
          assert pending[at..][1..] == pending[at + 1..];
          at := at + 1;
        }
        assert UrgentPrefix(pending[at..]) == 0;
        pending := pending[..at] + [entry] + pending[at..];
      } else {
        pending := pending + [entry];
      }
    }

    /** Drop the newest ordinary command to make room. False when there is none. */
    method DisplaceOrdinary(now: int) returns (displaced: bool)
      requires Valid()
      modifies `pending, `evicted, `log
      ensures Valid()
      ensures displaced == (old(LastOrdinary(pending)) >= 0)
      ensures View() == if displaced then Evict(old(View()), old(LastOrdinary(pending)), now) else old(View())
    {
      hide LastOrdinary;
      var i := |pending| - 1;
      assert pending[..i + 1] == pending;
      while i >= 0
        invariant -1 <= i < |pending|
        invariant LastOrdinary(pending) == LastOrdinary(pending[..i + 1])
        invariant View() == old(View())
      {
        var victim := pending[i];
        if !victim.urgent {
          LastOrdinaryBelow(pending, i);
          pending := pending[..i] + pending[i + 1..];
          evicted := evicted + 1;
          log := log + [Displaced(victim, now)];
          return true;
        }
        LastOrdinaryBelow(pending, i);
        i := i - 1;
      }
      return false;
    }

    /** The drain loop up to its next sleep. `paced` is true when it resumes from the pacing sleep. */
    method Drain(now: int, live: bool, paced: bool)
      requires Valid()
      modifies `pending, `phase, `lastSentAt, `sent, `expired, `log
      ensures Valid()
      ensures View() == if paced then Attempt(old(View()), now, live) else DrainFrom(old(View()), now, live)
    {
      var resumed := paced;
      while |pending| > 0
        invariant Valid()
        invariant (if resumed then Attempt(View(), now, live) else DrainFrom(View(), now, live))
               == old(if paced then Attempt(View(), now, live) else DrainFrom(View(), now, live))
        decreases |pending|
      {
        var wait := opts.spacing - (now - lastSentAt);
        if !resumed && wait > 0 {
          phase := Pacing(now + wait);
          return;
        }
        resumed := false;
        var entry := pending[0];
        if now - entry.at >= entry.maxAge {
          pending, expired, log := pending[1..], expired + 1, log + [Aged(entry, now)];
        } else if !live {
          phase := Holding(now + opts.spacing);
          return;
        } else {
          pending, lastSentAt, sent, log := pending[1..], now, sent + 1, log + [Sent(entry, now)];
        }
      }
      phase := Idle;
    }

    /** The timer behind the current sleep fires. */
    method Wake(now: int, live: bool)
      requires Valid()
      modifies this
      ensures Valid()
      ensures View() == Woken(old(View()), now, live)
    {
      match phase
      case Idle =>
      case Pacing(_) => Drain(now, live, true);
      case Holding(_) => Drain(now, live, false);
    }
  }
}
