/** The outbound telemetry pipe (ctjs-module/sbr-dungeon-tracker/socket.js): one socket at a time, one send in
    flight, a handshake first, and reconnects with backoff. A socket is a number; the `wire` records every send the
    runtime accepted and whether it has completed. Listener callbacks are steps of their own, between pumps. */
module TelemetrySocket {
  import opened Prelude
  import Q = TelemetryQueue

  const MAX_BATCH: nat := 100
  const BACKOFF_START_MS: int := 2000
  const BACKOFF_MAX_MS: int := 60_000
  const CONNECT_TIMEOUT_MS: int := 15_000

  datatype Phase = Idle | Connecting | Open | Closed

  datatype Frame<T> = Hello | Batch(events: seq<T>)

  datatype Send<T> = Send(socket: nat, frame: Frame<T>, done: bool)

  /** The fields of the pipe, then the runtime it talks to: sockets asked for so far, those that opened, the wire.
      Last, history: records offered, how many were cleared, and retries scheduled since the last start or handshake. */
  datatype State<T> = State(
    hasUrl: bool,
    phase: Phase,
    ws: Option<nat>,
    connectStartedAt: int,
    sendFuture: Option<nat>,
    backoffMs: int,
    nextAttemptAt: int,
    helloSent: bool,
    sent: nat,
    frames: nat,
    queue: Q.State<T>,
    sockets: nat,
    openedSockets: set<nat>,
    wire: seq<Send<T>>,
    offered: seq<T>,
    cleared: nat,
    retries: nat)

  function Initial<T>(hasUrl: bool, limit: Option<int>): State<T> {
    State(hasUrl, Idle, None, 0, None, BACKOFF_START_MS, 0, false, 0, 0, Q.Initial(limit), 0, {}, [], [], 0, 0)
  }

  // ----- the functions of the pipe

  function Retried<T>(s: State<T>, now: int): State<T> {
    s.(nextAttemptAt := now + s.backoffMs, backoffMs := Min(s.backoffMs * 2, BACKOFF_MAX_MS), retries := s.retries + 1)
  }

  /** `fails` says whether starting the connection throws. */
  function Connected<T>(s: State<T>, now: int, fails: bool): State<T> {
    if s.phase.Connecting? || s.phase.Open? || !s.hasUrl then s
    else if fails then Retried(s.(connectStartedAt := now, phase := Closed), now)
    else s.(phase := Connecting, connectStartedAt := now, sockets := s.sockets + 1)
  }

  function Disconnected<T>(s: State<T>): State<T> {
    s.(phase := Idle, ws := None, sendFuture := None, helloSent := false)
  }

  /** `sendText` was accepted. */
  function SentRaw<T>(s: State<T>, frame: Frame<T>): State<T>
    requires s.ws.Some?
  {
    s.(wire := s.wire + [Send(s.ws.value, frame, false)], sendFuture := Some(|s.wire|), frames := s.frames + 1)
  }

  /** `sendText` threw. */
  function SendFailed<T>(s: State<T>): State<T> {
    s.(phase := Closed, ws := None)
  }

  predicate InFlight<T>(s: State<T>) {
    s.sendFuture.Some? && s.sendFuture.value < |s.wire| && !s.wire[s.sendFuture.value].done
  }

  /** One tick. `fails` says whether the one call it makes to the runtime throws. */
  function Pumped<T>(s: State<T>, now: int, fails: bool): State<T> {
    match s.phase
    case Connecting =>
      if now - s.connectStartedAt > CONNECT_TIMEOUT_MS then Retried(s.(phase := Closed), now) else s
    case Closed =>
      if now >= s.nextAttemptAt then Connected(s, now, fails) else s
    case Idle => s
    case Open =>
      if s.ws.None? || InFlight(s) then s
      else Transmitted(s.(sendFuture := None), now, fails)
  }

  /** The socket is open and nothing is in flight: the handshake, or else one batch. */
  function Transmitted<T>(s: State<T>, now: int, fails: bool): State<T>
    requires s.ws.Some?
  {
    if !s.helloSent then
      if fails then Retried(SendFailed(s), now)
      else SentRaw(s, Hello).(helloSent := true, backoffMs := BACKOFF_START_MS, retries := 0)
    else
      var n := Q.TakeCount(s.queue, MAX_BATCH);
      if n == 0 then s
      else if fails then Retried(SendFailed(s.(queue := Q.Returned(Q.Taken(s.queue, MAX_BATCH), s.queue.items[..n]))), now)
      else SentRaw(s, Batch(s.queue.items[..n])).(queue := Q.Taken(s.queue, MAX_BATCH), sent := s.sent + n)
  }

  function Offered<T>(s: State<T>, record: T): State<T> {
    s.(queue := Q.Pushed(s.queue, record), offered := s.offered + [record])
  }

  function Started<T>(s: State<T>, url: bool, now: int, fails: bool): State<T> {
    Pumped(s.(hasUrl := s.hasUrl || url, backoffMs := BACKOFF_START_MS, nextAttemptAt := 0, retries := 0,
              phase := if s.phase.Idle? then Closed else s.phase), now, fails)
  }

  function Stopped<T>(s: State<T>): State<T> {
    Disconnected(s).(queue := s.queue.(items := []), cleared := s.cleared + |s.queue.items|)
  }

  // ----- listener callbacks, and the runtime finishing a send

  function OnOpen<T>(s: State<T>, socket: nat): State<T> {
    s.(phase := Open, ws := Some(socket), helloSent := false, openedSockets := s.openedSockets + {socket})
  }

  function OnClosed<T>(s: State<T>): State<T> {
    s.(phase := Closed, ws := None)
  }

  function SendDone<T>(s: State<T>, k: nat): State<T>
    requires k < |s.wire|
  {
    s.(wire := s.wire[k := s.wire[k].(done := true)])
  }

  /** The pipe as an object over its queue. The runtime's side is kept in the ghost fields and in `wire`. */
  class Socket<T> {
    const queue: Q.BoundedQueue<T>
    var hasUrl: bool
    var phase: Phase
    var ws: Option<nat>
    var connectStartedAt: int
    var sendFuture: Option<nat>
    var backoffMs: int
    var nextAttemptAt: int
    var helloSent: bool
    var sent: nat
    var frames: nat
    var sockets: nat
    var wire: seq<Send<T>>
    ghost var openedSockets: set<nat>
    ghost var offered: seq<T>
    ghost var cleared: nat
    ghost var retries: nat

    ghost function View(): State<T>
      reads this, queue
    {
      State(hasUrl, phase, ws, connectStartedAt, sendFuture, backoffMs, nextAttemptAt, helloSent, sent, frames,
            queue.View(), sockets, openedSockets, wire, offered, cleared, retries)
    }

    constructor (hasUrl: bool, queueLimit: Option<int>)
      ensures fresh(queue) && View() == Initial(hasUrl, queueLimit)
    {
      queue := new Q.BoundedQueue(queueLimit);
      this.hasUrl, phase, ws, connectStartedAt, sendFuture := hasUrl, Idle, None, 0, None;
      backoffMs, nextAttemptAt, helloSent, sent, frames := BACKOFF_START_MS, 0, false, 0, 0;
      sockets, wire, openedSockets, offered, cleared, retries := 0, [], {}, [], 0, 0;
    }

    method ScheduleRetry(now: int)
      modifies this
      ensures View() == Retried(old(View()), now)
    {
      nextAttemptAt := now + backoffMs;
      backoffMs := Min(backoffMs * 2, BACKOFF_MAX_MS);
      retries := retries + 1;
    }

    method Connect(now: int, fails: bool)
      modifies this
      ensures View() == Connected(old(View()), now, fails)
    {
      if phase.Connecting? || phase.Open? {
        return;
      }
      if !hasUrl {
        return;
      }
      phase := Connecting;
      connectStartedAt := now;
      if fails {
        phase := Closed;
        ScheduleRetry(now);
        return;
      }
      sockets := sockets + 1;
    }

    method Disconnect()
      modifies this
      ensures View() == Disconnected(old(View()))
    {
      phase, ws, sendFuture, helloSent := Idle, None, None, false;
    }

    method SendRaw(frame: Frame<T>, fails: bool) returns (ok: bool)
      requires ws.Some?
      modifies this
      ensures ok == !fails
      ensures View() == if fails then SendFailed(old(View())) else SentRaw(old(View()), frame)
    {
      if fails {
        phase, ws := Closed, None;
        return false;
      }
      sendFuture := Some(|wire|);
      wire := wire + [Send(ws.value, frame, false)];
      frames := frames + 1;
      return true;
    }

    method Pump(now: int, fails: bool)
      modifies this, queue
      ensures View() == Pumped(old(View()), now, fails)
    {
      if phase.Connecting? {
        if now - connectStartedAt > CONNECT_TIMEOUT_MS {
          phase := Closed;
          ScheduleRetry(now);
        }
        return;
      }
      if phase.Closed? {
        if now >= nextAttemptAt {
          Connect(now, fails);
        }
        return;
      }
      if !phase.Open? || ws.None? {
        return;
      }
      if sendFuture.Some? {
        var done := sendFuture.value >= |wire| || wire[sendFuture.value].done;
        if !done {
          return;
        }
        sendFuture := None;
      }
      Transmit(now, fails);
    }

    /** The tail of `pump`: the handshake, or else one batch. */
    method Transmit(now: int, fails: bool)
      requires ws.Some?
      modifies this, queue
      ensures View() == Transmitted(old(View()), now, fails)
    {
      if !helloSent {
        var ok := SendRaw(Hello, fails);
        if ok {
          helloSent, backoffMs, retries := true, BACKOFF_START_MS, 0;
        } else {
          ScheduleRetry(now);
        }
        return;
      }
      TransmitBatch(now, fails);
    }

    method TransmitBatch(now: int, fails: bool)
      requires ws.Some? && helloSent
      modifies this, queue
      ensures View() == Transmitted(old(View()), now, fails)
    {
      var batch := queue.Take(MAX_BATCH);
      if |batch| == 0 {
        assert queue.View() == old(queue.View());
        return;
      }
      var ok := SendRaw(Batch(batch), fails);
      if ok {
        sent := sent + |batch|;
      } else {
        // Put them back: a failed send is a disconnect, not a delivery.
        queue.UnshiftAll(batch);
        ScheduleRetry(now);
      }
    }

    method Offer(record: T)
      modifies this, queue
      ensures View() == Offered(old(View()), record)
    {
      queue.Push(record);
      offered := offered + [record];
    }

    method Start(url: bool, now: int, fails: bool)
      modifies this, queue
      ensures View() == Started(old(View()), url, now, fails)
    {
      hide Pumped;
      if url {
        hasUrl := true;
      }
      backoffMs, nextAttemptAt, retries := BACKOFF_START_MS, 0, 0;
      if phase.Idle? {
        phase := Closed;
      }
      Pump(now, fails);
    }

    method Stop()
      modifies this, queue
      ensures View() == Stopped(old(View()))
    {
      Disconnect();
      cleared := cleared + |queue.items|;
      queue.Clear();
    }

    method HandleOpen(socket: nat)
      modifies this
      ensures View() == OnOpen(old(View()), socket)
    {
      phase, ws, helloSent := Open, Some(socket), false;
      openedSockets := openedSockets + {socket};
    }

    /** `onClose` and `onError` change the same two fields. */
    method HandleClosed()
      modifies this
      ensures View() == OnClosed(old(View()))
    {
      phase, ws := Closed, None;
    }
  }
}
