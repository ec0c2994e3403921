/** What the telemetry pipe keeps under any interleaving of captures, pumps and listener callbacks. */
module TelemetryRuns {
  import opened Prelude
  import Q = TelemetryQueue
  import opened TelemetrySocket

  datatype Step<T> =
    | OfferStep(record: T)
    | PumpStep(now: int, fails: bool)
    | StartStep(url: bool, now: int, fails: bool)
    | StopStep
    | ConnectStep(now: int, fails: bool)
    | DisconnectStep
    | OpenStep(socket: nat)
    | ClosedStep
    | DoneStep(k: nat)

  /** The runtime opens only sockets it was asked for, each once, and completes only sends it accepted. */
  predicate Enabled<T>(s: State<T>, step: Step<T>) {
    && (step.OpenStep? ==> step.socket < s.sockets && step.socket !in s.openedSockets)
    && (step.DoneStep? ==> step.k < |s.wire|)
  }

  function Apply<T>(s: State<T>, step: Step<T>): State<T> {
    match step
    case OfferStep(record) => Offered(s, record)
    case PumpStep(now, fails) => Pumped(s, now, fails)
    case StartStep(url, now, fails) => Started(s, url, now, fails)
    case StopStep => Stopped(s)
    case ConnectStep(now, fails) => Connected(s, now, fails)
    case DisconnectStep => Disconnected(s)
    case OpenStep(socket) => OnOpen(s, socket)
    case ClosedStep => OnClosed(s)
    case DoneStep(k) => if k < |s.wire| then SendDone(s, k) else s
  }

  predicate ValidRun<T>(s: State<T>, steps: seq<Step<T>>)
    decreases |steps|
  {
    steps == [] || (Enabled(s, steps[0]) && ValidRun(Apply(s, steps[0]), steps[1..]))
  }

  function Run<T>(s: State<T>, steps: seq<Step<T>>): State<T>
    decreases |steps|
  {
    if steps == [] then s else Run(Apply(s, steps[0]), steps[1..])
  }

  // ----- the protocol on each socket

  /** Some frame went out on this socket. */
  predicate Carried<T>(wire: seq<Send<T>>, socket: nat) {
    exists j :: 0 <= j < |wire| && wire[j].socket == socket
  }

  /** A frame is the handshake exactly when it is the first on its socket. */
  predicate HelloFirst<T>(wire: seq<Send<T>>) {
    forall k :: 0 <= k < |wire| ==> (wire[k].frame.Hello? <==> !Carried(wire[..k], wire[k].socket))
  }

  /** No socket has two sends in flight. */
  predicate OneInFlight<T>(wire: seq<Send<T>>) {
    forall j, k :: 0 <= j < k < |wire| && !wire[j].done && !wire[k].done ==> wire[j].socket != wire[k].socket
  }

  predicate Protocol<T>(s: State<T>) {
    && (s.sendFuture.Some? ==> s.sendFuture.value < |s.wire|)
    && (forall x :: x in s.openedSockets ==> x < s.sockets)
    && (s.ws.Some? ==> s.ws.value in s.openedSockets && (s.helloSent <==> Carried(s.wire, s.ws.value)))
    && (forall k :: 0 <= k < |s.wire| ==> s.wire[k].socket in s.openedSockets)
    && (forall k :: 0 <= k < |s.wire| && !s.wire[k].done && s.ws == Some(s.wire[k].socket) ==> s.sendFuture == Some(k))
    && HelloFirst(s.wire)
    && OneInFlight(s.wire)
  }

  lemma SentRawKeeps<T>(s: State<T>, frame: Frame<T>)
    requires Protocol(s) && s.ws.Some? && s.sendFuture.None? && (frame.Hello? <==> !s.helloSent)
    ensures Protocol(SentRaw(s, frame).(helloSent := true))
  {
    var s' := SentRaw(s, frame).(helloSent := true);
    var n := |s.wire|;
    assert s'.wire[n].socket == s.ws.value;
    forall k | 0 <= k < |s'.wire|
      ensures s'.wire[k].frame.Hello? <==> !Carried(s'.wire[..k], s'.wire[k].socket)
    {
      assert s'.wire[..k] == s.wire[..k];
      assert s.wire[..n] == s.wire;
    }
  }

  lemma DoneKeeps<T>(s: State<T>, k: nat)
    requires Protocol(s) && k < |s.wire|
    ensures Protocol(SendDone(s, k))
  {
    var s' := SendDone(s, k);
    assert forall j :: 0 <= j < |s.wire| ==> s'.wire[j].socket == s.wire[j].socket && s'.wire[j].frame == s.wire[j].frame;
    forall j, x: nat | 0 <= j <= |s.wire| ensures Carried(s'.wire[..j], x) <==> Carried(s.wire[..j], x) {
      SameSockets(s.wire[..j], s'.wire[..j], x);
    }
    assert s.wire[..|s.wire|] == s.wire && s'.wire[..|s.wire|] == s'.wire;
  }

  lemma SameSockets<T>(a: seq<Send<T>>, b: seq<Send<T>>, x: nat)
    requires |a| == |b| && forall j :: 0 <= j < |a| ==> a[j].socket == b[j].socket
    ensures Carried(a, x) <==> Carried(b, x)
  {
  }

  lemma PumpedProtocol<T>(s: State<T>, now: int, fails: bool)
    requires Protocol(s)
    ensures Protocol(Pumped(s, now, fails))
  {
    if s.phase.Open? && s.ws.Some? && !InFlight(s) {
      var s1 := s.(sendFuture := None);
      assert Protocol(s1);
      if !s.helloSent {
        if !fails {
          SentRawKeeps(s1, Hello);
        }
      } else {
        var n := Q.TakeCount(s.queue, MAX_BATCH);
        if n > 0 && !fails {
          SentRawKeeps(s1, Batch(s.queue.items[..n]));
        }
      }
    }
  }

  lemma StepProtocol<T>(s: State<T>, step: Step<T>)
    requires Protocol(s) && Enabled(s, step)
    ensures Protocol(Apply(s, step))
  {
    match step
    case OfferStep(_) =>
    case PumpStep(now, fails) => PumpedProtocol(s, now, fails);
    case StartStep(url, now, fails) =>
      PumpedProtocol(s.(hasUrl := s.hasUrl || url, backoffMs := BACKOFF_START_MS, nextAttemptAt := 0, retries := 0,
                        phase := if s.phase.Idle? then Closed else s.phase), now, fails);
    case StopStep =>
    case ConnectStep(_, _) =>
    case DisconnectStep =>
    case OpenStep(_) =>
    case ClosedStep =>
    case DoneStep(k) => DoneKeeps(s, k);
  }

  // ----- backoff

  function Delay(j: nat): int {
    Min(BACKOFF_START_MS * Pow2(j), BACKOFF_MAX_MS)
  }

  predicate BackedOff<T>(s: State<T>) {
    s.backoffMs == Delay(s.retries)
  }

  lemma StepBackoff<T>(s: State<T>, step: Step<T>)
    requires BackedOff(s)
    ensures BackedOff(Apply(s, step))
  {
    assert Pow2(s.retries + 1) == 2 * Pow2(s.retries);
    assert Pow2(0) == 1 && Pow2(1) == 2 * Pow2(0);
  }

  // ----- the stream

  /** The records in the accepted frames, in order. */
  function Accepted<T>(wire: seq<Send<T>>): seq<T> {
    if wire == [] then []
    else
      var last := wire[|wire| - 1].frame;
      Accepted(wire[..|wire| - 1]) + if last.Batch? then last.events else []
  }

  predicate BatchesBounded<T>(wire: seq<Send<T>>) {
    forall k :: 0 <= k < |wire| && wire[k].frame.Batch? ==> 1 <= |wire[k].frame.events| <= MAX_BATCH
  }

  ghost predicate Streamed<T>(s: State<T>) {
    && Subsequence(Accepted(s.wire) + s.queue.items, s.offered)
    && |s.offered| == s.sent + |s.queue.items| + s.queue.dropped + s.cleared
    && s.sent == |Accepted(s.wire)| && s.frames == |s.wire|
    && |s.queue.items| <= s.queue.max
    && BatchesBounded(s.wire)
  }

  lemma AcceptedAppend<T>(wire: seq<Send<T>>, x: Send<T>)
    ensures Accepted(wire + [x]) == Accepted(wire) + if x.frame.Batch? then x.frame.events else []
  {
  }

  lemma {:induction false} AcceptedDone<T>(wire: seq<Send<T>>, k: nat)
    requires k < |wire|
    ensures Accepted(wire[k := wire[k].(done := true)]) == Accepted(wire)
  {
    var n := |wire| - 1;
    if k < n {
      assert wire[k := wire[k].(done := true)][..n] == wire[..n][k := wire[..n][k].(done := true)];
      AcceptedDone(wire[..n], k);
    } else {
      assert wire[k := wire[k].(done := true)][..n] == wire[..n];
    }
  }

  lemma OfferedStream<T>(s: State<T>, record: T)
    requires Streamed(s)
    ensures Streamed(Offered(s, record))
  {
    var a, items := Accepted(s.wire), s.queue.items;
    SubsequenceExtend(a + items, s.offered, record);
    var all := a + items + [record];
    if |items| + 1 > s.queue.max {
      SubsequenceDrop(all, s.offered + [record], |a|, |a| + (|items| + 1 - s.queue.max));
      assert all[..|a|] + all[|a| + (|items| + 1 - s.queue.max)..] == a + (items + [record])[|items| + 1 - s.queue.max..];
    } else {
      assert all == a + (items + [record]);
    }
  }

  lemma StoppedStream<T>(s: State<T>)
    requires Streamed(s)
    ensures Streamed(Stopped(s))
  {
    var all := Accepted(s.wire) + s.queue.items;
    SubsequenceDrop(all, s.offered, |Accepted(s.wire)|, |all|);
    assert all[..|Accepted(s.wire)|] + all[|all|..] == Accepted(s.wire) + [];
  }

  lemma TransmittedStream<T>(s: State<T>, now: int, fails: bool)
    requires Streamed(s) && s.ws.Some?
    ensures Streamed(Transmitted(s, now, fails))
  {
    if !s.helloSent {
      AcceptedAppend(s.wire, Send(s.ws.value, Hello, false));
      assert Accepted(s.wire) + [] == Accepted(s.wire);
    } else {
      var n := Q.TakeCount(s.queue, MAX_BATCH);
      if n > 0 && fails {
        Q.TakeThenReturn(s.queue, MAX_BATCH);
      } else if n > 0 {
        var batch := s.queue.items[..n];
        AcceptedAppend(s.wire, Send(s.ws.value, Batch(batch), false));
        assert Accepted(s.wire) + s.queue.items == (Accepted(s.wire) + batch) + s.queue.items[n..];
      }
    }
  }

  lemma PumpedStream<T>(s: State<T>, now: int, fails: bool)
    requires Streamed(s)
    ensures Streamed(Pumped(s, now, fails))
  {
    if s.phase.Open? && s.ws.Some? && !InFlight(s) {
      TransmittedStream(s.(sendFuture := None), now, fails);
    }
  }

  lemma StepStream<T>(s: State<T>, step: Step<T>)
    requires Streamed(s)
    ensures Streamed(Apply(s, step))
  {
    hide Pumped;
    match step
    case OfferStep(record) => OfferedStream(s, record);
    case PumpStep(now, fails) => PumpedStream(s, now, fails);
    case StartStep(url, now, fails) =>
      PumpedStream(s.(hasUrl := s.hasUrl || url, backoffMs := BACKOFF_START_MS, nextAttemptAt := 0, retries := 0,
                      phase := if s.phase.Idle? then Closed else s.phase), now, fails);
    case StopStep => StoppedStream(s);
    case ConnectStep(_, _) =>
    case DisconnectStep =>
    case OpenStep(_) =>
    case ClosedStep =>
    case DoneStep(k) =>
      if k < |s.wire| {
        AcceptedDone(s.wire, k);
      }
  }

  // ----- the theorems

  lemma {:induction false} RunKeeps<T>(s: State<T>, steps: seq<Step<T>>)
    requires Protocol(s) && BackedOff(s) && Streamed(s) && ValidRun(s, steps)
    ensures Protocol(Run(s, steps)) && BackedOff(Run(s, steps)) && Streamed(Run(s, steps))
    decreases |steps|
  {
    hide Protocol, BackedOff, Streamed, Apply, Enabled;
    if steps != [] {
      StepProtocol(s, steps[0]);
      StepBackoff(s, steps[0]);
      StepStream(s, steps[0]);
      RunKeeps(Apply(s, steps[0]), steps[1..]);
    }
  }

  ghost predicate Reached<T>(hasUrl: bool, limit: Option<int>, steps: seq<Step<T>>, s: State<T>) {
    ValidRun(Initial(hasUrl, limit), steps) && s == Run(Initial(hasUrl, limit), steps)
  }

  lemma ReachedInv<T>(hasUrl: bool, limit: Option<int>, steps: seq<Step<T>>, s: State<T>)
    requires Reached(hasUrl, limit, steps, s)
    ensures Protocol(s) && BackedOff(s) && Streamed(s)
  {
    InitialSound<T>(hasUrl, limit);
    hide Protocol, BackedOff, Streamed;
    RunKeeps(Initial<T>(hasUrl, limit), steps);
  }

  lemma InitialSound<T>(hasUrl: bool, limit: Option<int>)
    ensures var s0 := Initial<T>(hasUrl, limit); Protocol(s0) && BackedOff(s0) && Streamed(s0)
  {
    var s0 := Initial<T>(hasUrl, limit);
    assert Accepted(s0.wire) == [];
    assert Picks(Accepted(s0.wire) + s0.queue.items, s0.offered, []);
    assert Pow2(0) == 1;
  }

  /** On every socket the first frame is the handshake and no other is, and two sends on one socket are never in
      flight together. */
  lemma HandshakeFirstAndOneInFlight<T>(hasUrl: bool, limit: Option<int>, steps: seq<Step<T>>, s: State<T>)
    requires Reached(hasUrl, limit, steps, s)
    ensures forall k :: 0 <= k < |s.wire| ==>
              (s.wire[k].frame.Hello? <==> forall j :: 0 <= j < k ==> s.wire[j].socket != s.wire[k].socket)
    ensures forall j, k :: 0 <= j < k < |s.wire| && !s.wire[j].done && !s.wire[k].done ==> s.wire[j].socket != s.wire[k].socket
  {
    ReachedInv(hasUrl, limit, steps, s);
    forall k | 0 <= k < |s.wire|
      ensures s.wire[k].frame.Hello? <==> forall j :: 0 <= j < k ==> s.wire[j].socket != s.wire[k].socket
    {
      assert forall j :: 0 <= j < k ==> s.wire[..k][j] == s.wire[j];
    }
  }

  /** The frames accepted so far followed by the queue are an order-preserving part of what was offered; every
      offered record is sent, queued, dropped or cleared; batches hold 1 to 100 records. */
  lemma StreamConserved<T>(hasUrl: bool, limit: Option<int>, steps: seq<Step<T>>, s: State<T>)
    requires Reached(hasUrl, limit, steps, s)
    ensures Subsequence(Accepted(s.wire) + s.queue.items, s.offered)
    ensures |s.offered| == |Accepted(s.wire)| + |s.queue.items| + s.queue.dropped + s.cleared
    ensures forall k :: 0 <= k < |s.wire| && s.wire[k].frame.Batch? ==> 1 <= |s.wire[k].frame.events| <= MAX_BATCH
    ensures s.sent == |Accepted(s.wire)| && s.frames == |s.wire|
  {
    ReachedInv(hasUrl, limit, steps, s);
  }

  /** A batch that cannot be sent goes back exactly: the queue is as it was, and nothing is dropped. */
  lemma FailedBatchRestored<T>(hasUrl: bool, limit: Option<int>, steps: seq<Step<T>>, s: State<T>, now: int)
    requires Reached(hasUrl, limit, steps, s)
    ensures Pumped(s, now, true).queue == s.queue && Pumped(s, now, true).wire == s.wire
  {
    ReachedInv(hasUrl, limit, steps, s);
    Q.TakeThenReturn(s.queue, MAX_BATCH);
  }

  /** After j retries since the last start or handshake, the next one waits min(2000 * 2^j, 60000). */
  lemma RetryDelay<T>(hasUrl: bool, limit: Option<int>, steps: seq<Step<T>>, s: State<T>, now: int)
    requires Reached(hasUrl, limit, steps, s)
    ensures Retried(s, now).nextAttemptAt == now + Min(2000 * Pow2(s.retries), 60_000)
    ensures Retried(s, now).retries == s.retries + 1
  {
    ReachedInv(hasUrl, limit, steps, s);
  }
}
