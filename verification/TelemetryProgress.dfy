/** What a tick of the telemetry pipe does, and that records do get out (ctjs-module/sbr-dungeon-tracker/socket.js:208-270). */
module TelemetryProgress {
  import opened Prelude
  import Q = TelemetryQueue
  import opened TelemetrySocket
  import opened TelemetryRuns

  /** The pipe is open on a socket and its last send, if any, has completed. */
  predicate Free<T>(s: State<T>) {
    s.phase.Open? && s.ws.Some? &&
    (s.sendFuture.Some? && s.sendFuture.value < |s.wire| ==> s.wire[s.sendFuture.value].done)
  }

  /** A free pipe that has greeted sends the oldest records, at most a hundred, in one frame on its socket; the others
      stay queued in order. With nothing queued it sends nothing. */
  lemma PumpSends<T>(s: State<T>, now: int)
    requires Free(s) && s.helloSent
    ensures var s' := Pumped(s, now, false);
            var n := if |s.queue.items| < 100 then |s.queue.items| else 100;
            && s'.wire == (if n == 0 then s.wire
                           else s.wire + [Send(s.ws.value, Batch(s.queue.items[..n]), false)])
            && s'.queue == s.queue.(items := s.queue.items[n..])
            && s'.phase.Open? && s'.ws == s.ws && s'.helloSent
            && s'.sendFuture == if n == 0 then None else Some(|s.wire|)
  {
  }

  /** A free pipe that has not greeted sends the handshake and nothing else; that clears the backoff. */
  lemma PumpGreets<T>(s: State<T>, now: int)
    requires Free(s) && !s.helloSent
    ensures var s' := Pumped(s, now, false);
            && s'.wire == s.wire + [Send(s.ws.value, Hello, false)] && s'.queue == s.queue
            && s'.phase.Open? && s'.ws == s.ws && s'.helloSent && s'.sendFuture == Some(|s.wire|)
            && s'.backoffMs == 2000
  {
  }

  /** A send that throws gives the socket up and schedules the next attempt; no record moves. */
  lemma PumpGivesUp<T>(s: State<T>, now: int)
    requires Free(s) && (s.helloSent ==> s.queue.items != []) && |s.queue.items| <= s.queue.max
    ensures var s' := Pumped(s, now, true);
            && s'.wire == s.wire && s'.queue == s.queue && s'.phase.Closed? && s'.ws.None?
            && s'.nextAttemptAt == now + s.backoffMs
  {
    Q.TakeThenReturn(s.queue, MAX_BATCH);
  }

  /** While a send is in flight a tick does nothing. */
  lemma PumpWaits<T>(s: State<T>, now: int, fails: bool)
    requires s.phase.Open? && s.ws.Some? && !Free(s)
    ensures Pumped(s, now, fails) == s
  {
  }

  /** A connection that has been opening for more than fifteen seconds is given up. */
  lemma PumpTimesOut<T>(s: State<T>, now: int, fails: bool)
    requires s.phase.Connecting?
    ensures var s' := Pumped(s, now, fails);
            && (now - s.connectStartedAt <= 15_000 ==> s' == s)
            && (now - s.connectStartedAt > 15_000 ==>
                  s'.phase.Closed? && s'.nextAttemptAt == now + s.backoffMs && s'.wire == s.wire && s'.queue == s.queue)
  {
  }

  /** A socket that opens is greeted at the next tick, once whatever was in flight before has completed. */
  lemma OpenedSocketIsGreeted<T>(s: State<T>, socket: nat, now: int)
    requires s.sendFuture.Some? && s.sendFuture.value < |s.wire| ==> s.wire[s.sendFuture.value].done
    ensures var s' := Pumped(OnOpen(s, socket), now, false);
            s'.wire == s.wire + [Send(socket, Hello, false)] && s'.queue == s.queue && s'.ws == Some(socket)
  {
    PumpGreets(OnOpen(s, socket), now);
  }

  /** A stop gives up the socket and empties the queue; a later start asks for a socket at once. */
  lemma StopThenStart<T>(s: State<T>, url: bool, now: int)
    requires now >= 0
    ensures var s1 := Stopped(s);
            var s2 := Started(s1, url, now, false);
            && s1.phase.Idle? && s1.ws.None? && s1.sendFuture.None? && !s1.helloSent
            && s1.queue.items == [] && s1.wire == s.wire
            && (s.hasUrl || url ==> s2.phase.Connecting? && s2.sockets == s.sockets + 1 && s2.connectStartedAt == now)
  {
  }

  /** A limit that is no positive number means five hundred. */
  lemma LimitRead<T>(hasUrl: bool, limit: Option<int>)
    ensures Initial<T>(hasUrl, limit).queue.max == (if limit.Some? && limit.value >= 1 then limit.value else 500)
    ensures Initial<T>(hasUrl, limit).queue.items == []
  {
  }

  /** A record that is captured waits last in the queue; only a full queue loses one for it, its oldest, and counts it. */
  lemma OfferQueues<T>(s: State<T>, record: T)
    requires |s.queue.items| <= s.queue.max && s.queue.max > 0
    ensures var s' := Offered(s, record);
            var full := |s.queue.items| == s.queue.max;
            && s'.queue.items == (if full then s.queue.items[1..] else s.queue.items) + [record]
            && s'.queue.dropped == s.queue.dropped + (if full then 1 else 0)
            && s'.offered == s.offered + [record] && s'.wire == s.wire
  {
    Q.PushDropsOldest(s.queue, record);
  }

  /** Asking for a socket by hand: not while one is open or opening, nor without an address. When that throws the pipe is
      closed and the next attempt scheduled, so that ticks take over. */
  lemma ConnectAsks<T>(s: State<T>, now: int, fails: bool)
    ensures var s' := Connected(s, now, fails);
            if s.phase.Connecting? || s.phase.Open? || !s.hasUrl then s' == s
            else if fails
            then s'.phase.Closed? && s'.nextAttemptAt == now + s.backoffMs && s'.sockets == s.sockets
            else s'.phase.Connecting? && s'.connectStartedAt == now && s'.sockets == s.sockets + 1
  {
  }

  // ----- getting rid of a backlog

  /** Ticks that succeed, each with its send completed before the next. The first send is the k-th of the wire. */
  function Cycles<T>(k: nat, nows: seq<int>): seq<Step<T>>
    decreases |nows|
  {
    if nows == [] then [] else [PumpStep(nows[0], false), DoneStep(k)] + Cycles(k + 1, nows[1..])
  }

  function AfterCycle<T>(s: State<T>, now: int): State<T> {
    Completed(Pumped(s, now, false), |s.wire|)
  }

  function Completed<T>(s: State<T>, k: nat): State<T> {
    if k < |s.wire| then SendDone(s, k) else s
  }

  lemma RunCycle<T>(s: State<T>, nows: seq<int>)
    requires nows != []
    ensures Run(s, Cycles(|s.wire|, nows)) == Run(AfterCycle(s, nows[0]), Cycles(|s.wire| + 1, nows[1..]))
    ensures ValidRun(s, Cycles(|s.wire|, nows)) <==>
            |s.wire| < |Pumped(s, nows[0], false).wire| &&
            ValidRun(AfterCycle(s, nows[0]), Cycles(|s.wire| + 1, nows[1..]))
  {
    hide Pumped, SendDone;
    var k := |s.wire|;
    var pump: Step<T>, done: Step<T> := PumpStep(nows[0], false), DoneStep(k);
    var rest: seq<Step<T>> := Cycles(k + 1, nows[1..]);
    var steps: seq<Step<T>> := Cycles(k, nows);
    assert steps[0] == pump && steps[1..] == [done] + rest;
    assert ([done] + rest)[0] == done && ([done] + rest)[1..] == rest;
    var s1 := Apply(s, pump);
    assert Run(s, steps) == Run(s1, [done] + rest) == Run(Apply(s1, done), rest);
    assert ValidRun(s, steps) <==> ValidRun(s1, [done] + rest);
    assert ValidRun(s1, [done] + rest) <==> k < |s1.wire| && ValidRun(Apply(s1, done), rest);
  }

  /** One cycle of a pipe that has greeted. */
  lemma CycleSends<T>(s: State<T>, now: int)
    requires Free(s) && s.helloSent && s.queue.items != []
    ensures var n := if |s.queue.items| < 100 then |s.queue.items| else 100;
            var s' := AfterCycle(s, now);
            && s'.wire == s.wire + [Send(s.ws.value, Batch(s.queue.items[..n]), true)]
            && s'.queue == s.queue.(items := s.queue.items[n..])
            && Free(s') && s'.helloSent && s'.ws == s.ws && s.ws.Some? && |s.wire| < |Pumped(s, now, false).wire|
  {
    PumpSends(s, now);
    hide Pumped;
  }

  /** What is queued after some cycles that each find records: m hundreds fewer, and what left is on the wire, in
      order. */
  lemma {:induction false} CyclesSend<T>(s: State<T>, nows: seq<int>)
    requires Free(s) && s.helloSent && (nows != [] ==> 100 * (|nows| - 1) < |s.queue.items|)
    ensures var steps := Cycles(|s.wire|, nows);
            var n := if |s.queue.items| < 100 * |nows| then |s.queue.items| else 100 * |nows|;
            && ValidRun(s, steps)
            && Run(s, steps).queue == s.queue.(items := s.queue.items[n..])
            && Accepted(Run(s, steps).wire) == Accepted(s.wire) + s.queue.items[..n]
    decreases |nows|
  {
    hide Free, Pumped, Run, ValidRun, AfterCycle, Cycles, Accepted;
    var items := s.queue.items;
    if nows == [] {
      NoCycles(s);
      assert items[0..] == items && items[..0] == [] && Accepted(s.wire) + [] == Accepted(s.wire);
    } else {
      var b := if |items| < 100 then |items| else 100;
      var s' := AfterCycle(s, nows[0]);
      CycleSends(s, nows[0]);
      RunCycle(s, nows);
      CyclesSend(s', nows[1..]);
      AcceptedAppend(s.wire, Send(s.ws.value, Batch(items[..b]), true));
      CutTwice(items, b, if |items| - b < 100 * (|nows| - 1) then |items| - b else 100 * (|nows| - 1));
      var n := if |items| < 100 * |nows| then |items| else 100 * |nows|;
      assert Accepted(s.wire) + items[..b] + items[b..][..n - b] == Accepted(s.wire) + items[..n];
    }
  }

  lemma NoCycles<T>(s: State<T>)
    ensures Run(s, Cycles(|s.wire|, [])) == s && ValidRun(s, Cycles(|s.wire|, []))
  {
  }

  lemma CutTwice<T>(items: seq<T>, b: nat, m: nat)
    requires b + m <= |items|
    ensures items[b..][m..] == items[b + m..] && items[..b] + items[b..][..m] == items[..b + m]
  {
  }

  /** n queued records are out after ceil(n / 100) ticks, every one of them, in order. */
  lemma BacklogGetsOut<T>(s: State<T>, nows: seq<int>)
    requires Free(s) && s.helloSent && |nows| == (|s.queue.items| + 99) / 100
    ensures var steps := Cycles(|s.wire|, nows);
            && ValidRun(s, steps) && Run(s, steps).queue.items == []
            && Accepted(Run(s, steps).wire) == Accepted(s.wire) + s.queue.items
  {
    hide Free, Run, ValidRun, Cycles, Accepted;
    CyclesSend(s, nows);
    assert s.queue.items[..|s.queue.items|] == s.queue.items;
  }

  /** On a socket that has just opened it takes one tick more, for the handshake. */
  lemma BacklogGetsOutOnANewSocket<T>(s: State<T>, first: int, nows: seq<int>)
    requires Free(s) && !s.helloSent && |nows| == (|s.queue.items| + 99) / 100
    ensures var steps := Cycles(|s.wire|, [first] + nows);
            && ValidRun(s, steps) && Run(s, steps).queue.items == []
            && Accepted(Run(s, steps).wire) == Accepted(s.wire) + s.queue.items
  {
    var s' := AfterCycle(s, first);
    PumpGreets(s, first);
    assert s'.wire == s.wire + [Send(s.ws.value, Hello, true)];
    AcceptedAppend(s.wire, Send(s.ws.value, Hello, true));
    assert Accepted(s.wire) + [] == Accepted(s.wire);
    assert ([first] + nows)[1..] == nows && Free(s') && s'.helloSent;
    hide Free, Pumped, Run, ValidRun, Cycles, Accepted, AfterCycle;
    RunCycle(s, [first] + nows);
    BacklogGetsOut(s', nows);
  }
}
