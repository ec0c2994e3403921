/** The capture log (ctjs-module/sbr-dungeon-tracker/capture.js): numbered records, buffered and appended to one
    file a session, and handed to the telemetry forwarder in the same order. */
module Capture {
  import opened Prelude
  import TelemetrySocket
  import TelemetryRuns

  const FLUSH_AT: nat := 200
  const MAX_RECORDS: nat := 200_000

  /** `session` counts calls of `start`; `seq` is the number the record carries. */
  datatype Record = Record(session: nat, number: nat, event: string)

  /** One append to the session's file, and whether it succeeded. */
  datatype Write = Write(lines: seq<Record>, ok: bool)

  /** `delivered` is history: what the listeners were given. */
  datatype State = State(
    active: bool,
    session: nat,
    number: nat,
    dropped: nat,
    buffer: seq<Record>,
    counts: map<string, nat>,
    writes: seq<Write>,
    delivered: seq<Record>)

  function Initial(): State {
    State(false, 0, 0, 0, [], map[], [], [])
  }

  function CountOf(counts: map<string, nat>, event: string): nat {
    if event in counts then counts[event] else 0
  }

  function Flushed(c: State, ok: bool): State {
    if c.buffer == [] || c.session == 0 then c else c.(writes := c.writes + [Write(c.buffer, ok)], buffer := [])
  }

  function Recorded(c: State, event: string, ok: bool): State {
    if !c.active then c
    else if c.number >= MAX_RECORDS then c.(dropped := c.dropped + 1)
    else
      var c' := Joined(c, event);
      if |c'.buffer| >= FLUSH_AT then Flushed(c', ok) else c'
  }

  /** The next record is numbered, counted, buffered and handed on. */
  function Joined(c: State, event: string): State {
    var r := Record(c.session, c.number + 1, event);
    c.(number := c.number + 1, counts := c.counts[event := CountOf(c.counts, event) + 1],
       buffer := c.buffer + [r], delivered := c.delivered + [r])
  }

  function Started(c: State, ok: bool): State {
    var c1 := if c.active then Flushed(c, ok) else c;
    Recorded(c1.(active := true, session := c1.session + 1, number := 0, dropped := 0, buffer := [], counts := map[]),
             "session.start", ok)
  }

  function Stopped(c: State, ok: bool): State {
    if !c.active then c else Flushed(Recorded(c, "session.stop", ok), ok).(active := false)
  }

  class Capture {
    var active: bool
    var session: nat
    var number: nat
    var dropped: nat
    var buffer: seq<Record>
    var counts: map<string, nat>
    var writes: seq<Write>
    ghost var delivered: seq<Record>

    ghost function View(): State
      reads this
    {
      State(active, session, number, dropped, buffer, counts, writes, delivered)
    }

    constructor ()
      ensures View() == Initial()
    {
      active, session, number, dropped, buffer, counts, writes, delivered := false, 0, 0, 0, [], map[], [], [];
    }

    method Flush(ok: bool)
      modifies this
      ensures View() == Flushed(old(View()), ok)
    {
      if |buffer| == 0 || session == 0 {
        return;
      }
      var lines := buffer;
      buffer := [];
      writes := writes + [Write(lines, ok)];
    }

    method Log(event: string, ok: bool)
      modifies this
      ensures View() == Recorded(old(View()), event, ok)
    {
      if !active {
        return;
      }
      if number >= MAX_RECORDS {
        dropped := dropped + 1;
        return;
      }
      number := number + 1;
      counts := counts[event := CountOf(counts, event) + 1];
      var entry := Record(session, number, event);
      buffer := buffer + [entry];
      delivered := delivered + [entry];
      if |buffer| >= FLUSH_AT {
        Flush(ok);
      }
    }

    method Start(ok: bool)
      modifies this
      ensures View() == Started(old(View()), ok)
    {
      if active {
        Flush(ok);
      }
      active, session, number, dropped, buffer, counts := true, session + 1, 0, 0, [], map[];
      Log("session.start", ok);
    }

    method Stop(ok: bool)
      modifies this
      ensures View() == Stopped(old(View()), ok)
    {
      if !active {
        return;
      }
      Log("session.stop", ok);
      Flush(ok);
      active := false;
    }
  }

  // ----- runs

  datatype Step = StartStep(ok: bool) | StopStep(ok: bool) | RecordStep(event: string, ok: bool) | FlushStep(ok: bool)

  function Apply(c: State, step: Step): State {
    match step
    case StartStep(ok) => Started(c, ok)
    case StopStep(ok) => Stopped(c, ok)
    case RecordStep(event, ok) => Recorded(c, event, ok)
    case FlushStep(ok) => Flushed(c, ok)
  }

  function Run(c: State, steps: seq<Step>): State
    decreases |steps|
  {
    if steps == [] then c else Run(Apply(c, steps[0]), steps[1..])
  }

  function Appended(writes: seq<Write>): seq<Record> {
    if writes == [] then [] else Appended(writes[..|writes| - 1]) + writes[|writes| - 1].lines
  }

  predicate Follows(a: Record, b: Record) {
    (b.session == a.session && b.number == a.number + 1) || (b.session == a.session + 1 && b.number == 1)
  }

  /** Numbers run 1, 2, 3, … within a session, and a new session starts again at 1. */
  predicate Numbered(rs: seq<Record>) {
    forall i :: 0 < i < |rs| ==> Follows(rs[i - 1], rs[i])
  }

  predicate Earlier(a: Record, b: Record) {
    a.session < b.session || (a.session == b.session && a.number < b.number)
  }

  ghost function SumCounts(counts: map<string, nat>): nat {
    if counts == map[] then 0
    else
      var k :| k in counts;
      counts[k] + SumCounts(counts - {k})
  }

  lemma {:induction false} SumWithout(counts: map<string, nat>, k: string)
    requires k in counts
    ensures SumCounts(counts) == counts[k] + SumCounts(counts - {k})
    decreases |counts|
  {
    var k0 :| k0 in counts && SumCounts(counts) == counts[k0] + SumCounts(counts - {k0});
    if k0 != k {
      SumWithout(counts - {k0}, k);
      SumWithout(counts - {k}, k0);
      assert counts - {k0} - {k} == counts - {k} - {k0};
    }
  }

  lemma SumBump(counts: map<string, nat>, k: string)
    ensures SumCounts(counts[k := CountOf(counts, k) + 1]) == SumCounts(counts) + 1
  {
    var bumped := counts[k := CountOf(counts, k) + 1];
    SumWithout(bumped, k);
    if k in counts {
      SumWithout(counts, k);
      assert bumped - {k} == counts - {k};
    } else {
      assert bumped - {k} == counts;
    }
  }

  ghost predicate Sound(c: State) {
    && Appended(c.writes) + c.buffer == c.delivered
    && c.number <= MAX_RECORDS
    && SumCounts(c.counts) == c.number
    && Numbered(c.delivered)
    && (!c.active ==> c.buffer == [])
    && (c.session == 0 ==> c.delivered == [] && !c.active)
    && (c.session > 0 ==> AtNumber(c))
  }

  ghost predicate Inv(c: State) {
    Sound(c) && |c.buffer| < FLUSH_AT
  }

  /** The last delivered record is the one the counters point at. */
  predicate AtNumber(c: State) {
    c.number >= 1 && c.delivered != [] &&
    c.delivered[|c.delivered| - 1].session == c.session && c.delivered[|c.delivered| - 1].number == c.number
  }

  /** A record joins the stream. The caller says where the numbering stands. */
  lemma RecordKeeps(c: State, event: string, ok: bool)
    requires c.active && c.session > 0 && c.number < MAX_RECORDS && |c.buffer| < FLUSH_AT
    requires Appended(c.writes) + c.buffer == c.delivered && SumCounts(c.counts) == c.number && Numbered(c.delivered)
    requires c.delivered != [] ==> Follows(c.delivered[|c.delivered| - 1], Record(c.session, c.number + 1, event))
    ensures Inv(Recorded(c, event, ok)) && Recorded(c, event, ok).active && Recorded(c, event, ok).session == c.session
  {
    JoinedSound(c, event);
    hide Sound, Joined;
    FlushSound(Joined(c, event), ok);
    JoinedBuffer(c, event);
  }

  lemma JoinedBuffer(c: State, event: string)
    ensures |Joined(c, event).buffer| == |c.buffer| + 1
    ensures Joined(c, event).active == c.active && Joined(c, event).session == c.session
  {
  }

  lemma JoinedSound(c: State, event: string)
    requires c.active && c.session > 0 && c.number < MAX_RECORDS
    requires Appended(c.writes) + c.buffer == c.delivered && SumCounts(c.counts) == c.number && Numbered(c.delivered)
    requires c.delivered != [] ==> Follows(c.delivered[|c.delivered| - 1], Record(c.session, c.number + 1, event))
    ensures Sound(Joined(c, event))
  {
    hide SumCounts, Appended, CountOf;
    SumBump(c.counts, event);
    var r := Record(c.session, c.number + 1, event);
    NumberedMore(c.delivered, r);
    hide Numbered, Follows;
    assert Appended(c.writes) + (c.buffer + [r]) == c.delivered + [r];
  }

  lemma NumberedMore(rs: seq<Record>, r: Record)
    requires Numbered(rs) && (rs != [] ==> Follows(rs[|rs| - 1], r))
    ensures Numbered(rs + [r])
  {
  }

  lemma FlushSound(c: State, ok: bool)
    requires Sound(c)
    ensures Sound(Flushed(c, ok))
    ensures Flushed(c, ok) == c.(writes := Flushed(c, ok).writes, buffer := [])
  {
  }

  lemma FlushKeeps(c: State, ok: bool)
    requires Inv(c)
    ensures Inv(Flushed(c, ok)) && Flushed(c, ok) == c.(writes := Flushed(c, ok).writes, buffer := [])
  {
  }

  lemma RecordStepKeeps(c: State, event: string, ok: bool)
    requires Inv(c)
    ensures Inv(Recorded(c, event, ok))
  {
    if c.active && c.number < MAX_RECORDS {
      hide SumCounts, Appended, Numbered;
      RecordKeeps(c, event, ok);
    }
  }

  lemma IdleIsFlushed(c: State)
    requires Inv(c) && !c.active
    ensures c.buffer == []
  {
  }

  lemma StartKeeps(c: State, ok: bool)
    requires Inv(c)
    ensures Inv(Started(c, ok))
  {
    hide Inv, Sound, Flushed, Recorded;
    FlushKeeps(c, ok);
    if !c.active {
      IdleIsFlushed(c);
    }
    FreshSession(if c.active then Flushed(c, ok) else c, ok);
  }

  lemma FreshSession(c: State, ok: bool)
    requires Inv(c) && c.buffer == []
    ensures Inv(Recorded(c.(active := true, session := c.session + 1, number := 0, dropped := 0, buffer := [], counts := map[]),
                         "session.start", ok))
  {
  }

  lemma StepKeeps(c: State, step: Step)
    requires Inv(c)
    ensures Inv(Apply(c, step))
  {
    hide Inv, Recorded, Flushed, Started, Stopped;
    match step
    case RecordStep(event, ok) => RecordStepKeeps(c, event, ok);
    case FlushStep(ok) => FlushKeeps(c, ok);
    case StartStep(ok) => StartKeeps(c, ok);
    case StopStep(ok) => StopKeeps(c, ok);
  }

  lemma StopKeeps(c: State, ok: bool)
    requires Inv(c)
    ensures Inv(Stopped(c, ok))
  {
    if c.active {
      hide Inv, Sound, Recorded, Flushed;
      RecordStepKeeps(c, "session.stop", ok);
      FlushKeeps(Recorded(c, "session.stop", ok), ok);
      CloseKeeps(Flushed(Recorded(c, "session.stop", ok), ok));
    }
  }

  lemma CloseKeeps(c: State)
    requires Inv(c) && |c.buffer| <= 0
    ensures Inv(c.(active := false))
  {
    hide SumCounts, Appended, Numbered;
  }

  lemma {:induction false} RunKeeps(c: State, steps: seq<Step>)
    requires Inv(c)
    ensures Inv(Run(c, steps))
    decreases |steps|
  {
    hide Inv, Apply;
    if steps != [] {
      StepKeeps(c, steps[0]);
      RunKeeps(Apply(c, steps[0]), steps[1..]);
    }
  }

  /** Every captured record is appended exactly once and in order, or still buffered; fewer than 200 wait; the event
      counters add up to the sequence number. */
  lemma EveryRecordWrittenOnce(steps: seq<Step>, c: State)
    requires c == Run(Initial(), steps)
    ensures Appended(c.writes) + c.buffer == c.delivered
    ensures |c.buffer| < FLUSH_AT && SumCounts(c.counts) == c.number <= MAX_RECORDS
    ensures !c.active ==> Appended(c.writes) == c.delivered
  {
    RunKeeps(Initial(), steps);
    assert !c.active ==> Appended(c.writes) + [] == c.delivered;
  }

  lemma {:induction false} NumberedIsOrdered(rs: seq<Record>, i: nat, j: nat)
    requires Numbered(rs) && i < j < |rs|
    ensures Earlier(rs[i], rs[j])
    decreases j
  {
    if i + 1 < j {
      NumberedIsOrdered(rs, i, j - 1);
    }
    assert Follows(rs[j - 1], rs[j]);
  }

  /** Whatever part of the captured stream was offered to the socket, and whatever was lost on the way, the records
      in the accepted frames carry strictly increasing numbers. */
  lemma FramesInCaptureOrder(steps: seq<Step>, c: State, hasUrl: bool, limit: Option<int>,
                             pipeSteps: seq<TelemetryRuns.Step<Record>>, s: TelemetrySocket.State<Record>, i: nat, j: nat)
    requires c == Run(Initial(), steps)
    requires TelemetryRuns.Reached(hasUrl, limit, pipeSteps, s) && Subsequence(s.offered, c.delivered)
    requires i < j < |TelemetryRuns.Accepted(s.wire)|
    ensures Earlier(TelemetryRuns.Accepted(s.wire)[i], TelemetryRuns.Accepted(s.wire)[j])
  {
    RunKeeps(Initial(), steps);
    TelemetryRuns.StreamConserved(hasUrl, limit, pipeSteps, s);
    var stream := TelemetryRuns.Accepted(s.wire) + s.queue.items;
    var at: seq<nat> :| Picks(stream, s.offered, at);
    var inCapture: seq<nat> :| Picks(s.offered, c.delivered, inCapture);
    assert stream[i] == s.offered[at[i]] == c.delivered[inCapture[at[i]]];
    assert stream[j] == s.offered[at[j]] == c.delivered[inCapture[at[j]]];
    NumberedIsOrdered(c.delivered, inCapture[at[i]], inCapture[at[j]]);
  }
}
