/** What the capture log captures: which records there are, with which event and number, follows from the calls alone
    (ctjs-module/sbr-dungeon-tracker/capture.js). */
module CaptureHistory {
  import opened Prelude
  import opened Capture

  /** The records so far; whether a session is open, which, and how many records it has; how many it refused. */
  datatype Story = Story(records: seq<Record>, open: bool, session: nat, number: nat, refused: nat)

  /** One more event: it is captured while a session is open and has room for it, under the next number. */
  function Told(t: Story, event: string): Story {
    if !t.open then t
    else if t.number >= 200_000 then t.(refused := t.refused + 1)
    else t.(records := t.records + [Record(t.session, t.number + 1, event)], number := t.number + 1)
  }

  /** What a sequence of calls captures. A start opens a new session, numbered from one; a stop closes it. */
  function Tale(steps: seq<Step>): Story {
    if steps == [] then Story([], false, 0, 0, 0)
    else
      var t := Tale(steps[..|steps| - 1]);
      match steps[|steps| - 1]
      case StartStep(_) => Told(Story(t.records, true, t.session + 1, 0, 0), "session.start")
      case StopStep(_) => Told(t, "session.stop").(open := false)
      case RecordStep(event, _) => Told(t, event)
      case FlushStep(_) => t
  }

  predicate Matches(c: State, t: Story) {
    && c.delivered == t.records && c.active == t.open && c.session == t.session && c.number == t.number
    && c.dropped == t.refused
  }

  lemma StepMatches(c: State, t: Story, step: Step)
    requires Matches(c, t)
    ensures Matches(Apply(c, step),
                    match step
                    case StartStep(_) => Told(Story(t.records, true, t.session + 1, 0, 0), "session.start")
                    case StopStep(_) => Told(t, "session.stop").(open := false)
                    case RecordStep(event, _) => Told(t, event)
                    case FlushStep(_) => t)
  {
    hide CountOf;
  }

  lemma {:induction false} RunSnoc(c: State, steps: seq<Step>, step: Step)
    ensures Run(c, steps + [step]) == Apply(Run(c, steps), step)
    decreases |steps|
  {
    hide Apply;
    if steps == [] {
      assert [] + [step] == [step] && [step][1..] == [];
    } else {
      assert (steps + [step])[0] == steps[0] && (steps + [step])[1..] == steps[1..] + [step];
      RunSnoc(Apply(c, steps[0]), steps[1..], step);
    }
  }

  /** Over every run of the log: the records handed on, and with them what is in the file or still buffered, are exactly
      the captured ones, with their events, sessions and numbers; the refused ones are counted. */
  lemma {:induction false} DeliveredIsCaptured(steps: seq<Step>)
    ensures Matches(Run(Initial(), steps), Tale(steps))
  {
    if steps != [] {
      hide Apply, Matches;
      var n := |steps| - 1;
      DeliveredIsCaptured(steps[..n]);
      RunSnoc(Initial(), steps[..n], steps[n]);
      assert steps[..n] + [steps[n]] == steps;
      StepMatches(Run(Initial(), steps[..n]), Tale(steps[..n]), steps[n]);
    } else {
      assert Matches(Initial(), Tale([]));
    }
  }

  // ----- the counters

  function Of(session: nat, event: string): Record -> bool {
    (r: Record) => r.session == session && r.event == event
  }

  /** Each event's counter is the number of its records in the current session. */
  predicate CountsRight(c: State, event: string) {
    CountOf(c.counts, event) == Count(c.delivered, Of(c.session, event))
  }

  predicate NoneLater(c: State) {
    forall r :: r in c.delivered ==> r.session <= c.session
  }

  lemma RecordedCounts(c: State, said: string, ok: bool, event: string)
    requires CountsRight(c, event) && NoneLater(c)
    ensures CountsRight(Recorded(c, said, ok), event) && NoneLater(Recorded(c, said, ok))
  {
    CountOne(c.delivered, Record(c.session, c.number + 1, said), Of(c.session, event));
    hide Count;
  }

  lemma StepCounts(c: State, step: Step, event: string)
    requires CountsRight(c, event) && NoneLater(c)
    ensures CountsRight(Apply(c, step), event) && NoneLater(Apply(c, step))
  {
    hide Recorded, Count;
    match step
    case StartStep(ok) =>
      var c1 := if c.active then Flushed(c, ok) else c;
      NothingYet(c.delivered, c.session + 1, event);
      RecordedCounts(c1.(active := true, session := c1.session + 1, number := 0, dropped := 0, buffer := [], counts := map[]),
                     "session.start", ok, event);
    case StopStep(ok) =>
      if c.active {
        RecordedCounts(c, "session.stop", ok, event);
      }
    case RecordStep(said, ok) => RecordedCounts(c, said, ok, event);
    case FlushStep(ok) =>
  }

  lemma NothingYet(records: seq<Record>, session: nat, event: string)
    requires forall r :: r in records ==> r.session < session
    ensures Count(records, Of(session, event)) == 0
  {
    CountPositive(records, Of(session, event));
  }

  lemma {:induction false} RunCounts(c: State, steps: seq<Step>, event: string)
    requires CountsRight(c, event) && NoneLater(c)
    ensures CountsRight(Run(c, steps), event) && NoneLater(Run(c, steps))
    decreases |steps|
  {
    hide CountsRight, NoneLater, Apply;
    if steps != [] {
      StepCounts(c, steps[0], event);
      RunCounts(Apply(c, steps[0]), steps[1..], event);
    }
  }

  lemma CountersAreRight(steps: seq<Step>, event: string)
    ensures var c := Run(Initial(), steps);
            CountOf(c.counts, event) == Count(c.delivered, Of(c.session, event))
  {
    RunCounts(Initial(), steps, event);
  }

  /** Records are written two hundred at a time: nothing until then, and then all of them in one append. */
  lemma RecordsWaitForTheBatch(steps: seq<Step>, event: string, ok: bool)
    ensures var c := Run(Initial(), steps);
            var c' := Recorded(c, event, ok);
            var r := Record(c.session, c.number + 1, event);
            if !c.active || c.number >= 200_000 then c'.writes == c.writes && c'.buffer == c.buffer
            else if |c.buffer| < 199 then c'.writes == c.writes && c'.buffer == c.buffer + [r]
            else c'.writes == c.writes + [Write(c.buffer + [r], ok)] && c'.buffer == []
  {
    RunKeeps(Initial(), steps);
    hide SumCounts, Numbered, Appended, Run, CountOf;
  }

  /** A flush writes everything that waits, as one append that carries its own fate. */
  lemma FlushWrites(steps: seq<Step>, ok: bool)
    ensures var c := Run(Initial(), steps);
            var c' := Flushed(c, ok);
            c'.buffer == [] && c'.writes == c.writes + if c.buffer == [] then [] else [Write(c.buffer, ok)]
  {
    RunKeeps(Initial(), steps);
    var c := Run(Initial(), steps);
    hide SumCounts, Numbered, Appended, Run;
    assert c.writes + [] == c.writes;
  }
}
