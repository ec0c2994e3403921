/** The command text behind each correlation id that still awaits a verdict
    (apps/bridge-bot/src/composition.ts:846-880 and 1038-1062). The map keeps insertion order. */
module OutboundMemory {
  import opened Prelude

  datatype Row = Row(id: string, command: string)

  /** A message arrives, or an answer is published; `final` is false only for TYPED. */
  datatype Op = Remember(id: string, command: string) | Publish(id: string, final: bool)

  const OUTBOUND_MEMORY: nat := 200

  function IndexOf(rows: seq<Row>, id: string): (i: nat)
    ensures i <= |rows|
    ensures i < |rows| ==> rows[i].id == id
    ensures forall j :: 0 <= j < i ==> rows[j].id != id
  {
    if rows == [] || rows[0].id == id then 0 else 1 + IndexOf(rows[1..], id)
  }

  function Lookup(rows: seq<Row>, id: string): Option<string> {
    if IndexOf(rows, id) < |rows| then Some(rows[IndexOf(rows, id)].command) else None
  }

  /** `Map.set`: an existing key keeps its place. */
  function Set(rows: seq<Row>, id: string, command: string): seq<Row> {
    var i := IndexOf(rows, id);
    if i < |rows| then rows[i := Row(id, command)] else rows + [Row(id, command)]
  }

  function Delete(rows: seq<Row>, id: string): seq<Row> {
    var i := IndexOf(rows, id);
    if i < |rows| then rows[..i] + rows[i + 1..] else rows
  }

  function Bounded(rows: seq<Row>): seq<Row> {
    if |rows| >= OUTBOUND_MEMORY then rows[1..] else rows
  }

  function Apply(rows: seq<Row>, op: Op): seq<Row> {
    match op
    case Remember(id, command) => Set(Bounded(rows), id, command)
    case Publish(id, final) => if final then Delete(rows, id) else rows
  }

  function Run(rows: seq<Row>, ops: seq<Op>): seq<Row>
    decreases |ops|
  {
    if ops == [] then rows else Run(Apply(rows, ops[0]), ops[1..])
  }

  class Memory {
    var rows: seq<Row>

    constructor ()
      ensures rows == []
    {
      rows := [];
    }

    method Find(id: string) returns (i: nat)
      ensures i == IndexOf(rows, id)
    {
      i := 0;
      while i < |rows| && rows[i].id != id
        invariant i <= |rows| && forall j :: 0 <= j < i ==> rows[j].id != id
      {
        i := i + 1;
      }
    }

    method HandleMessage(id: string, command: string)
      modifies this
      ensures rows == Apply(old(rows), Remember(id, command))
    {
      if |rows| >= OUTBOUND_MEMORY {
        rows := rows[1..];
      }
      var i := Find(id);
      rows := if i < |rows| then rows[i := Row(id, command)] else rows + [Row(id, command)];
    }

    /** The command a published answer is recorded with, if it is still known. */
    method PublishAck(id: string, typed: bool) returns (command: Option<string>)
      modifies this
      ensures command == Lookup(old(rows), id)
      ensures rows == Apply(old(rows), Publish(id, !typed))
    {
      var i := Find(id);
      if i == |rows| {
        return None;
      }
      command := Some(rows[i].command);
      if !typed {
        rows := rows[..i] + rows[i + 1..];
      }
    }
  }

  predicate Distinct(rows: seq<Row>) {
    forall i, j :: 0 <= i < j < |rows| ==> rows[i].id != rows[j].id
  }

  predicate IsMessage(op: Op) {
    op.Remember?
  }

  /** The memory never holds more than its bound, and one row an id. */
  lemma {:induction false} MemoryBounded(rows: seq<Row>, ops: seq<Op>)
    requires |rows| <= OUTBOUND_MEMORY && Distinct(rows)
    ensures |Run(rows, ops)| <= OUTBOUND_MEMORY && Distinct(Run(rows, ops))
    decreases |ops|
  {
    if ops != [] {
      MemoryBounded(Apply(rows, ops[0]), ops[1..]);
    }
  }

  /** `op` neither settles nor repeats this id. */
  predicate Spares(op: Op, id: string) {
    match op
    case Remember(x, _) => x != id
    case Publish(x, final) => x != id || !final
  }

  /** One operation moves a row towards the front only by dropping older rows, and puts at most one behind it. */
  lemma StepKeepsRow(rows: seq<Row>, op: Op, i: nat) returns (i': nat)
    requires i < |rows| && Distinct(rows) && Spares(op, rows[i].id)
    requires op.Remember? ==> |rows| - i < OUTBOUND_MEMORY
    ensures var rows' := Apply(rows, op);
            && i' < |rows'| && rows'[i'] == rows[i] && Distinct(rows')
            && |rows'| - i' <= |rows| - i + (if op.Remember? then 1 else 0)
  {
    hide Set, Delete;
    match op
    case Remember(id, command) =>
      i' := if |rows| >= OUTBOUND_MEMORY then i - 1 else i;
      SetSpares(Bounded(rows), id, command, i');
    case Publish(id, final) =>
      i' := if final && IndexOf(rows, id) < i then i - 1 else i;
      if final {
        DeleteSpares(rows, id, i);
      }
  }

  lemma SetSpares(rows: seq<Row>, id: string, command: string, i: nat)
    requires i < |rows| && Distinct(rows) && rows[i].id != id
    ensures var rows' := Set(rows, id, command);
            Distinct(rows') && |rows| <= |rows'| <= |rows| + 1 && rows'[i] == rows[i]
  {
  }

  lemma DeleteSpares(rows: seq<Row>, id: string, i: nat)
    requires i < |rows| && Distinct(rows) && rows[i].id != id
    ensures var rows' := Delete(rows, id);
            var i' := if IndexOf(rows, id) < i then i - 1 else i;
            Distinct(rows') && i' < |rows'| && rows'[i'] == rows[i] && |rows'| - i' <= |rows| - i
  {
  }

  /** A command is not forgotten before it is settled or 200 newer messages have come in. */
  lemma {:induction false} RowRetained(rows: seq<Row>, i: nat, ops: seq<Op>)
    requires i < |rows| && Distinct(rows)
    requires forall op :: op in ops ==> Spares(op, rows[i].id)
    requires |rows| - i - 1 + Count(ops, IsMessage) < OUTBOUND_MEMORY
    ensures Lookup(Run(rows, ops), rows[i].id) == Some(rows[i].command)
    decreases |ops|
  {
    if ops == [] {
    } else {
      assert ops[0] in ops;
      var i' := StepKeepsRow(rows, ops[0], i);
      RowRetained(Apply(rows, ops[0]), i', ops[1..]);
    }
  }

  /** From the arrival of a message with a fresh id: fewer than 200 messages later its command is still known. */
  lemma MessageRetained(rows: seq<Row>, id: string, command: string, ops: seq<Op>)
    requires |rows| <= OUTBOUND_MEMORY && Distinct(rows) && forall r :: r in rows ==> r.id != id
    requires forall op :: op in ops ==> Spares(op, id)
    requires Count(ops, IsMessage) < OUTBOUND_MEMORY
    ensures Lookup(Run(rows, [Remember(id, command)] + ops), id) == Some(command)
  {
    var rows' := Apply(rows, Remember(id, command));
    assert ([Remember(id, command)] + ops)[1..] == ops;
    assert rows' == Bounded(rows) + [Row(id, command)];
    RowRetained(rows', |rows'| - 1, ops);
  }

  /** A message that comes again is known under its newest text, and a settled one is known no longer. */
  lemma LatestKnown(rows: seq<Row>, id: string, command: string)
    requires Distinct(rows)
    ensures Lookup(Apply(rows, Remember(id, command)), id) == Some(command)
    ensures Lookup(Apply(rows, Publish(id, true)), id) == None
    ensures Apply(rows, Publish(id, false)) == rows
  {
    var kept := Bounded(rows);
    var i := IndexOf(kept, id);
    IndexIs(Set(kept, id, command), id, i);
    var j := IndexOf(rows, id);
    if j < |rows| {
      IndexIs(Delete(rows, id), id, |rows| - 1);
    }
  }

  lemma {:induction false} IndexIs(rows: seq<Row>, id: string, i: nat)
    requires i <= |rows| && (i < |rows| ==> rows[i].id == id) && forall j :: 0 <= j < i ==> rows[j].id != id
    ensures IndexOf(rows, id) == i
  {
  }

  /** What is known about an id comes from the message that brought it. */
  lemma KnownWasTold(ops: seq<Op>, id: string)
    requires Lookup(Run([], ops), id).Some?
    ensures Remember(id, Lookup(Run([], ops), id).value) in ops
  {
    RowsWereTold([], ops);
  }

  lemma {:induction false} RowsWereTold(rows: seq<Row>, ops: seq<Op>)
    ensures forall r :: r in Run(rows, ops) ==> r in rows || Remember(r.id, r.command) in ops
    decreases |ops|
  {
    if ops != [] {
      RowsWereTold(Apply(rows, ops[0]), ops[1..]);
      assert forall r :: r in Apply(rows, ops[0]) ==> r in rows || Remember(r.id, r.command) == ops[0];
    }
  }

  /** The bound is tight: the two hundredth newer message drops the row. */
  lemma OldestDropped(rows: seq<Row>, id: string, command: string)
    requires |rows| == OUTBOUND_MEMORY && Distinct(rows) && forall r :: r in rows ==> r.id != id
    ensures Lookup(Apply(rows, Remember(id, command)), rows[0].id) == None
  {
  }
}
