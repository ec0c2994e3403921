/** What a durable sweep does to the outside world, call by call. The database and Discord are two systems, so a
    crash can leave any prefix of a trace behind. */
module SweepTrace {
  import opened Prelude

  /** A post and whether it landed; the decision to clear a row without posting it; clearing rows in the database. */
  datatype Call = Post(id: nat, landed: bool) | Waive(id: nat) | Mark(ids: seq<nat>)

  predicate Earned(trace: seq<Call>, id: nat) {
    Post(id, true) in trace || Waive(id) in trace
  }

  /** Rows are cleared only after a post that landed, or a decision to waive them. */
  predicate Careful(trace: seq<Call>) {
    trace == [] ||
    (var before, last := trace[..|trace| - 1], trace[|trace| - 1];
     Careful(before) && (last.Mark? ==> forall id :: id in last.ids ==> Earned(before, id)))
  }

  /** The rows a trace has cleared. */
  function Marked(trace: seq<Call>): set<nat> {
    if trace == [] then {}
    else
      var last := trace[|trace| - 1];
      Marked(trace[..|trace| - 1]) + if last.Mark? then set id | id in last.ids else {}
  }

  predicate IsLanded(c: Call) {
    c.Post? && c.landed
  }

  function Landings(trace: seq<Call>): nat {
    Count(trace, IsLanded)
  }

  predicate IsWaiver(c: Call) {
    c.Waive?
  }

  function Waivers(trace: seq<Call>): nat {
    Count(trace, IsWaiver)
  }

  /** A row whose post landed is not posted again. */
  predicate NoRepeat(trace: seq<Call>) {
    forall i, j :: 0 <= i < j < |trace| && IsLanded(trace[i]) && trace[j].Post? ==> trace[i].id != trace[j].id
  }

  lemma CarefulAppend(trace: seq<Call>, c: Call)
    requires Careful(trace) && (c.Mark? ==> forall id :: id in c.ids ==> Earned(trace, id))
    ensures Careful(trace + [c])
    ensures Marked(trace + [c]) == Marked(trace) + if c.Mark? then set id | id in c.ids else {}
    ensures Landings(trace + [c]) == Landings(trace) + if IsLanded(c) then 1 else 0
    ensures Waivers(trace + [c]) == Waivers(trace) + if c.Waive? then 1 else 0
  {
    assert (trace + [c])[..|trace|] == trace;
    CountOne(trace, c, IsLanded);
    CountOne(trace, c, IsWaiver);
  }

  /** A crash anywhere leaves a careful trace. */
  lemma {:induction false} CrashIsCareful(trace: seq<Call>, n: nat)
    requires Careful(trace) && n <= |trace|
    ensures Careful(trace[..n])
    decreases |trace|
  {
    if n < |trace| {
      CrashIsCareful(trace[..|trace| - 1], n);
      assert trace[..|trace| - 1][..n] == trace[..n];
    } else {
      assert trace[..n] == trace;
    }
  }

  lemma {:induction false} CarefulConcat(a: seq<Call>, b: seq<Call>)
    requires Careful(a) && Careful(b)
    ensures Careful(a + b)
    decreases |b|
  {
    if b == [] {
      assert a + b == a;
    } else {
      CarefulConcat(a, b[..|b| - 1]);
      assert (a + b)[..|a + b| - 1] == a + b[..|b| - 1];
    }
  }

  /** Passes one after the other, each cut off at any call. */
  function Flatten(passes: seq<seq<Call>>): seq<Call> {
    if passes == [] then [] else Flatten(passes[..|passes| - 1]) + passes[|passes| - 1]
  }

  lemma {:induction false} MarkedEarned(trace: seq<Call>, id: nat)
    requires Careful(trace) && id in Marked(trace)
    ensures Earned(trace, id)
    decreases |trace|
  {
    var before, last := trace[..|trace| - 1], trace[|trace| - 1];
    assert trace == before + [last];
    if last.Mark? && id in last.ids {
    } else {
      MarkedEarned(before, id);
    }
  }

  /** At least once, across any number of crashes: over any sequence of passes, each of them cut off anywhere, a row
      leaves the pending set only if a post of it landed or it was waived. */
  lemma {:induction false} NothingLost(passes: seq<seq<Call>>, cut: seq<nat>, id: nat)
    requires |cut| == |passes| && forall i :: 0 <= i < |passes| ==> Careful(passes[i]) && cut[i] <= |passes[i]|
    requires id in Marked(Flatten(seq(|passes|, i requires 0 <= i < |passes| => passes[i][..cut[i]])))
    ensures Earned(Flatten(seq(|passes|, i requires 0 <= i < |passes| => passes[i][..cut[i]])), id)
  {
    var crashed := seq(|passes|, i requires 0 <= i < |passes| => passes[i][..cut[i]]);
    forall i | 0 <= i < |crashed| ensures Careful(crashed[i]) {
      CrashIsCareful(passes[i], cut[i]);
    }
    CarefulFlatten(crashed);
    MarkedEarned(Flatten(crashed), id);
  }

  lemma {:induction false} CarefulFlatten(passes: seq<seq<Call>>)
    requires forall i :: 0 <= i < |passes| ==> Careful(passes[i])
    ensures Careful(Flatten(passes))
  {
    if passes != [] {
      CarefulFlatten(passes[..|passes| - 1]);
      CarefulConcat(Flatten(passes[..|passes| - 1]), passes[|passes| - 1]);
    }
  }
}
