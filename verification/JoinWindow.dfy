/** How many joins have happened lately, per guild (apps/admin-bot/src/raid-gate.ts:38-59). Windows are in
    milliseconds here; the source multiplies its seconds by 1000. */
module JoinWindow {
  import opened Prelude

  function After(cutoff: int): int -> bool {
    (t: int) => t > cutoff
  }

  function TimesOf(m: map<string, seq<int>>, g: string): seq<int> {
    if g in m then m[g] else []
  }

  function Recorded(m: map<string, seq<int>>, g: string, window: int, at: int): map<string, seq<int>> {
    m[g := Filter(TimesOf(m, g), After(at - window)) + [at]]
  }

  function Pruned(m: map<string, seq<int>>, window: int, at: int): map<string, seq<int>> {
    map g | g in m && Filter(m[g], After(at - window)) != [] :: Filter(m[g], After(at - window))
  }

  class JoinWindow {
    var times: map<string, seq<int>>

    constructor ()
      ensures times == map[]
    {
      times := map[];
    }

    /** Record a join and report how many are inside the window, this one included. */
    method Record(g: string, window: int, at: int) returns (count: nat)
      modifies this
      ensures times == Recorded(old(times), g, window, at)
      ensures count == |times[g]|
    {
      var kept := Filter(if g in times then times[g] else [], After(at - window));
      kept := kept + [at];
      times := times[g := kept];
      return |kept|;
    }

    /** Drop guilds nobody has joined lately. One window is applied to every guild. */
    method Prune(window: int, at: int)
      modifies this
      ensures times == Pruned(old(times), window, at)
    {
      hide Filter;
      var cutoff := at - window;
      var guilds := times.Keys;
      ghost var goal := Pruned(times, window, at);
      while guilds != {}
        invariant guilds <= times.Keys <= old(times).Keys
        invariant forall g :: g in guilds ==> times[g] == old(times)[g]
        invariant forall g :: g in times && g !in guilds ==> g in goal && times[g] == goal[g]
        invariant forall g :: g in goal ==> g in times
        decreases |guilds|
      {
        var g :| g in guilds;
        var kept := Filter(times[g], After(cutoff));
        if |kept| == 0 {
          times := times - {g};
        } else {
          times := times[g := kept];
        }
        guilds := guilds - {g};
      }
    }
  }

  // ----- runs

  datatype Op = Record(guild: string, window: int, at: int) | Prune(window: int, at: int)

  function Apply(m: map<string, seq<int>>, op: Op): map<string, seq<int>> {
    match op
    case Record(g, window, at) => Recorded(m, g, window, at)
    case Prune(window, at) => Pruned(m, window, at)
  }

  function Run(m: map<string, seq<int>>, ops: seq<Op>): map<string, seq<int>> {
    if ops == [] then m else Apply(Run(m, ops[..|ops| - 1]), ops[|ops| - 1])
  }

  /** Windows are positive and the clock never goes back. */
  predicate Orderly(ops: seq<Op>) {
    (forall i :: 0 <= i < |ops| ==> ops[i].window > 0) &&
    (forall i, j :: 0 <= i < j < |ops| ==> ops[i].at <= ops[j].at)
  }

  /** Every join of the guild ever recorded. */
  function Joins(ops: seq<Op>, g: string): seq<int> {
    if ops == [] then []
    else
      var op := ops[|ops| - 1];
      Joins(ops[..|ops| - 1], g) + if op.Record? && op.guild == g then [op.at] else []
  }

  /** An operation that forgets joins of `g` no later than its cutoff: a record for `g`, or any prune. */
  predicate Touches(op: Op, g: string) {
    op.Record? ==> op.guild == g
  }

  /** What is left of the history of `g`: the joins later than every cutoff applied to it. */
  function Survivors(ops: seq<Op>, g: string): int -> bool {
    (t: int) => forall i :: 0 <= i < |ops| && Touches(ops[i], g) ==> t > ops[i].at - ops[i].window
  }

  lemma SurvivorsStep(ops: seq<Op>, op: Op, g: string, t: int)
    ensures Survivors(ops + [op], g)(t) <==>
            Survivors(ops, g)(t) && (Touches(op, g) ==> t > op.at - op.window)
  {
    var more := ops + [op];
    assert forall i :: 0 <= i < |ops| ==> more[i] == ops[i];
    assert more[|ops|] == op;
  }

  lemma {:induction false} JoinsPast(ops: seq<Op>, g: string, until: int)
    requires forall i :: 0 <= i < |ops| ==> ops[i].at <= until
    ensures forall t :: t in Joins(ops, g) ==> t <= until
  {
    if ops != [] {
      JoinsPast(ops[..|ops| - 1], g, until);
    }
  }

  function Stamp(op: Op, g: string): seq<int> {
    if op.Record? && op.guild == g then [op.at] else []
  }

  /** One operation on one guild's list: the cutoff, if it applies, and the new join, if there is one. */
  lemma TimesAfter(m: map<string, seq<int>>, op: Op, g: string)
    ensures TimesOf(Apply(m, op), g) ==
            (if Touches(op, g) then Filter(TimesOf(m, g), After(op.at - op.window)) else TimesOf(m, g)) + Stamp(op, g)
  {
  }

  lemma SurvivorsAfter(joins: seq<int>, before: seq<Op>, op: Op, g: string)
    ensures Filter(joins, Survivors(before + [op], g)) ==
            if Touches(op, g) then Filter(Filter(joins, Survivors(before, g)), After(op.at - op.window))
            else Filter(joins, Survivors(before, g))
  {
    forall t | t in joins
      ensures Survivors(before + [op], g)(t) <==>
              Survivors(before, g)(t) && (Touches(op, g) ==> t > op.at - op.window)
    {
      SurvivorsStep(before, op, g, t);
    }
    hide Survivors, Touches;
    if Touches(op, g) {
      FilterTwice(joins, Survivors(before, g), After(op.at - op.window), Survivors(before + [op], g));
    } else {
      FilterSame(joins, Survivors(before, g), Survivors(before + [op], g));
    }
  }

  lemma StampSurvives(before: seq<Op>, op: Op, g: string)
    requires Orderly(before + [op])
    ensures Filter(Stamp(op, g), Survivors(before + [op], g)) == Stamp(op, g)
  {
    var all := before + [op];
    assert all[|before|] == op;
    assert forall i :: 0 <= i < |all| ==> all[i].window > 0 && all[i].at <= op.at;
    FilterAll(Stamp(op, g), Survivors(all, g));
  }

  /** For any interleaving of records and prunes with any windows: what is stored for a guild is exactly its full
      history minus what some cutoff applied to it has passed. */
  lemma {:induction false} StoredIsHistory(ops: seq<Op>, g: string)
    requires Orderly(ops)
    ensures TimesOf(Run(map[], ops), g) == Filter(Joins(ops, g), Survivors(ops, g))
  {
    if ops != [] {
      var before, op := ops[..|ops| - 1], ops[|ops| - 1];
      assert ops == before + [op] && Orderly(before);
      StoredIsHistory(before, g);
      var joins := Joins(before, g);
      assert Joins(ops, g) == joins + Stamp(op, g);
      assert Run(map[], ops) == Apply(Run(map[], before), op);
      hide Filter, Survivors, TimesOf, Apply, Stamp, Run, Joins, Touches, After, Orderly;
      TimesAfter(Run(map[], before), op, g);
      SurvivorsAfter(joins, before, op, g);
      StampSurvives(before, op, g);
      FilterAppend(joins, Stamp(op, g), Survivors(ops, g));
    }
  }

  /** What `record` returns after `ops`. */
  function CountReported(ops: seq<Op>, g: string, window: int, at: int): nat {
    |TimesOf(Recorded(Run(map[], ops), g, window, at), g)|
  }

  /** Every join of the guild ever recorded that lies inside the window, this one included. */
  function CountInWindow(ops: seq<Op>, g: string, window: int, at: int): nat {
    |Filter(Joins(ops, g) + [at], After(at - window))|
  }

  /** An earlier operation dropped a join that the window of this call still covers. */
  predicate Forgotten(ops: seq<Op>, g: string, cutoff: int) {
    exists t :: t in Joins(ops, g) && t > cutoff && !Survivors(ops, g)(t)
  }

  /** `record` reports the number of joins ever recorded inside its window exactly when nothing inside it has been
      forgotten under another window. */
  lemma CountExactUnlessForgotten(ops: seq<Op>, g: string, window: int, at: int)
    requires Orderly(ops + [Record(g, window, at)])
    ensures CountReported(ops, g, window, at) == CountInWindow(ops, g, window, at) <==> !Forgotten(ops, g, at - window)
  {
    hide CountReported, CountInWindow, Orderly, Filter, Run, Joins, TimesOf, Survivors;
    OrderlyBefore(ops, Record(g, window, at));
    StoredIsHistory(ops, g);
    CountsSplit(ops, g, window, at);
    var joins := Joins(ops, g);
    var both := (t: int) => Survivors(ops, g)(t) && t > at - window;
    FilterTwice(joins, Survivors(ops, g), After(at - window), both);
    FilterShorter(joins, both, After(at - window));
  }

  lemma OrderlyBefore(ops: seq<Op>, op: Op)
    requires Orderly(ops + [op])
    ensures Orderly(ops) && op.window > 0
  {
    var now := ops + [op];
    assert now[|ops|] == op;
    assert forall i :: 0 <= i < |ops| ==> now[i] == ops[i];
  }

  lemma CountsSplit(ops: seq<Op>, g: string, window: int, at: int)
    requires window > 0
    ensures CountReported(ops, g, window, at) == |Filter(TimesOf(Run(map[], ops), g), After(at - window))| + 1
    ensures CountInWindow(ops, g, window, at) == |Filter(Joins(ops, g), After(at - window))| + 1
  {
    hide Run, Joins;
    FilterOne(Joins(ops, g), at, After(at - window));
  }

  /** With one shared, fixed window the count is the full history's, however prunes interleave. */
  lemma SharedWindowCountsEverything(ops: seq<Op>, g: string, window: int, at: int)
    requires Orderly(ops + [Record(g, window, at)]) && forall i :: 0 <= i < |ops| ==> ops[i].window == window
    ensures CountReported(ops, g, window, at) == CountInWindow(ops, g, window, at)
  {
    CountExactUnlessForgotten(ops, g, window, at);
    var now := ops + [Record(g, window, at)];
    forall i | 0 <= i < |ops| ensures ops[i].at <= at {
      assert now[i].at <= now[|ops|].at;
    }
  }

  /** One guild's short window, applied by a prune to every guild, makes another guild undercount. */
  lemma ForeignWindowUndercounts()
    ensures var ops := [Record("a", 60_000, 0), Prune(1_000, 5_000)];
            CountReported(ops, "a", 60_000, 6_000) == 1 && CountInWindow(ops, "a", 60_000, 6_000) == 2
  {
    var r, p := Record("a", 60_000, 0), Prune(1_000, 5_000);
    var ops := [r, p];
    assert ops[..1] == [r] && [r][..0] == [];
    FilterZero(0, 4_000);
    var none: map<string, seq<int>> := map[];
    FromNone(none, 0);
    FromNone(none, 6_000);
    assert Run(none, [r]) == map["a" := [0]];
    assert Run(none, ops) == Pruned(map["a" := [0]], 1_000, 5_000) == none;
    var empty: seq<Op> := [];
    assert Joins(empty, "a") == [];
    assert Joins([r], "a") == Joins([r][..0], "a") + [0] == [0];
    assert Joins(ops, "a") == Joins([r], "a") + [] == [0];
    FilterAppend([0], [6_000], After(-54_000));
    FilterZero(0, -54_000);
    FilterZero(6_000, -54_000);
  }

  lemma FromNone(none: map<string, seq<int>>, at: int)
    requires none == map[]
    ensures Recorded(none, "a", 60_000, at) == map["a" := [at]]
  {
    assert TimesOf(none, "a") == [];
    assert Filter(TimesOf(none, "a"), After(at - 60_000)) == [];
    assert [] + [at] == [at];
  }

  lemma FilterZero(t: int, cutoff: int)
    ensures Filter([t], After(cutoff)) == if t > cutoff then [t] else []
  {
  }
}
