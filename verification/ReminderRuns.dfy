/** The reminder sweep over many passes (apps/bridge-bot/src/reminders.ts:40-75): who waits behind whom, and for how
    long. */
module ReminderRuns {
  import opened Prelude
  import opened SweepTrace
  import opened Reminders

  /** The rows a pass settles: their post lands, or they are more than a day overdue. */
  function Settles(due: seq<Reminder>, lands: nat -> bool, now: int): set<nat> {
    set i | 0 <= i < |due| && (lands(i) || Overdue(due[i], now)) :: due[i].id
  }

  /** What is delivered after a pass. */
  function Swept(listed: seq<Reminder>, delivered: set<nat>, now: int, lands: nat -> bool, limit: nat): set<nat> {
    delivered + Settles(Due(listed, delivered, now, limit), lands, now)
  }

  lemma {:induction false} PostedAt(due: seq<Reminder>, lands: nat -> bool, trace: seq<Call>, i: nat)
    requires DistinctIds(due) && Posts(trace) == PostsOf(due, |due|, lands) && i < |due|
    ensures Post(due[i].id, true) in trace <==> lands(i)
  {
    FilterMember(trace, IsPost, Post(due[i].id, true));
    var posts := Posts(trace);
    if Post(due[i].id, true) in posts {
      var j :| 0 <= j < |posts| && posts[j] == Post(due[i].id, true);
      assert due[j].id == due[i].id;
    } else {
      assert posts[i] == Post(due[i].id, lands(i));
    }
  }

  lemma SettledAsCalled(due: seq<Reminder>, lands: nat -> bool, trace: seq<Call>, now: int)
    requires DistinctIds(due) && Posts(trace) == PostsOf(due, |due|, lands)
    ensures SettledIds(due, trace, now) == Settles(due, lands, now)
  {
    forall i | 0 <= i < |due| ensures Post(due[i].id, true) in trace <==> lands(i) {
      PostedAt(due, lands, trace, i);
    }
  }

  /** It is what the sweep leaves behind, by the promises of its contract. */
  lemma SweepLeavesSwept(listed: seq<Reminder>, delivered0: set<nat>, now: int, lands: nat -> bool, limit: nat,
                         delivered: set<nat>, trace: seq<Call>)
    requires DistinctIds(listed) && delivered == delivered0 + Marked(trace)
    requires var due := Due(listed, delivered0, now, limit);
             Posts(trace) == PostsOf(due, |due|, lands) && Marked(trace) == SettledIds(due, trace, now)
    ensures delivered == Swept(listed, delivered0, now, lands, limit)
  {
    hide Due, Settles, DistinctIds, PostsOf, Posts, SettledIds, Marked;
    DueDistinct(listed, delivered0, now, limit);
    SettledAsCalled(Due(listed, delivered0, now, limit), lands, trace, now);
  }

  // ----- who waits

  lemma DueWaits(listed: seq<Reminder>, delivered: set<nat>, now: int, limit: nat)
    ensures forall r :: r in Due(listed, delivered, now, limit) ==> r in listed && r.id !in delivered && r.dueAt <= now
  {
    forall r | r in Due(listed, delivered, now, limit) ensures r in listed && r.id !in delivered && r.dueAt <= now {
      FilterMember(listed, Awaiting(delivered, now), r);
    }
  }

  /** A pass gets anywhere exactly when some post of its batch lands or some row of it is more than a day overdue. */
  lemma PassStandsStillExactly(listed: seq<Reminder>, delivered: set<nat>, now: int, lands: nat -> bool, limit: nat)
    ensures var due := Due(listed, delivered, now, limit);
            Swept(listed, delivered, now, lands, limit) == delivered <==>
            forall i :: 0 <= i < |due| ==> !lands(i) && !Overdue(due[i], now)
  {
    var due := Due(listed, delivered, now, limit);
    DueWaits(listed, delivered, now, limit);
    hide Due, Overdue;
    forall i | 0 <= i < |due| && (lands(i) || Overdue(due[i], now)) ensures due[i].id in Settles(due, lands, now) {
    }
    assert forall i :: 0 <= i < |due| ==> due[i] in due;
  }

  // ----- many passes

  datatype Pass = Pass(now: int, lands: nat -> bool)

  function After(listed: seq<Reminder>, delivered: set<nat>, passes: seq<Pass>, limit: nat): set<nat> {
    if passes == [] then delivered
    else
      var n := |passes| - 1;
      Swept(listed, After(listed, delivered, passes[..n], limit), passes[n].now, passes[n].lands, limit)
  }

  /** What the k-th pass posts. */
  function DueIn(listed: seq<Reminder>, delivered: set<nat>, passes: seq<Pass>, k: nat, limit: nat): seq<Reminder>
    requires k < |passes|
  {
    Due(listed, After(listed, delivered, passes[..k], limit), passes[k].now, limit)
  }

  predicate OldestFirst(listed: seq<Reminder>) {
    forall i, j :: 0 <= i < j < |listed| ==> listed[i].dueAt <= listed[j].dueAt
  }

  /** What falls due later comes behind what is due already. */
  lemma {:induction false} LaterBehind(listed: seq<Reminder>, delivered: set<nat>, t: int, now: int)
    requires OldestFirst(listed) && t <= now
    ensures Filter(listed, Awaiting(delivered, t)) <= Filter(listed, Awaiting(delivered, now))
  {
    if listed != [] {
      LaterBehind(listed[1..], delivered, t, now);
      if !Awaiting(delivered, t)(listed[0]) && Awaiting(delivered, now)(listed[0]) {
        forall r | r in listed ensures !Awaiting(delivered, t)(r) {
          var i :| 0 <= i < |listed| && listed[i] == r;
        }
        FilterNone(listed, Awaiting(delivered, t));
      }
    }
  }

  lemma FullBatchStays(listed: seq<Reminder>, delivered: set<nat>, t: int, now: int, limit: nat)
    requires OldestFirst(listed) && t <= now && |Due(listed, delivered, t, limit)| == limit
    ensures Due(listed, delivered, now, limit) == Due(listed, delivered, t, limit)
  {
    LaterBehind(listed, delivered, t, now);
    hide Filter, Awaiting, OldestFirst;
  }

  /** The post of no row of the batch lands, and none is more than a day overdue yet. */
  predicate Fruitless(due: seq<Reminder>, pass: Pass) {
    forall i :: 0 <= i < |due| ==> !pass.lands(i) && !Overdue(due[i], pass.now)
  }

  /** A full batch whose posts fail holds up everything younger: for as long as none of its rows is more than a day
      overdue, every pass posts that batch and nothing else. */
  lemma {:induction false} FullBatchBlocks(listed: seq<Reminder>, delivered: set<nat>, t: int, passes: seq<Pass>, limit: nat)
    requires OldestFirst(listed) && |Due(listed, delivered, t, limit)| == limit
    requires forall k :: 0 <= k < |passes| ==> t <= passes[k].now && Fruitless(Due(listed, delivered, t, limit), passes[k])
    ensures After(listed, delivered, passes, limit) == delivered
    ensures forall k :: 0 <= k < |passes| ==> DueIn(listed, delivered, passes, k, limit) == Due(listed, delivered, t, limit)
  {
    hide Due, Fruitless, OldestFirst, Swept;
    if passes != [] {
      var n := |passes| - 1;
      FullBatchBlocks(listed, delivered, t, passes[..n], limit);
      FullBatchStays(listed, delivered, t, passes[n].now, limit);
      FruitlessPass(listed, delivered, passes[n], limit);
      forall k | 0 <= k < |passes| ensures DueIn(listed, delivered, passes, k, limit) == Due(listed, delivered, t, limit) {
        if k < n {
          assert passes[..n][..k] == passes[..k];
          assert DueIn(listed, delivered, passes[..n], k, limit) == DueIn(listed, delivered, passes, k, limit);
        }
      }
    }
  }

  lemma FruitlessPass(listed: seq<Reminder>, delivered: set<nat>, pass: Pass, limit: nat)
    requires Fruitless(Due(listed, delivered, pass.now, limit), pass)
    ensures Swept(listed, delivered, pass.now, pass.lands, limit) == delivered
  {
    PassStandsStillExactly(listed, delivered, pass.now, pass.lands, limit);
  }

  // ----- how long

  /** How many rows of `ahead` have not been delivered. */
  function Left(ahead: seq<Reminder>, delivered: set<nat>): nat {
    |Filter(ahead, Undelivered(delivered))|
  }

  function Undelivered(delivered: set<nat>): Reminder -> bool {
    (r: Reminder) => r.id !in delivered
  }

  /** At this pass everything ahead of `r` is more than a day overdue, and `r` is due. */
  predicate Ripe(ahead: seq<Reminder>, r: Reminder, now: int) {
    r.dueAt <= now && forall a :: a in ahead ==> Overdue(a, now)
  }

  /** What a ripe pass posts: the oldest of what is left ahead, then `r` if the batch reaches that far. */
  lemma RipeBatch(ahead: seq<Reminder>, r: Reminder, behind: seq<Reminder>, delivered: set<nat>, now: int, limit: nat)
    requires Ripe(ahead, r, now) && r.id !in delivered
    requires DistinctIds(ahead + [r] + behind)
    ensures var listed := ahead + [r] + behind;
            var left := Filter(ahead, Undelivered(delivered));
            var due := Due(listed, delivered, now, limit);
            && (r in due <==> Left(ahead, delivered) < limit)
            && (|left| >= limit ==> due == left[..limit])
  {
    var listed, left := ahead + [r] + behind, Filter(ahead, Undelivered(delivered));
    var keep := Awaiting(delivered, now);
    FilterSame(ahead, keep, Undelivered(delivered));
    FilterOne(ahead, r, keep);
    FilterAppend(ahead + [r], behind, keep);
    var rest := Filter(behind, keep);
    assert Filter(listed, keep) == left + [r] + rest;
    AheadDistinct(ahead, r, behind, delivered);
    hide Filter, Ripe, DistinctIds;
    if |left| < limit {
      assert (left + [r] + rest)[..Min(limit, |left + [r] + rest|)][|left|] == r;
    } else {
      assert (left + [r] + rest)[..limit] == left[..limit];
    }
  }

  /** A ripe pass that does not reach `r` settles a whole batch ahead of it. */
  lemma RipePass(ahead: seq<Reminder>, r: Reminder, behind: seq<Reminder>, delivered: set<nat>, pass: Pass, limit: nat)
    requires Ripe(ahead, r, pass.now) && r.id !in delivered && DistinctIds(ahead + [r] + behind)
    requires Left(ahead, delivered) >= limit
    ensures var delivered' := Swept(ahead + [r] + behind, delivered, pass.now, pass.lands, limit);
            Left(ahead, delivered') == Left(ahead, delivered) - limit && r.id !in delivered'
  {
    var left := Filter(ahead, Undelivered(delivered));
    var due := left[..limit];
    RipeBatch(ahead, r, behind, delivered, pass.now, limit);
    AheadDistinct(ahead, r, behind, delivered);
    assert forall i :: 0 <= i < |due| ==> due[i] in left;
    var gone := set i | 0 <= i < |due| :: due[i].id;
    assert Settles(due, pass.lands, pass.now) == gone;
    hide Ripe, Due, Settles, Filter;
    LeftOver(ahead, delivered, limit, gone);
  }

  lemma AheadDistinct(ahead: seq<Reminder>, r: Reminder, behind: seq<Reminder>, delivered: set<nat>)
    requires DistinctIds(ahead + [r] + behind)
    ensures var left := Filter(ahead, Undelivered(delivered));
            DistinctIds(left) && forall x :: x in left ==> x in ahead && x.id != r.id
  {
    assert forall i :: 0 <= i < |ahead| ==> (ahead + [r] + behind)[i] == ahead[i];
    assert (ahead + [r] + behind)[|ahead|] == r;
    DueDistinctAll(ahead, Undelivered(delivered));
    forall x | x in Filter(ahead, Undelivered(delivered)) ensures x in ahead && x.id != r.id {
      FilterMember(ahead, Undelivered(delivered), x);
    }
  }

  /** Settling the first of what is left leaves the others. */
  lemma LeftOver(ahead: seq<Reminder>, delivered: set<nat>, limit: nat, gone: set<nat>)
    requires var left := Filter(ahead, Undelivered(delivered));
             && DistinctIds(left) && limit <= |left| && gone == set i | 0 <= i < |left[..limit]| :: left[..limit][i].id
    ensures Left(ahead, delivered + gone) == Left(ahead, delivered) - limit
  {
    var left := Filter(ahead, Undelivered(delivered));
    FilterTwice(ahead, Undelivered(delivered), Undelivered(gone), Undelivered(delivered + gone));
    assert left == left[..limit] + left[limit..];
    FilterAppend(left[..limit], left[limit..], Undelivered(gone));
    FrontSettled(left, limit, gone);
    hide Filter, DistinctIds;
    FilterNone(left[..limit], Undelivered(gone));
    FilterAll(left[limit..], Undelivered(gone));
  }

  lemma FrontSettled(left: seq<Reminder>, limit: nat, gone: set<nat>)
    requires DistinctIds(left) && limit <= |left| && gone == set i | 0 <= i < |left[..limit]| :: left[..limit][i].id
    ensures forall x :: x in left[..limit] ==> !Undelivered(gone)(x)
    ensures forall x :: x in left[limit..] ==> Undelivered(gone)(x)
  {
  }

  lemma {:induction false} RipePasses(ahead: seq<Reminder>, r: Reminder, behind: seq<Reminder>, delivered: set<nat>,
                                      passes: seq<Pass>, limit: nat)
    requires DistinctIds(ahead + [r] + behind) && r.id !in delivered
    requires forall k :: 0 <= k < |passes| ==> Ripe(ahead, r, passes[k].now)
    requires |passes| * limit <= Left(ahead, delivered)
    ensures var delivered' := After(ahead + [r] + behind, delivered, passes, limit);
            Left(ahead, delivered') == Left(ahead, delivered) - |passes| * limit && r.id !in delivered'
  {
    hide Ripe, Left, Swept, DistinctIds;
    if passes != [] {
      var n := |passes| - 1;
      assert |passes| * limit == n * limit + limit;
      RipePasses(ahead, r, behind, delivered, passes[..n], limit);
      RipePass(ahead, r, behind, After(ahead + [r] + behind, delivered, passes[..n], limit), passes[n], limit);
    }
  }

  /** With n undelivered rows ahead of it, all of them more than a day overdue, a due reminder is posted in pass number
      floor(n / limit), counted from zero, and in none before. */
  lemma ReminderGetsThrough(ahead: seq<Reminder>, r: Reminder, behind: seq<Reminder>, delivered: set<nat>,
                            passes: seq<Pass>, limit: nat, k: nat)
    requires DistinctIds(ahead + [r] + behind) && r.id !in delivered && limit > 0
    requires forall j :: 0 <= j < |passes| ==> Ripe(ahead, r, passes[j].now)
    requires k < |passes| && k <= Left(ahead, delivered) / limit
    ensures r in DueIn(ahead + [r] + behind, delivered, passes, k, limit) <==> k == Left(ahead, delivered) / limit
  {
    hide Ripe, Left, DistinctIds, Due;
    var n := Left(ahead, delivered);
    BatchesBefore(n, k, limit);
    RipePasses(ahead, r, behind, delivered, passes[..k], limit);
    RipeBatch(ahead, r, behind, After(ahead + [r] + behind, delivered, passes[..k], limit), passes[k].now, limit);
  }

  lemma BatchesBefore(n: nat, k: nat, limit: nat)
    requires limit > 0 && k <= n / limit
    ensures k * limit <= n && (n - k * limit < limit <==> k == n / limit)
  {
    var q := n / limit;
    assert n == q * limit + n % limit;
    MulOrder(k, q, limit);
    if k < q {
      MulOrder(k + 1, q, limit);
      assert (k + 1) * limit == k * limit + limit;
    }
  }
}
