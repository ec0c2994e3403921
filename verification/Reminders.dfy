/** The reminder sweep (apps/bridge-bot/src/reminders.ts): deliver, then flip the flag; give up after a day. */
module Reminders {
  import opened Prelude
  import opened SweepTrace

  datatype Reminder = Reminder(id: nat, dueAt: int)

  const REMINDER_GIVE_UP_MS: int := 24 * 60 * 60_000

  predicate DistinctIds(rows: seq<Reminder>) {
    forall i, j :: 0 <= i < j < |rows| ==> rows[i].id != rows[j].id
  }

  predicate Overdue(r: Reminder, now: int) {
    now - r.dueAt > REMINDER_GIVE_UP_MS
  }

  /** Only reminders more than a day overdue are given up, and only after a post that did not land. */
  predicate GivenUpLate(trace: seq<Call>, due: seq<Reminder>, now: int) {
    forall k :: 0 <= k < |trace| && trace[k].Waive? ==>
      k > 0 && trace[k - 1] == Post(trace[k].id, false) && exists r :: r in due && r.id == trace[k].id && Overdue(r, now)
  }

  /** What one pass settles: every due reminder whose post landed, or that is more than a day overdue. */
  predicate SettledExactly(due: seq<Reminder>, n: nat, done: seq<nat>, trace: seq<Call>, now: int)
    requires n <= |due|
  {
    forall i :: 0 <= i < n ==> (due[i].id in done <==> Post(due[i].id, true) in trace || Overdue(due[i], now))
  }

  /** One of the first `n` reminders. */
  predicate OfFirst(due: seq<Reminder>, n: nat, id: nat)
    requires n <= |due|
  {
    exists i :: 0 <= i < n && due[i].id == id
  }

  predicate Touched(trace: seq<Call>, due: seq<Reminder>, n: nat)
    requires n <= |due|
  {
    forall c :: c in trace ==> !c.Mark? && OfFirst(due, n, c.id)
  }

  predicate DoneEarned(done: seq<nat>, trace: seq<Call>, due: seq<Reminder>, n: nat)
    requires n <= |due|
  {
    forall id :: id in done ==> Earned(trace, id) && OfFirst(due, n, id)
  }

  /** The state of the loop after `n` reminders. */
  predicate SweepSound(due: seq<Reminder>, n: nat, now: int, done: seq<nat>, abandoned: nat, trace: seq<Call>)
    requires n <= |due|
  {
    && Careful(trace) && NoRepeat(trace) && Marked(trace) == {}
    && Touched(trace, due, n) && DoneEarned(done, trace, due, n)
    && Landings(trace) + abandoned == |done| && Waivers(trace) == abandoned
    && GivenUpLate(trace, due, now) && SettledExactly(due, n, done, trace, now)
  }

  lemma SweepStarts(due: seq<Reminder>, now: int)
    ensures SweepSound(due, 0, now, [], 0, [])
  {
  }

  lemma PostKeeps(due: seq<Reminder>, n: nat, now: int, trace: seq<Call>, landed: bool)
    requires n < |due| && DistinctIds(due) && Careful(trace) && NoRepeat(trace)
    requires Touched(trace, due, n) && GivenUpLate(trace, due, now)
    ensures var t := trace + [Post(due[n].id, landed)];
            && Careful(t) && NoRepeat(t) && Marked(t) == Marked(trace) && GivenUpLate(t, due, now)
            && Landings(t) == Landings(trace) + (if landed then 1 else 0) && Waivers(t) == Waivers(trace)
  {
    CarefulAppend(trace, Post(due[n].id, landed));
    var t := trace + [Post(due[n].id, landed)];
    forall i, j | 0 <= i < j < |t| && IsLanded(t[i]) && t[j].Post? ensures t[i].id != t[j].id {
      assert t[i] == trace[i] && trace[i] in trace;
    }
  }

  lemma WaiveKeeps(due: seq<Reminder>, n: nat, now: int, trace: seq<Call>)
    requires n < |due| && Careful(trace) && NoRepeat(trace) && GivenUpLate(trace, due, now) && Overdue(due[n], now)
    requires trace != [] && trace[|trace| - 1] == Post(due[n].id, false)
    ensures var t := trace + [Waive(due[n].id)];
            && Careful(t) && NoRepeat(t) && Marked(t) == Marked(trace) && GivenUpLate(t, due, now)
            && Landings(t) == Landings(trace) && Waivers(t) == Waivers(trace) + 1
  {
    CarefulAppend(trace, Waive(due[n].id));
    WaiveLate(due, n, now, trace);
    hide Careful, Marked, Landings, Waivers, GivenUpLate, Overdue;
    var t := trace + [Waive(due[n].id)];
    assert forall i :: 0 <= i < |trace| ==> t[i] == trace[i];
  }

  lemma WaiveLate(due: seq<Reminder>, n: nat, now: int, trace: seq<Call>)
    requires n < |due| && GivenUpLate(trace, due, now) && Overdue(due[n], now)
    requires trace != [] && trace[|trace| - 1] == Post(due[n].id, false)
    ensures GivenUpLate(trace + [Waive(due[n].id)], due, now)
  {
    var t := trace + [Waive(due[n].id)];
    assert due[n] in due;
    forall k | 0 <= k < |trace| && t[k].Waive?
      ensures k > 0 && t[k - 1] == Post(t[k].id, false) && exists r :: r in due && r.id == t[k].id && Overdue(r, now)
    {
      assert t[k] == trace[k] && t[k - 1] == trace[k - 1];
    }
  }

  /** Reminder `n` is called about: what was done stays earned, and reminder `n` is among the touched. */
  lemma CallAdded(due: seq<Reminder>, n: nat, m: nat, done: seq<nat>, trace: seq<Call>, c: Call)
    requires n <= m <= n + 1 && m <= |due|
    requires m > 0 && !c.Mark? && c.id == due[m - 1].id
    requires Touched(trace, due, n) && DoneEarned(done, trace, due, n)
    ensures Touched(trace + [c], due, m) && DoneEarned(done, trace + [c], due, m)
    ensures IsLanded(c) || c.Waive? ==> DoneEarned(done + [c.id], trace + [c], due, m)
  {
  }

  /** The verdict on reminder `n` joins the others. */
  lemma SettledNext(due: seq<Reminder>, n: nat, now: int, done: seq<nat>, trace: seq<Call>, more: seq<Call>)
    requires n < |due| && DistinctIds(due) && SettledExactly(due, n, done, trace, now)
    requires Touched(trace, due, n) && DoneEarned(done, trace, due, n)
    requires forall c :: c in more ==> !c.Mark? && c.id == due[n].id
    ensures var settled := Post(due[n].id, true) in more || Overdue(due[n], now);
            SettledExactly(due, n + 1, if settled then done + [due[n].id] else done, trace + more, now)
  {
  }

  lemma LandedNext(due: seq<Reminder>, n: nat, now: int, done: seq<nat>, abandoned: nat, trace: seq<Call>)
    requires n < |due| && DistinctIds(due) && SweepSound(due, n, now, done, abandoned, trace)
    ensures SweepSound(due, n + 1, now, done + [due[n].id], abandoned, trace + [Post(due[n].id, true)])
  {
    hide Careful, NoRepeat, Marked, Landings, Waivers, GivenUpLate, Touched, DoneEarned, SettledExactly, DistinctIds;
    PostKeeps(due, n, now, trace, true);
    CallAdded(due, n, n + 1, done, trace, Post(due[n].id, true));
    SettledNext(due, n, now, done, trace, [Post(due[n].id, true)]);
  }

  lemma KeptNext(due: seq<Reminder>, n: nat, now: int, done: seq<nat>, abandoned: nat, trace: seq<Call>)
    requires n < |due| && DistinctIds(due) && SweepSound(due, n, now, done, abandoned, trace) && !Overdue(due[n], now)
    ensures SweepSound(due, n + 1, now, done, abandoned, trace + [Post(due[n].id, false)])
  {
    hide Careful, NoRepeat, Marked, Landings, Waivers, GivenUpLate, Touched, DoneEarned, SettledExactly, DistinctIds;
    PostKeeps(due, n, now, trace, false);
    CallAdded(due, n, n + 1, done, trace, Post(due[n].id, false));
    SettledNext(due, n, now, done, trace, [Post(due[n].id, false)]);
  }

  lemma AbandonedNext(due: seq<Reminder>, n: nat, now: int, done: seq<nat>, abandoned: nat, trace: seq<Call>)
    requires n < |due| && DistinctIds(due) && SweepSound(due, n, now, done, abandoned, trace) && Overdue(due[n], now)
    ensures SweepSound(due, n + 1, now, done + [due[n].id], abandoned + 1, trace + [Post(due[n].id, false)] + [Waive(due[n].id)])
  {
    hide Careful, NoRepeat, Marked, Landings, Waivers, GivenUpLate, Touched, DoneEarned, SettledExactly, DistinctIds;
    var post, waive := Post(due[n].id, false), Waive(due[n].id);
    PostKeeps(due, n, now, trace, false);
    CallAdded(due, n, n + 1, done, trace, post);
    WaiveKeeps(due, n, now, trace + [post]);
    CallAdded(due, n + 1, n + 1, done, trace + [post], waive);
    SettledNext(due, n, now, done, trace, [post, waive]);
    assert trace + [post] + [waive] == trace + [post, waive];
  }

  // ----- every due reminder is tried

  predicate IsPost(c: Call) {
    c.Post?
  }

  function Posts(trace: seq<Call>): seq<Call> {
    Filter(trace, IsPost)
  }

  /** One post for each of the first `n` reminders, in order, with its fate. */
  function PostsOf(due: seq<Reminder>, n: nat, lands: nat -> bool): (r: seq<Call>)
    requires n <= |due|
    ensures |r| == n && forall i :: 0 <= i < n ==> r[i] == Post(due[i].id, lands(i))
  {
    seq(n, i requires 0 <= i < n => Post(due[i].id, lands(i)))
  }

  lemma PostsNext(due: seq<Reminder>, n: nat, lands: nat -> bool, trace: seq<Call>, c: Call)
    requires n < |due| && Posts(trace) == PostsOf(due, n, lands) && !c.Post?
    ensures Posts(trace + [Post(due[n].id, lands(n))]) == PostsOf(due, n + 1, lands)
    ensures Posts(trace + [Post(due[n].id, lands(n))] + [c]) == PostsOf(due, n + 1, lands)
  {
    var post := Post(due[n].id, lands(n));
    FilterOne(trace, post, IsPost);
    FilterOne(trace + [post], c, IsPost);
    assert PostsOf(due, n + 1, lands) == PostsOf(due, n, lands) + [post];
  }

  lemma {:induction false} PostsLand(trace: seq<Call>)
    ensures Landings(Posts(trace)) == Landings(trace)
  {
    if trace != [] {
      PostsLand(trace[1..]);
      if IsPost(trace[0]) {
        CountAppend([trace[0]], Posts(trace[1..]), IsLanded);
        assert [trace[0]][1..] == [];
      } else {
        assert [] + Posts(trace[1..]) == Posts(trace[1..]);
      }
    }
  }

  lemma {:induction false} LandingsFull(calls: seq<Call>)
    requires forall c :: c in calls ==> IsLanded(c)
    ensures Landings(calls) == |calls|
  {
    if calls != [] {
      LandingsFull(calls[1..]);
    }
  }

  function DueIds(due: seq<Reminder>): set<nat> {
    set r | r in due :: r.id
  }

  /** When every post lands, everything due is settled by its post. */
  lemma AllSettled(due: seq<Reminder>, lands: nat -> bool, trace: seq<Call>, now: int)
    requires Posts(trace) == PostsOf(due, |due|, lands) && forall i :: 0 <= i < |due| ==> lands(i)
    ensures Landings(trace) == |due| && SettledIds(due, trace, now) == DueIds(due)
  {
    PostsLand(trace);
    LandingsFull(Posts(trace));
    forall r | r in due ensures Post(r.id, true) in trace {
      var i :| 0 <= i < |due| && due[i] == r;
      assert Posts(trace)[i] == Post(r.id, true);
      FilterMember(trace, IsPost, Post(r.id, true));
    }
  }

  /** The loop of a pass. `lands(n)` says whether the n-th post lands. */
  method DeliverAll(due: seq<Reminder>, now: int, lands: nat -> bool)
    returns (done: seq<nat>, abandoned: nat, trace: seq<Call>)
    requires DistinctIds(due)
    ensures SweepSound(due, |due|, now, done, abandoned, trace)
    ensures Posts(trace) == PostsOf(due, |due|, lands)
  {
    done, abandoned, trace := [], 0, [];
    SweepStarts(due, now);
    assert Posts([]) == PostsOf(due, 0, lands);
    hide SweepSound, DistinctIds, Posts, PostsOf;
    for i := 0 to |due|
      invariant SweepSound(due, i, now, done, abandoned, trace)
      invariant Posts(trace) == PostsOf(due, i, lands)
    {
      var r := due[i];
      PostsNext(due, i, lands, trace, Waive(r.id));
      var ok := lands(i);
      if ok {
        LandedNext(due, i, now, done, abandoned, trace);
        trace, done := trace + [Post(r.id, true)], done + [r.id];
      } else if now - r.dueAt > REMINDER_GIVE_UP_MS {
        AbandonedNext(due, i, now, done, abandoned, trace);
        trace, done := trace + [Post(r.id, false)] + [Waive(r.id)], done + [r.id];
        abandoned := abandoned + 1;
      } else {
        KeptNext(due, i, now, done, abandoned, trace);
        trace := trace + [Post(r.id, false)];
      }
    }
  }

  /** One pass over the due reminders, oldest first and at most `limit`: each is posted exactly once, and what is settled
      is cleared. When every post lands, that is all of them. */
  method SweepRemindersOnce(listed: seq<Reminder>, delivered0: set<nat>, now: int, lands: nat -> bool, limit: nat)
    returns (count: nat, delivered: set<nat>, trace: seq<Call>)
    requires DistinctIds(listed)
    ensures Careful(trace) && NoRepeat(trace)
    ensures delivered == delivered0 + Marked(trace)
    ensures count == Landings(trace)
    ensures var due := Due(listed, delivered0, now, limit);
            && GivenUpLate(trace, due, now)
            && Posts(trace) == PostsOf(due, |due|, lands)
            && Marked(trace) == SettledIds(due, trace, now)
            && ((forall i :: 0 <= i < |due| ==> lands(i)) ==> count == |due| && Marked(trace) == DueIds(due))
  {
    hide Posts, PostsOf, DueIds;
    hide SweepSound, Careful, NoRepeat, Marked, Landings, GivenUpLate, Due, DistinctIds, SettledIds;
    var due := Due(listed, delivered0, now, limit);
    DueDistinct(listed, delivered0, now, limit);
    var done, abandoned;
    done, abandoned, trace := DeliverAll(due, now, lands);
    delivered := delivered0;
    FinishSweep(due, now, done, abandoned, trace);
    PostsMarked(trace, done);
    if done != [] {
      trace := trace + [Mark(done)];
      delivered := delivered + set id | id in done;
    }
    count := |done| - abandoned;
    if forall i :: 0 <= i < |due| ==> lands(i) {
      AllSettled(due, lands, trace, now);
    }
  }

  lemma PostsMarked(trace: seq<Call>, done: seq<nat>)
    ensures Posts(trace + [Mark(done)]) == Posts(trace)
  {
    FilterOne(trace, Mark(done), IsPost);
  }

  /** The pass as a whole, once the settled rows are cleared. */
  lemma FinishSweep(due: seq<Reminder>, now: int, done: seq<nat>, abandoned: nat, posts: seq<Call>)
    requires SweepSound(due, |due|, now, done, abandoned, posts)
    ensures var t := if done == [] then posts else posts + [Mark(done)];
            && Careful(t) && NoRepeat(t) && GivenUpLate(t, due, now) && Landings(t) + abandoned == |done|
            && Marked(t) == (set id | id in done)
            && Marked(t) == SettledIds(due, t, now)
  {
    var t := if done == [] then posts else posts + [Mark(done)];
    assert forall id :: id in done ==> Earned(posts, id) && OfFirst(due, |due|, id);
    hide Careful, NoRepeat, Marked, Landings, GivenUpLate, SettledExactly, Waivers, Earned, SettledIds, Touched;
    SettledSet(due, done, posts, now);
    if done != [] {
      MarkKeeps(due, now, done, posts);
    }
  }

  lemma MarkKeeps(due: seq<Reminder>, now: int, done: seq<nat>, trace: seq<Call>)
    requires Careful(trace) && NoRepeat(trace) && GivenUpLate(trace, due, now)
    requires forall id :: id in done ==> Earned(trace, id)
    ensures var t := trace + [Mark(done)];
            && Careful(t) && NoRepeat(t) && GivenUpLate(t, due, now)
            && Marked(t) == Marked(trace) + (set id | id in done)
            && Landings(t) == Landings(trace)
  {
    CarefulAppend(trace, Mark(done));
    var t := trace + [Mark(done)];
    assert forall i :: 0 <= i < |trace| ==> t[i] == trace[i];
  }

  /** The rows that need no further pass: their post landed, or they are more than a day overdue. */
  function SettledIds(due: seq<Reminder>, trace: seq<Call>, now: int): set<nat> {
    set r | r in due && (Post(r.id, true) in trace || Overdue(r, now)) :: r.id
  }

  lemma SettledSet(due: seq<Reminder>, done: seq<nat>, trace: seq<Call>, now: int)
    requires SettledExactly(due, |due|, done, trace, now)
    requires forall id :: id in done ==> OfFirst(due, |due|, id)
    ensures (set id | id in done) == SettledIds(due, trace, now)
  {
  }

  function Awaiting(delivered: set<nat>, now: int): Reminder -> bool {
    (r: Reminder) => r.id !in delivered && r.dueAt <= now
  }

  /** The database query. */
  function Due(listed: seq<Reminder>, delivered: set<nat>, now: int, limit: nat): seq<Reminder> {
    var all := Filter(listed, Awaiting(delivered, now));
    all[..Min(limit, |all|)]
  }

  lemma {:induction false} DueDistinctAll(listed: seq<Reminder>, keep: Reminder -> bool)
    requires DistinctIds(listed)
    ensures DistinctIds(Filter(listed, keep))
  {
    if listed != [] {
      DueDistinctAll(listed[1..], keep);
      forall r | r in Filter(listed[1..], keep) ensures r.id != listed[0].id {
        FilterMember(listed[1..], keep, r);
      }
    }
  }

  lemma DueDistinct(listed: seq<Reminder>, delivered: set<nat>, now: int, limit: nat)
    requires DistinctIds(listed)
    ensures DistinctIds(Due(listed, delivered, now, limit))
  {
    DueDistinctAll(listed, Awaiting(delivered, now));
  }
}
