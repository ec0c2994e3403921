/** The milestone and level-up announcers (apps/bridge-bot/src/milestones.ts, apps/bridge-bot/src/levels.ts). The
    two passes are the same loop; only level-ups have opt-outs. The queue is read oldest first. */
module Announcers {
  import opened Prelude
  import opened SweepTrace

  datatype Row = Row(id: nat, guildId: string, discordId: string)

  const MAX_FETCHES: nat := 4

  predicate DistinctIds(rows: seq<Row>) {
    forall i, j :: 0 <= i < j < |rows| ==> rows[i].id != rows[j].id
  }

  function Waiting(announced: set<nat>, excluded: set<string>): Row -> bool {
    (r: Row) => r.id !in announced && r.guildId !in excluded
  }

  function HasChannel(channel: string -> Option<string>): Row -> bool {
    (r: Row) => channel(r.guildId).Some?
  }

  function Unannounced(announced: set<nat>): Row -> bool {
    (r: Row) => r.id !in announced
  }

  /** The database query: the oldest `limit` waiting rows of guilds not excluded. */
  function ListPending(rows: seq<Row>, announced: set<nat>, limit: nat, excluded: set<string>): (r: seq<Row>)
    ensures |r| <= limit
  {
    var waiting := Filter(rows, Waiting(announced, excluded));
    waiting[..Min(limit, |waiting|)]
  }

  /** What a pass could deliver: waiting rows of guilds that have a channel, oldest first. */
  function Deliverable(rows: seq<Row>, announced: set<nat>, channel: string -> Option<string>): seq<Row> {
    Filter(Filter(rows, Unannounced(announced)), HasChannel(channel))
  }

  /** Guilds without a channel that have waiting rows. */
  function Unconfigured(rows: seq<Row>, announced: set<nat>, channel: string -> Option<string>): set<string> {
    set r | r in rows && r.id !in announced && channel(r.guildId).None? :: r.guildId
  }

  function Ids(rows: seq<Row>): (ids: seq<nat>)
    ensures |ids| == |rows| && forall i :: 0 <= i < |rows| ==> ids[i] == rows[i].id
  {
    seq(|rows|, i requires 0 <= i < |rows| => rows[i].id)
  }

  // ----- what filtering does to the queue

  lemma {:induction false} FilterDistinct(rows: seq<Row>, keep: Row -> bool)
    requires DistinctIds(rows)
    ensures DistinctIds(Filter(rows, keep))
    ensures forall r :: r in Filter(rows, keep) ==> r in rows && keep(r)
  {
    forall r | r in Filter(rows, keep) ensures r in rows && keep(r) {
      FilterMember(rows, keep, r);
    }
    if rows != [] {
      FilterDistinct(rows[1..], keep);
      var rest := Filter(rows[1..], keep);
      forall r | r in rest ensures r.id != rows[0].id {
        FilterMember(rows[1..], keep, r);
      }
    }
  }

  /** Excluding only guilds without a channel does not change what is deliverable. */
  lemma ExclusionHarmless(rows: seq<Row>, announced: set<nat>, excluded: set<string>, channel: string -> Option<string>)
    requires forall g :: g in excluded ==> channel(g).None?
    ensures Filter(Filter(rows, Waiting(announced, excluded)), HasChannel(channel)) == Deliverable(rows, announced, channel)
  {
    var both := (r: Row) => r.id !in announced && channel(r.guildId).Some?;
    FilterTwice(rows, Waiting(announced, excluded), HasChannel(channel), both);
    FilterTwice(rows, Unannounced(announced), HasChannel(channel), both);
  }

  /** What is deliverable after some rows are cleared. */
  lemma ClearSome(rows: seq<Row>, announced: set<nat>, channel: string -> Option<string>, cleared: set<nat>)
    ensures Deliverable(rows, announced + cleared, channel)
            == Filter(Deliverable(rows, announced, channel), Unannounced(cleared))
  {
    var later := announced + cleared;
    var bound := (r: Row) => r.id !in announced && channel(r.guildId).Some?;
    var boundLater := (r: Row) => r.id !in later && channel(r.guildId).Some?;
    FilterTwice(rows, Unannounced(announced), HasChannel(channel), bound);
    FilterTwice(rows, Unannounced(later), HasChannel(channel), boundLater);
    FilterTwice(rows, bound, Unannounced(cleared), boundLater);
  }

  /** Clearing the first k deliverable rows leaves the others. */
  lemma ClearFront(rows: seq<Row>, announced: set<nat>, channel: string -> Option<string>, k: nat)
    requires DistinctIds(rows) && k <= |Deliverable(rows, announced, channel)|
    ensures var front := Deliverable(rows, announced, channel)[..k];
            Deliverable(rows, announced + (set id | id in Ids(front)), channel) == Deliverable(rows, announced, channel)[k..]
  {
    var d := Deliverable(rows, announced, channel);
    var bound := (r: Row) => r.id !in announced && channel(r.guildId).Some?;
    ClearSome(rows, announced, channel, set id | id in Ids(d[..k]));
    FilterTwice(rows, Unannounced(announced), HasChannel(channel), bound);
    FilterDistinct(rows, bound);
    SkipFront(d, k);
  }

  lemma SkipFront(d: seq<Row>, k: nat)
    requires DistinctIds(d) && k <= |d|
    ensures Filter(d, Unannounced(set id | id in Ids(d[..k]))) == d[k..]
  {
    var gone := set id | id in Ids(d[..k]);
    assert d == d[..k] + d[k..];
    FilterAppend(d[..k], d[k..], Unannounced(gone));
    FrontGone(d, k);
    assert forall r :: r in d[..k] ==> !Unannounced(gone)(r);
    assert forall r :: r in d[k..] ==> Unannounced(gone)(r);
    hide DistinctIds, Ids, Unannounced;
    FilterNone(d[..k], Unannounced(gone));
    FilterAll(d[k..], Unannounced(gone));
    assert [] + d[k..] == d[k..];
  }

  lemma FrontGone(d: seq<Row>, k: nat)
    requires DistinctIds(d) && k <= |d|
    ensures forall r :: r in d[..k] ==> r.id in Ids(d[..k])
    ensures forall r :: r in d[k..] ==> r.id !in Ids(d[..k])
  {
  }

  /** The first fetch rows that have a channel are the first deliverable ones. */
  lemma FetchedFront(rows: seq<Row>, announced: set<nat>, limit: nat, excluded: set<string>, channel: string -> Option<string>)
    requires forall g :: g in excluded ==> channel(g).None?
    ensures var pending := ListPending(rows, announced, limit, excluded);
            var d := Deliverable(rows, announced, channel);
            var mine := Filter(pending, HasChannel(channel));
            && |mine| <= |d| && mine == d[..|mine|]
            && (|pending| < limit ==> mine == d)
  {
    var waiting := Filter(rows, Waiting(announced, excluded));
    var pending := ListPending(rows, announced, limit, excluded);
    ExclusionHarmless(rows, announced, excluded, channel);
    assert waiting == pending + waiting[|pending|..];
    FilterAppend(pending, waiting[|pending|..], HasChannel(channel));
    if |pending| < limit {
      assert waiting[|pending|..] == [];
    }
  }

  // ----- the pass

  /** Rows the pass deals with carry ids that are neither cleared nor repeated. */
  lemma FetchedFresh(rows: seq<Row>, announced: set<nat>, limit: nat, excluded: set<string>)
    requires DistinctIds(rows)
    ensures var pending := ListPending(rows, announced, limit, excluded);
            && DistinctIds(pending)
            && forall r :: r in pending ==> r in rows && r.id !in announced && r.guildId !in excluded
  {
    FilterDistinct(rows, Waiting(announced, excluded));
    var pending := ListPending(rows, announced, limit, excluded);
    forall r | r in pending ensures r in rows && r.id !in announced && r.guildId !in excluded {
      FilterMember(rows, Waiting(announced, excluded), r);
    }
  }

  predicate AllLanded(trace: seq<Call>) {
    forall c :: c in trace && c.Post? ==> c.landed
  }

  /** What the trace says about landed posts: their rows are among `done`. */
  predicate LandedIn(trace: seq<Call>, done: set<nat>) {
    forall c :: c in trace && IsLanded(c) ==> c.id in done
  }

  /** What the pass does about a row of a guild that has a channel: waive it when its owner opted out, else post it. */
  predicate Answers(c: Call, r: Row, muted: bool) {
    !c.Mark? && c.id == r.id && (c.Waive? <==> muted)
  }

  /** The call itself, given whether a post would land. */
  function CallAbout(r: Row, muted: bool, lands: bool): Call {
    if muted then Waive(r.id) else Post(r.id, lands)
  }

  /** The calls about some rows, the first of them being the n-th of the pass. */
  function CallsAbout(rows: seq<Row>, muted: Row -> bool, lands: nat -> bool, n: nat): seq<Call> {
    seq(|rows|, i requires 0 <= i < |rows| => CallAbout(rows[i], muted(rows[i]), lands(n + i)))
  }

  /** The rows that some calls settle. */
  function ClearedBy(calls: seq<Call>): seq<nat> {
    if calls == [] then []
    else
      var last := calls[|calls| - 1];
      ClearedBy(calls[..|calls| - 1]) + if IsLanded(last) || last.Waive? then [last.id] else []
  }

  lemma CallsSnoc(rows: seq<Row>, r: Row, muted: Row -> bool, lands: nat -> bool, n: nat)
    ensures CallsAbout(rows + [r], muted, lands, n)
            == CallsAbout(rows, muted, lands, n) + [CallAbout(r, muted(r), lands(n + |rows|))]
  {
  }

  lemma ClearedSnoc(calls: seq<Call>, c: Call)
    ensures ClearedBy(calls + [c]) == ClearedBy(calls) + if IsLanded(c) || c.Waive? then [c.id] else []
  {
    assert (calls + [c])[..|calls|] == calls;
  }

  lemma CallsCover(trace0: seq<Call>, rows: seq<Row>, muted: Row -> bool, lands: nat -> bool, n: nat)
    ensures var trace := trace0 + CallsAbout(rows, muted, lands, n);
            trace0 <= trace && Covers(trace[|trace0|..], rows, muted)
  {
    assert (trace0 + CallsAbout(rows, muted, lands, n))[|trace0|..] == CallsAbout(rows, muted, lands, n);
  }

  /** One call about each row, in order. */
  predicate Covers(calls: seq<Call>, rows: seq<Row>, muted: Row -> bool) {
    |calls| == |rows| && forall i :: 0 <= i < |calls| ==> Answers(calls[i], rows[i], muted(rows[i]))
  }

  predicate IsDelivery(c: Call) {
    !c.Mark?
  }

  /** The calls about single rows. */
  function Deliveries(trace: seq<Call>): seq<Call> {
    Filter(trace, IsDelivery)
  }

  /** The first calls of a trace cover these rows, whatever came of them. */
  predicate Attempted(trace: seq<Call>, rows: seq<Row>, muted: Row -> bool) {
    |rows| <= |Deliveries(trace)| && Covers(Deliveries(trace)[..|rows|], rows, muted)
  }

  /** Every call is about a row of a guild that has a channel: a post when its owner listens, a waiver when not. */
  ghost predicate Addressed(trace: seq<Call>, rows: seq<Row>, channel: string -> Option<string>, muted: Row -> bool) {
    forall c :: c in trace && IsDelivery(c) ==>
      exists r :: r in rows && channel(r.guildId).Some? && Answers(c, r, muted(r))
  }

  lemma CoversJoin(a: seq<Call>, first: seq<Row>, b: seq<Call>, second: seq<Row>, muted: Row -> bool)
    requires Covers(a, first, muted) && Covers(b, second, muted)
    ensures Covers(a + b, first + second, muted)
  {
  }

  /** Covering some rows waives as many as have opted out. */
  lemma {:induction false} CoversCount(calls: seq<Call>, rows: seq<Row>, muted: Row -> bool)
    requires Covers(calls, rows, muted)
    ensures Waivers(calls) == Count(rows, muted)
  {
    if calls != [] {
      CoversCount(calls[1..], rows[1..], muted);
    }
  }

  lemma {:induction false} DeliveriesWaive(trace: seq<Call>)
    ensures Waivers(Deliveries(trace)) == Waivers(trace)
  {
    if trace != [] {
      DeliveriesWaive(trace[1..]);
      if IsDelivery(trace[0]) {
        CountAppend([trace[0]], Deliveries(trace[1..]), IsWaiver);
        assert [trace[0]][1..] == [];
      } else {
        assert [] + Deliveries(trace[1..]) == Deliveries(trace[1..]);
      }
    }
  }

  /** What a round adds to the calls about single rows. */
  lemma DeliveriesMore(trace0: seq<Call>, calls: seq<Call>, rows: seq<Row>, muted: Row -> bool, round: seq<nat>)
    requires Covers(calls, rows, muted)
    ensures Deliveries(trace0 + calls) == Deliveries(trace0 + calls + [Mark(round)]) == Deliveries(trace0) + calls
  {
    FilterAppend(trace0, calls, IsDelivery);
    assert forall c :: c in calls ==> IsDelivery(c);
    FilterAll(calls, IsDelivery);
    FilterOne(trace0 + calls, Mark(round), IsDelivery);
  }

  /** Every post would land. */
  ghost predicate AlwaysLands(lands: nat -> bool) {
    forall n :: lands(n)
  }

  lemma AllLandedMore(trace: seq<Call>, c: Call)
    ensures AllLanded(trace + [c]) <==> AllLanded(trace) && (c.Post? ==> c.landed)
  {
  }

  lemma FreshCall(trace: seq<Call>, c: Call, done: set<nat>)
    requires NoRepeat(trace) && LandedIn(trace, done) && !c.Mark? && c.id !in done
    ensures NoRepeat(trace + [c])
    ensures LandedIn(trace + [c], done + {c.id}) && (!IsLanded(c) ==> LandedIn(trace + [c], done))
  {
  }

  /** The guilds of these rows that have no channel. */
  function NoChannel(rows: seq<Row>, channel: string -> Option<string>): set<string> {
    set r | r in rows && channel(r.guildId).None? :: r.guildId
  }

  lemma TakeOneMore(pending: seq<Row>, i: nat, channel: string -> Option<string>)
    requires i < |pending|
    ensures var mine := Filter(pending[..i], HasChannel(channel));
            Filter(pending[..i + 1], HasChannel(channel)) ==
            if channel(pending[i].guildId).Some? then mine + [pending[i]] else mine
    ensures NoChannel(pending[..i + 1], channel)
            == NoChannel(pending[..i], channel)
               + if channel(pending[i].guildId).None? then {pending[i].guildId} else {}
  {
    assert pending[..i + 1] == pending[..i] + [pending[i]];
    FilterAppend(pending[..i], [pending[i]], HasChannel(channel));
    assert [pending[i]][1..] == [];
    assert Filter(pending[..i], HasChannel(channel)) + [] == Filter(pending[..i], HasChannel(channel));
  }

  /** The books of a round: nothing is cleared early or posted again, and what the round will clear is earned. */
  predicate RoundSound(trace: seq<Call>, round: seq<nat>, done: set<nat>) {
    && Careful(trace) && NoRepeat(trace)
    && LandedIn(trace, done + set id | id in round)
    && forall id :: id in round ==> Earned(trace, id)
  }

  lemma EarnedMore(trace: seq<Call>, c: Call, round: seq<nat>)
    requires forall id :: id in round ==> Earned(trace, id)
    ensures forall id :: id in round ==> Earned(trace + [c], id)
    ensures IsLanded(c) || c.Waive? ==> Earned(trace + [c], c.id)
  {
  }

  /** One row has been waived or posted. */
  lemma RoundStep(trace: seq<Call>, round: seq<nat>, done: set<nat>, c: Call)
    requires RoundSound(trace, round, done) && !c.Mark? && c.id !in done && c.id !in round
    ensures RoundSound(trace + [c], if IsLanded(c) || c.Waive? then round + [c.id] else round, done)
    ensures Marked(trace + [c]) == Marked(trace)
    ensures Landings(trace + [c]) == Landings(trace) + if IsLanded(c) then 1 else 0
    ensures Waivers(trace + [c]) == Waivers(trace) + if c.Waive? then 1 else 0
    ensures AllLanded(trace + [c]) <==> AllLanded(trace) && (c.Post? ==> c.landed)
  {
    var taken := set id | id in round;
    assert (set id | id in round + [c.id]) == taken + {c.id};
    CarefulAppend(trace, c);
    EarnedMore(trace, c, round);
    FreshCall(trace, c, done + taken);
    AllLandedMore(trace, c);
    hide Careful, Earned, NoRepeat, LandedIn, AllLanded, Marked, Landings, Waivers;
    assert done + taken + {c.id} == done + (taken + {c.id});
  }

  /** One row of a guild that has a channel: waive it, or post it. `lands` says whether the post lands. */
  method DeliverRow(row: Row, muted: bool, lands: bool, round0: seq<nat>, trace0: seq<Call>, ghost done: set<nat>)
    returns (round: seq<nat>, waived: bool, trace: seq<Call>)
    requires RoundSound(trace0, round0, done) && row.id !in done && row.id !in round0
    ensures RoundSound(trace, round, done) && Marked(trace) == Marked(trace0)
    ensures AllLanded(trace) ==> AllLanded(trace0) && round == round0 + [row.id]
    ensures trace == trace0 + [CallAbout(row, muted, lands)]
    ensures round == if muted || lands then round0 + [row.id] else round0
    ensures AllLanded(trace0) && lands ==> AllLanded(trace)
    ensures Waivers(trace) == Waivers(trace0) + if waived then 1 else 0
    ensures Landings(trace) + (if waived then 1 else 0) == Landings(trace0) + |round| - |round0|
  {
    hide RoundSound, Marked, Landings, Waivers, AllLanded;
    if muted {
      RoundStep(trace0, round0, done, Waive(row.id));
      return round0 + [row.id], true, trace0 + [Waive(row.id)];
    }
    RoundStep(trace0, round0, done, Post(row.id, lands));
    return if lands then round0 + [row.id] else round0, false, trace0 + [Post(row.id, lands)];
  }

  /** What a round will clear are rows it has been through. */
  predicate RoundFrom(round: seq<nat>, pending: seq<Row>, i: nat)
    requires i <= |pending|
  {
    forall id :: id in round ==> exists j :: 0 <= j < i && pending[j].id == id
  }

  lemma RoundFromNext(round: seq<nat>, pending: seq<Row>, i: nat)
    requires i < |pending| && RoundFrom(round, pending, i)
    ensures RoundFrom(round, pending, i + 1) && RoundFrom(round + [pending[i].id], pending, i + 1)
    ensures DistinctIds(pending) ==> pending[i].id !in round
  {
  }

  /** The rows among the first `i` whose guild has a channel have each been called about since `start`, and `round` is
      what that settled. */
  predicate RoundCalls(pending: seq<Row>, i: nat, channel: string -> Option<string>, muted: Row -> bool,
                       lands: nat -> bool, start: seq<Call>, round: seq<nat>, trace: seq<Call>)
    requires i <= |pending|
  {
    var calls := CallsAbout(Filter(pending[..i], HasChannel(channel)), muted, lands, |start|);
    trace == start + calls && round == ClearedBy(calls)
  }

  lemma RoundCallsSkip(pending: seq<Row>, i: nat, channel: string -> Option<string>, muted: Row -> bool,
                       lands: nat -> bool, start: seq<Call>, round: seq<nat>, trace: seq<Call>)
    requires i < |pending| && RoundCalls(pending, i, channel, muted, lands, start, round, trace)
    requires channel(pending[i].guildId).None?
    ensures RoundCalls(pending, i + 1, channel, muted, lands, start, round, trace)
  {
    hide Filter, HasChannel, NoChannel, CallsAbout, ClearedBy;
    TakeOneMore(pending, i, channel);
  }

  lemma RoundCallsNext(pending: seq<Row>, i: nat, channel: string -> Option<string>, muted: Row -> bool,
                       lands: nat -> bool, start: seq<Call>, round: seq<nat>, trace: seq<Call>)
    requires i < |pending| && RoundCalls(pending, i, channel, muted, lands, start, round, trace)
    requires channel(pending[i].guildId).Some?
    ensures var row := pending[i];
            var landed := lands(|trace|);
            RoundCalls(pending, i + 1, channel, muted, lands, start,
                       if muted(row) || landed then round + [row.id] else round,
                       trace + [CallAbout(row, muted(row), landed)])
  {
    hide Filter, HasChannel, NoChannel, ClearedBy;
    var mine := Filter(pending[..i], HasChannel(channel));
    var calls := CallsAbout(mine, muted, lands, |start|);
    TakeOneMore(pending, i, channel);
    CallsSnoc(mine, pending[i], muted, lands, |start|);
    ClearedSnoc(calls, CallAbout(pending[i], muted(pending[i]), lands(|trace|)));
    assert start + (calls + [CallAbout(pending[i], muted(pending[i]), lands(|trace|))])
        == start + calls + [CallAbout(pending[i], muted(pending[i]), lands(|trace|))];
  }

  /** What the inner loop has done after `i` rows: the books, then the channels, then what landing everything means. */
  predicate RoundBooks(pending: seq<Row>, i: nat, trace0: seq<Call>, done: set<nat>, round: seq<nat>, skipped: nat,
                       trace: seq<Call>)
    requires i <= |pending|
  {
    && RoundSound(trace, round, done) && Marked(trace) == Marked(trace0)
    && RoundFrom(round, pending, i)
    && Landings(trace) + skipped == Landings(trace0) + |round| && Waivers(trace) == Waivers(trace0) + skipped
    && |round| <= |trace| - |trace0|
  }

  /** The memo of channels says what the resolver says. */
  predicate Resolved(channels: map<string, Option<string>>, channel: string -> Option<string>) {
    forall g :: g in channels ==> channels[g] == channel(g)
  }

  predicate RoundGuilds(pending: seq<Row>, i: nat, channel: string -> Option<string>, undeliverable0: set<string>,
                        channels: map<string, Option<string>>, undeliverable: set<string>)
    requires i <= |pending|
  {
    && Resolved(channels, channel)
    && undeliverable == undeliverable0 + NoChannel(pending[..i], channel)
  }

  lemma GuildsNext(pending: seq<Row>, i: nat, channel: string -> Option<string>, undeliverable0: set<string>,
                   channels0: map<string, Option<string>>, undeliverable: set<string>)
    requires i < |pending| && RoundGuilds(pending, i, channel, undeliverable0, channels0, undeliverable)
    ensures var g := pending[i].guildId;
            var channels := if g in channels0 then channels0 else channels0[g := channel(g)];
            && channels[g] == channel(g)
            && RoundGuilds(pending, i + 1, channel, undeliverable0, channels,
                           if channel(g).None? then undeliverable + {g} else undeliverable)
  {
  }

  predicate RoundComplete(pending: seq<Row>, i: nat, channel: string -> Option<string>, trace0: seq<Call>,
                          round: seq<nat>, trace: seq<Call>)
    requires i <= |pending|
  {
    AllLanded(trace) ==> AllLanded(trace0) && round == Ids(Filter(pending[..i], HasChannel(channel)))
  }

  lemma CompleteNext(pending: seq<Row>, i: nat, channel: string -> Option<string>, start: seq<Call>,
                     round0: seq<nat>, trace0: seq<Call>, round: seq<nat>, trace: seq<Call>)
    requires i < |pending| && channel(pending[i].guildId).Some?
    requires RoundComplete(pending, i, channel, start, round0, trace0)
    requires AllLanded(trace) ==> AllLanded(trace0) && round == round0 + [pending[i].id]
    ensures RoundComplete(pending, i + 1, channel, start, round, trace)
  {
    TakeOneMore(pending, i, channel);
    var mine := Filter(pending[..i], HasChannel(channel));
    assert Ids(mine + [pending[i]]) == Ids(mine) + [pending[i].id];
    hide Filter, AllLanded, HasChannel, Ids;
  }

  /** The next row is waived or posted. */
  method DeliverNext(pending: seq<Row>, i: nat, muted: Row -> bool, lands: nat -> bool, ghost channel: string -> Option<string>,
                     round0: seq<nat>, skipped0: nat, ghost start: seq<Call>, trace0: seq<Call>, ghost done: set<nat>)
    returns (round: seq<nat>, skipped: nat, trace: seq<Call>)
    requires i < |pending| && DistinctIds(pending) && (forall r :: r in pending ==> r.id !in done)
    requires RoundBooks(pending, i, start, done, round0, skipped0, trace0)
    requires RoundComplete(pending, i, channel, start, round0, trace0) && channel(pending[i].guildId).Some?
    requires RoundCalls(pending, i, channel, muted, lands, start, round0, trace0)
    ensures RoundBooks(pending, i + 1, start, done, round, skipped, trace)
    ensures RoundComplete(pending, i + 1, channel, start, round, trace)
    ensures RoundCalls(pending, i + 1, channel, muted, lands, start, round, trace)
    ensures AllLanded(trace0) && AlwaysLands(lands) ==> AllLanded(trace)
  {
    hide RoundSound, Marked, Landings, Waivers, AllLanded, HasChannel, Filter, RoundFrom, DistinctIds;
    hide RoundComplete, RoundCalls;
    var row := pending[i];
    assert row in pending;
    RoundFromNext(round0, pending, i);
    var waived;
    round, waived, trace := DeliverRow(row, muted(row), lands(|trace0|), round0, trace0, done);
    RoundCallsNext(pending, i, channel, muted, lands, start, round0, trace0);
    CompleteNext(pending, i, channel, start, round0, trace0, round, trace);
    skipped := if waived then skipped0 + 1 else skipped0;
  }

  lemma SkipNext(pending: seq<Row>, i: nat, muted: Row -> bool, lands: nat -> bool, channel: string -> Option<string>,
                 start: seq<Call>, done: set<nat>, round: seq<nat>, skipped: nat, trace: seq<Call>)
    requires i < |pending| && RoundBooks(pending, i, start, done, round, skipped, trace)
    requires RoundComplete(pending, i, channel, start, round, trace) && channel(pending[i].guildId).None?
    requires RoundCalls(pending, i, channel, muted, lands, start, round, trace)
    ensures RoundBooks(pending, i + 1, start, done, round, skipped, trace)
    ensures RoundComplete(pending, i + 1, channel, start, round, trace)
    ensures RoundCalls(pending, i + 1, channel, muted, lands, start, round, trace)
  {
    hide RoundSound, Marked, Landings, Waivers, AllLanded, HasChannel, Filter, RoundFrom, DistinctIds, RoundCalls;
    RoundFromNext(round, pending, i);
    TakeOneMore(pending, i, channel);
    RoundCallsSkip(pending, i, channel, muted, lands, start, round, trace);
  }

  /** The inner loop: deliver one fetched batch. `lands(n)` says whether a post that is the n-th call lands. */
  method DeliverRound(pending: seq<Row>, channel: string -> Option<string>, muted: Row -> bool, lands: nat -> bool,
                      channels0: map<string, Option<string>>, undeliverable0: set<string>, trace0: seq<Call>,
                      ghost done: set<nat>)
    returns (round: seq<nat>, skipped: nat, channels: map<string, Option<string>>, undeliverable: set<string>, trace: seq<Call>)
    requires DistinctIds(pending) && forall r :: r in pending ==> r.id !in done
    requires RoundSound(trace0, [], done)
    requires Resolved(channels0, channel)
    ensures RoundBooks(pending, |pending|, trace0, done, round, skipped, trace)
    ensures RoundGuilds(pending, |pending|, channel, undeliverable0, channels, undeliverable)
    ensures RoundComplete(pending, |pending|, channel, trace0, round, trace)
    ensures RoundCalls(pending, |pending|, channel, muted, lands, trace0, round, trace)
    ensures AllLanded(trace0) && AlwaysLands(lands) ==> AllLanded(trace)
  {
    hide AllLanded, AlwaysLands, RoundBooks, RoundComplete, RoundCalls, RoundGuilds, RoundSound, DistinctIds, Resolved;
    round, skipped, channels, undeliverable, trace := [], 0, channels0, undeliverable0, trace0;
    RoundStarts(pending, channel, muted, lands, channels0, undeliverable0, trace0, done);
    var i := 0;
    while i < |pending|
      invariant i <= |pending|
      invariant RoundBooks(pending, i, trace0, done, round, skipped, trace)
      invariant RoundGuilds(pending, i, channel, undeliverable0, channels, undeliverable)
      invariant RoundComplete(pending, i, channel, trace0, round, trace)
      invariant RoundCalls(pending, i, channel, muted, lands, trace0, round, trace)
      invariant AllLanded(trace0) && AlwaysLands(lands) ==> AllLanded(trace)
    {
      var row := pending[i];
      GuildsNext(pending, i, channel, undeliverable0, channels, undeliverable);
      if row.guildId !in channels {
        channels := channels[row.guildId := channel(row.guildId)];
      }
      if channels[row.guildId].None? {
        undeliverable := undeliverable + {row.guildId};
        SkipNext(pending, i, muted, lands, channel, trace0, done, round, skipped, trace);
      } else {
        round, skipped, trace := DeliverNext(pending, i, muted, lands, channel, round, skipped, trace0, trace, done);
      }
      i := i + 1;
    }
  }

  lemma RoundStarts(pending: seq<Row>, channel: string -> Option<string>, muted: Row -> bool, lands: nat -> bool,
                    channels0: map<string, Option<string>>, undeliverable0: set<string>, trace0: seq<Call>, done: set<nat>)
    requires RoundSound(trace0, [], done) && Resolved(channels0, channel)
    ensures RoundBooks(pending, 0, trace0, done, [], 0, trace0)
    ensures RoundGuilds(pending, 0, channel, undeliverable0, channels0, undeliverable0)
    ensures RoundComplete(pending, 0, channel, trace0, [], trace0)
    ensures RoundCalls(pending, 0, channel, muted, lands, trace0, [], trace0)
  {
    assert pending[..0] == [] && NoChannel([], channel) == {};
  }

  /** The database clears the rows of a round. */
  lemma MarkStep(trace: seq<Call>, round: seq<nat>, done: set<nat>)
    requires RoundSound(trace, round, done)
    ensures var t := trace + [Mark(round)];
            && RoundSound(t, [], done + set id | id in round)
            && Marked(t) == Marked(trace) + (set id | id in round)
            && Landings(t) == Landings(trace) && Waivers(t) == Waivers(trace)
            && (AllLanded(t) <==> AllLanded(trace))
  {
    CarefulAppend(trace, Mark(round));
    var t := trace + [Mark(round)];
    assert forall i :: 0 <= i < |trace| ==> t[i] == trace[i];
    assert NoRepeat(t);
    assert forall x :: x in t <==> x in trace || x == Mark(round);
  }

  lemma SubsetSize<T>(a: set<T>, b: set<T>)
    requires a <= b
    ensures |a| <= |b| && (|a| == |b| ==> a == b)
  {
    assert b == a + (b - a);
    assert |b| == |a| + |b - a|;
  }

  /** The state of a pass between fetches. */
  ghost predicate PassSound(rows: seq<Row>, announced0: set<nat>, channel: string -> Option<string>, muted: Row -> bool,
                            posted: seq<nat>, announced: set<nat>, undeliverable: set<string>, trace: seq<Call>)
  {
    && RoundSound(trace, [], announced)
    && announced == announced0 + Marked(trace)
    && Addressed(trace, rows, channel, muted)
    && undeliverable <= Unconfigured(rows, announced0, channel)
    && (AllLanded(trace) ==> FrontCleared(rows, announced0, channel, posted, announced) &&
                             FrontCovered(rows, announced0, channel, muted, posted, trace))
  }

  /** Exactly the first deliverable rows have been cleared, oldest first. */
  ghost predicate FrontCleared(rows: seq<Row>, announced0: set<nat>, channel: string -> Option<string>,
                               posted: seq<nat>, announced: set<nat>)
  {
    var d := Deliverable(rows, announced0, channel);
    && |posted| <= |d| && posted == Ids(d[..|posted|])
    && Deliverable(rows, announced, channel) == d[|posted|..]
    && announced == announced0 + set id | id in posted
  }

  /** Each of them was called about once, oldest first. */
  predicate FrontCovered(rows: seq<Row>, announced0: set<nat>, channel: string -> Option<string>, muted: Row -> bool,
                         posted: seq<nat>, trace: seq<Call>)
  {
    var d := Deliverable(rows, announced0, channel);
    |posted| <= |d| && Covers(Deliveries(trace), d[..|posted|], muted)
  }

  /** What one round adds, when everything it posted landed. */
  lemma RoundDelivers(rows: seq<Row>, announced0: set<nat>, announced: set<nat>, channel: string -> Option<string>,
                      posted: seq<nat>, limit: nat, excluded: set<string>, round: seq<nat>)
    requires DistinctIds(rows) && forall g :: g in excluded ==> channel(g).None?
    requires FrontCleared(rows, announced0, channel, posted, announced)
    requires round == Ids(Filter(ListPending(rows, announced, limit, excluded), HasChannel(channel)))
    ensures FrontCleared(rows, announced0, channel, posted + round, announced + set id | id in round)
    ensures |ListPending(rows, announced, limit, excluded)| < limit ==>
              |posted + round| == |Deliverable(rows, announced0, channel)|
    ensures var d := Deliverable(rows, announced0, channel);
            d[..|posted + round|] ==
            d[..|posted|] + Filter(ListPending(rows, announced, limit, excluded), HasChannel(channel))
  {
    hide ListPending, HasChannel, Filter, Deliverable, DistinctIds;
    var d := Deliverable(rows, announced0, channel);
    var pending := ListPending(rows, announced, limit, excluded);
    var mine := Filter(pending, HasChannel(channel));
    FetchedFront(rows, announced, limit, excluded, channel);
    ClearFront(rows, announced, channel, |round|);
    assert mine == d[|posted|..][..|round|];
    IdsSplit(d, |posted|, |round|);
  }

  lemma IdsSplit(d: seq<Row>, k: nat, m: nat)
    requires k + m <= |d|
    ensures Ids(d[..k + m]) == Ids(d[..k]) + Ids(d[k..][..m])
    ensures d[k..][m..] == d[k + m..]
  {
  }

  /** A round that excluded nobody new delivered everything it fetched. */
  lemma NothingExcluded(pending: seq<Row>, excluded: set<string>, channel: string -> Option<string>)
    requires forall r :: r in pending ==> r.guildId !in excluded
    requires |excluded + NoChannel(pending, channel)| == |excluded|
    ensures Filter(pending, HasChannel(channel)) == pending
  {
  }

  /** The pass after a round, whether or not the round cleared anything. */
  lemma RoundKeepsPass(rows: seq<Row>, announced0: set<nat>, channel: string -> Option<string>, muted: Row -> bool,
                       posted: seq<nat>, announced: set<nat>, excluded: set<string>, trace0: seq<Call>, limit: nat,
                       round: seq<nat>, undeliverable: set<string>, trace: seq<Call>)
    requires DistinctIds(rows) && PassSound(rows, announced0, channel, muted, posted, announced, excluded, trace0)
    requires var pending := ListPending(rows, announced, limit, excluded);
             && undeliverable == excluded + NoChannel(pending, channel)
             && RoundSound(trace, round, announced) && Marked(trace) == Marked(trace0)
             && trace0 <= trace && Covers(trace[|trace0|..], Filter(pending, HasChannel(channel)), muted)
             && (AllLanded(trace) ==> AllLanded(trace0) && round == Ids(Filter(pending, HasChannel(channel))))
    ensures var trace' := if round == [] then trace else trace + [Mark(round)];
            var announced' := announced + set id | id in round;
            && PassSound(rows, announced0, channel, muted, posted + round, announced', undeliverable, trace')
            && Landings(trace') == Landings(trace) && Waivers(trace') == Waivers(trace)
            && (AllLanded(trace') <==> AllLanded(trace))
            && Deliveries(trace') == Deliveries(trace0) + trace[|trace0|..]
            && (AllLanded(trace) && |ListPending(rows, announced, limit, excluded)| < limit ==>
                  |posted + round| == |Deliverable(rows, announced0, channel)|)
  {
    hide RoundSound, ListPending, Unconfigured, Careful, Marked, Landings, Waivers, AllLanded, Addressed, NoChannel;
    hide DistinctIds, FrontCleared, FrontCovered, Deliverable, Deliveries, Covers, Filter, HasChannel, Ids;
    var trace' := if round == [] then trace else trace + [Mark(round)];
    var calls := trace[|trace0|..];
    var mine := Filter(ListPending(rows, announced, limit, excluded), HasChannel(channel));
    assert trace == trace0 + calls;
    RoundMarked(trace, round, announced);
    DeliveriesMore(trace0, calls, mine, muted, round);
    RoundAddresses(rows, announced, limit, excluded, channel, muted, trace0, calls, trace');
    RoundExcludes(rows, announced0, announced, channel, limit, excluded);
    if AllLanded(trace) {
      RoundFront(rows, announced0, channel, muted, posted, announced, excluded, trace0, limit, round, calls, trace');
    }
  }

  /** The books after a round is cleared, or had nothing to clear. */
  lemma RoundMarked(trace: seq<Call>, round: seq<nat>, announced: set<nat>)
    requires RoundSound(trace, round, announced)
    ensures var t := if round == [] then trace else trace + [Mark(round)];
            && RoundSound(t, [], announced + set id | id in round)
            && Marked(t) == Marked(trace) + (set id | id in round)
            && Landings(t) == Landings(trace) && Waivers(t) == Waivers(trace)
            && (AllLanded(t) <==> AllLanded(trace))
  {
    if round == [] {
      assert announced + (set id | id in round) == announced && Marked(trace) + (set id | id in round) == Marked(trace);
    } else {
      MarkStep(trace, round, announced);
    }
  }

  /** The front of the deliverable rows after a round whose posts landed. */
  lemma RoundFront(rows: seq<Row>, announced0: set<nat>, channel: string -> Option<string>, muted: Row -> bool,
                   posted: seq<nat>, announced: set<nat>, excluded: set<string>, trace0: seq<Call>, limit: nat,
                   round: seq<nat>, calls: seq<Call>, trace': seq<Call>)
    requires DistinctIds(rows) && forall g :: g in excluded ==> channel(g).None?
    requires FrontCleared(rows, announced0, channel, posted, announced)
    requires FrontCovered(rows, announced0, channel, muted, posted, trace0)
    requires var mine := Filter(ListPending(rows, announced, limit, excluded), HasChannel(channel));
             && round == Ids(mine) && Covers(calls, mine, muted)
    requires Deliveries(trace') == Deliveries(trace0) + calls
    ensures FrontCleared(rows, announced0, channel, posted + round, announced + set id | id in round)
    ensures FrontCovered(rows, announced0, channel, muted, posted + round, trace')
    ensures |ListPending(rows, announced, limit, excluded)| < limit ==>
              |posted + round| == |Deliverable(rows, announced0, channel)|
  {
    hide ListPending, DistinctIds, Deliverable, Deliveries, Covers, Filter, HasChannel, Ids;
    var mine := Filter(ListPending(rows, announced, limit, excluded), HasChannel(channel));
    RoundDelivers(rows, announced0, announced, channel, posted, limit, excluded, round);
    RoundCovers(rows, announced0, channel, muted, posted, trace0, trace', calls, mine, round);
  }

  lemma RoundCovers(rows: seq<Row>, announced0: set<nat>, channel: string -> Option<string>, muted: Row -> bool,
                    posted: seq<nat>, trace0: seq<Call>, trace': seq<Call>, calls: seq<Call>, mine: seq<Row>,
                    round: seq<nat>)
    requires FrontCovered(rows, announced0, channel, muted, posted, trace0) && Covers(calls, mine, muted)
    requires Deliveries(trace') == Deliveries(trace0) + calls
    requires var d := Deliverable(rows, announced0, channel);
             |posted + round| <= |d| && d[..|posted + round|] == d[..|posted|] + mine
    ensures FrontCovered(rows, announced0, channel, muted, posted + round, trace')
  {
    var d := Deliverable(rows, announced0, channel);
    hide Deliverable, Deliveries, Covers;
    CoversJoin(Deliveries(trace0), d[..|posted|], calls, mine, muted);
  }

  lemma RoundExcludes(rows: seq<Row>, announced0: set<nat>, announced: set<nat>, channel: string -> Option<string>,
                      limit: nat, excluded: set<string>)
    requires DistinctIds(rows) && announced0 <= announced && excluded <= Unconfigured(rows, announced0, channel)
    ensures excluded + NoChannel(ListPending(rows, announced, limit, excluded), channel)
            <= Unconfigured(rows, announced0, channel)
    ensures forall g :: g in excluded ==> channel(g).None?
  {
    FetchedFresh(rows, announced, limit, excluded);
  }

  lemma RoundAddresses(rows: seq<Row>, announced: set<nat>, limit: nat, excluded: set<string>,
                       channel: string -> Option<string>, muted: Row -> bool, trace0: seq<Call>, calls: seq<Call>,
                       trace': seq<Call>)
    requires DistinctIds(rows) && Addressed(trace0, rows, channel, muted)
    requires Covers(calls, Filter(ListPending(rows, announced, limit, excluded), HasChannel(channel)), muted)
    requires forall c :: c in trace' ==> c in trace0 || c in calls || c.Mark?
    ensures Addressed(trace', rows, channel, muted)
  {
    var pending := ListPending(rows, announced, limit, excluded);
    var mine := Filter(pending, HasChannel(channel));
    FetchedFresh(rows, announced, limit, excluded);
    forall c | c in trace' && c !in trace0 && IsDelivery(c)
      ensures exists r :: r in rows && channel(r.guildId).Some? && Answers(c, r, muted(r))
    {
      var i :| 0 <= i < |calls| && calls[i] == c;
      assert mine[i] in mine;
      FilterMember(pending, HasChannel(channel), mine[i]);
    }
  }

  /** A pass between fetches: what it cleared, in order, and all that is cleared; the guilds put aside; the calls so
      far; and whether the last fetch put a guild aside. */
  datatype PassState = PassState(posted: seq<nat>, announced: set<nat>, excluded: set<string>, trace: seq<Call>, more: bool)

  /** One turn: the oldest waiting rows of the guilds not put aside are fetched, and each of those whose guild has a
      channel is called about. */
  function Turn(rows: seq<Row>, channel: string -> Option<string>, muted: Row -> bool, lands: nat -> bool, limit: nat,
                s: PassState): PassState
    requires |s.posted| <= limit
  {
    var pending := ListPending(rows, s.announced, limit - |s.posted|, s.excluded);
    var calls := CallsAbout(Filter(pending, HasChannel(channel)), muted, lands, |s.trace|);
    var round := ClearedBy(calls);
    var excluded := s.excluded + NoChannel(pending, channel);
    PassState(s.posted + round, s.announced + (set id | id in round), excluded,
              s.trace + calls + if round == [] then [] else [Mark(round)], excluded != s.excluded)
  }

  /** Every turn, not only the first, calls about the oldest deliverable rows there are, as far as its batch reaches;
      the rows it did not settle stay deliverable in their old places, ahead of all younger ones. */
  lemma TurnCallsOldest(rows: seq<Row>, channel: string -> Option<string>, muted: Row -> bool, lands: nat -> bool,
                        limit: nat, s: PassState)
    requires |s.posted| <= limit && forall g :: g in s.excluded ==> channel(g).None?
    ensures var pending := ListPending(rows, s.announced, limit - |s.posted|, s.excluded);
            var mine := Filter(pending, HasChannel(channel));
            var d := Deliverable(rows, s.announced, channel);
            var calls := CallsAbout(mine, muted, lands, |s.trace|);
            var s' := Turn(rows, channel, muted, lands, limit, s);
            && |mine| <= |d| && mine == d[..|mine|] && (|pending| < limit - |s.posted| ==> mine == d)
            && s.trace + calls <= s'.trace
            && Deliverable(rows, s'.announced, channel) == Filter(d, Unannounced(set id | id in ClearedBy(calls)))
            && forall g :: g in s'.excluded ==> channel(g).None?
  {
    hide ListPending, HasChannel, Filter, Deliverable, CallsAbout, ClearedBy;
    var pending := ListPending(rows, s.announced, limit - |s.posted|, s.excluded);
    FetchedFront(rows, s.announced, limit - |s.posted|, s.excluded, channel);
    ClearSome(rows, s.announced, channel,
              set id | id in ClearedBy(CallsAbout(Filter(pending, HasChannel(channel)), muted, lands, |s.trace|)));
  }

  /** What is left of a pass that may make `k` more turns. */
  function Turns(rows: seq<Row>, channel: string -> Option<string>, muted: Row -> bool, lands: nat -> bool, limit: nat,
                 s: PassState, k: nat): PassState
    decreases k
  {
    if k == 0 || !s.more || |s.posted| >= limit then s
    else Turns(rows, channel, muted, lands, limit, Turn(rows, channel, muted, lands, limit, s), k - 1)
  }

  /** One turn of the outer loop: fetch, deliver, clear, and decide whether to ask again. */
  method FetchRound(rows: seq<Row>, ghost announced0: set<nat>, channel: string -> Option<string>, muted: Row -> bool,
                    lands: nat -> bool, limit: nat, channels0: map<string, Option<string>>, posted0: seq<nat>,
                    done: set<nat>, excluded: set<string>, trace0: seq<Call>)
    returns (posted: seq<nat>, skips: nat, channels: map<string, Option<string>>, announced: set<nat>,
             undeliverable: set<string>, trace: seq<Call>, more: bool)
    requires DistinctIds(rows) && |posted0| < limit
    requires PassSound(rows, announced0, channel, muted, posted0, done, excluded, trace0)
    requires Resolved(channels0, channel)
    ensures Resolved(channels, channel)
    ensures PassSound(rows, announced0, channel, muted, posted, announced, undeliverable, trace)
    ensures |posted| <= limit && Landings(trace) + skips == Landings(trace0) + |posted| - |posted0|
    ensures Waivers(trace) == Waivers(trace0) + skips
    ensures if more then |undeliverable| > |excluded| else undeliverable == excluded
    ensures AllLanded(trace) && !more ==> |posted| == Min(limit, |Deliverable(rows, announced0, channel)|)
    ensures AllLanded(trace0) && AlwaysLands(lands) ==> AllLanded(trace)
    ensures var pending := ListPending(rows, done, limit - |posted0|, excluded);
            var mine := Filter(pending, HasChannel(channel));
            && undeliverable == excluded + NoChannel(pending, channel)
            && (mine == [] ==> posted == posted0 && announced == done)
            && Deliveries(trace0) <= Deliveries(trace) && Covers(Deliveries(trace)[|Deliveries(trace0)|..], mine, muted)
    ensures PassState(posted, announced, undeliverable, trace, more)
            == Turn(rows, channel, muted, lands, limit, PassState(posted0, done, excluded, trace0, true))
  {
    hide RoundSound, Careful, Marked, Landings, Waivers, Deliverable, Addressed, Unconfigured, AllLanded, ListPending;
    hide Resolved, DistinctIds, NoChannel, Filter, HasChannel, Ids, Covers, Answers, Deliveries, CallsAbout, ClearedBy;
    hide Turn, RoundCalls, RoundComplete, RoundBooks, RoundGuilds;
    var pending := ListPending(rows, done, limit - |posted0|, excluded);
    FetchedFresh(rows, done, limit - |posted0|, excluded);
    var round;
    round, skips, channels, undeliverable, trace :=
      DeliverRound(pending, channel, muted, lands, channels0, excluded, trace0, done);
    RoundDone(pending, channel, muted, lands, trace0, done, excluded, round, skips, channels, undeliverable, trace);
    ghost var posts, called := trace[|trace0|..], trace;
    RoundKeepsPass(rows, announced0, channel, muted, posted0, done, excluded, trace0, limit - |posted0|, round,
                   undeliverable, trace);
    posted, announced := posted0, done;
    CoversSize(posts, pending, channel, muted);
    assert |round| <= |posts|;
    if round != [] {
      trace := trace + [Mark(round)];
      announced := done + set id | id in round;
      posted := posted0 + round;
    } else {
      assert done + (set id | id in round) == done && posted0 + round == posted0;
    }
    more := |undeliverable| != |excluded|;
    SubsetSize(excluded, undeliverable);
    if !more {
      NothingExcluded(pending, excluded, channel);
    }
    assert (Deliveries(trace0) + posts)[|Deliveries(trace0)|..] == posts;
    TurnIs(rows, channel, muted, lands, limit, PassState(posted0, done, excluded, trace0, true), round, called,
           undeliverable);
  }

  /** What a finished inner loop means. */
  lemma RoundDone(pending: seq<Row>, channel: string -> Option<string>, muted: Row -> bool, lands: nat -> bool,
                  trace0: seq<Call>, done: set<nat>, excluded: set<string>, round: seq<nat>, skips: nat,
                  channels: map<string, Option<string>>, undeliverable: set<string>, trace: seq<Call>)
    requires RoundBooks(pending, |pending|, trace0, done, round, skips, trace)
    requires RoundGuilds(pending, |pending|, channel, excluded, channels, undeliverable)
    requires RoundComplete(pending, |pending|, channel, trace0, round, trace)
    requires RoundCalls(pending, |pending|, channel, muted, lands, trace0, round, trace)
    ensures RoundSound(trace, round, done) && Marked(trace) == Marked(trace0) && Resolved(channels, channel)
    ensures Landings(trace) + skips == Landings(trace0) + |round| && Waivers(trace) == Waivers(trace0) + skips
    ensures undeliverable == excluded + NoChannel(pending, channel)
    ensures AllLanded(trace) ==> AllLanded(trace0) && round == Ids(Filter(pending, HasChannel(channel)))
    ensures trace0 <= trace && Covers(trace[|trace0|..], Filter(pending, HasChannel(channel)), muted)
    ensures |round| <= |trace[|trace0|..]|
  {
    hide RoundSound, Marked, Resolved, Landings, Waivers, NoChannel, AllLanded, Filter, HasChannel, CallsAbout, Ids, Covers;
    hide ClearedBy;
    assert pending[..|pending|] == pending;
    CallsCover(trace0, Filter(pending, HasChannel(channel)), muted, lands, |trace0|);
  }

  /** What the turn is, from what the inner loop returned. */
  lemma TurnIs(rows: seq<Row>, channel: string -> Option<string>, muted: Row -> bool, lands: nat -> bool, limit: nat,
               s: PassState, round: seq<nat>, trace: seq<Call>, excluded: set<string>)
    requires |s.posted| <= limit
    requires var pending := ListPending(rows, s.announced, limit - |s.posted|, s.excluded);
             && excluded == s.excluded + NoChannel(pending, channel)
             && RoundCalls(pending, |pending|, channel, muted, lands, s.trace, round, trace)
    ensures Turn(rows, channel, muted, lands, limit, s)
            == PassState(s.posted + round, s.announced + (set id | id in round), excluded,
                         if round == [] then trace else trace + [Mark(round)], |excluded| != |s.excluded|)
  {
    hide ListPending, NoChannel, HasChannel, Filter, CallsAbout, ClearedBy;
    var pending := ListPending(rows, s.announced, limit - |s.posted|, s.excluded);
    assert pending[..|pending|] == pending;
    SubsetSize(s.excluded, excluded);
  }

  lemma CoversSize(calls: seq<Call>, pending: seq<Row>, channel: string -> Option<string>, muted: Row -> bool)
    requires Covers(calls, Filter(pending, HasChannel(channel)), muted)
    ensures |calls| == |Filter(pending, HasChannel(channel))| <= |pending|
  {
  }

  /** The oldest min(limit, n) of the n deliverable rows are cleared, each was called about once, oldest first, and the
      rows of people who opted out are missing from the count. */
  predicate FrontDelivered(rows: seq<Row>, announced0: set<nat>, channel: string -> Option<string>, muted: Row -> bool,
                           limit: nat, count: int, announced: set<nat>, trace: seq<Call>)
  {
    var d := Deliverable(rows, announced0, channel);
    var front := d[..Min(limit, |d|)];
    && announced == announced0 + (set id | id in Ids(front))
    && Covers(Deliveries(trace), front, muted)
    && count == |front| - Count(front, muted)
    && (count == |front| <==> forall r :: r in front ==> !muted(r))
  }

  /** One pass. `lands(n)` says whether a post that is the n-th call lands; `muted` is the opt-out. Returns what the
      source returns, the cleared rows, and every call in order. A fetch that comes back empty ends the pass. */
  method AnnounceOnce(rows: seq<Row>, announced0: set<nat>, channel: string -> Option<string>, muted: Row -> bool,
                      lands: nat -> bool, limit: nat)
    returns (count: nat, announced: set<nat>, trace: seq<Call>)
    requires DistinctIds(rows)
    ensures var end := Turns(rows, channel, muted, lands, limit, PassState([], announced0, {}, [], true), MAX_FETCHES);
            announced == end.announced && trace == end.trace && count == |end.posted| - Waivers(trace)
    ensures Careful(trace) && NoRepeat(trace)
    ensures announced == announced0 + Marked(trace)
    ensures count == Landings(trace)
    ensures Addressed(trace, rows, channel, muted)
    ensures Attempted(trace, Filter(ListPending(rows, announced0, limit, {}), HasChannel(channel)), muted)
    ensures AllLanded(trace) && |Unconfigured(rows, announced0, channel)| < MAX_FETCHES ==>
              FrontDelivered(rows, announced0, channel, muted, limit, count, announced, trace)
    ensures limit > 0 ==> (Deliveries(trace) == [] <==> Starved(rows, announced0, channel, limit))
    ensures Starved(rows, announced0, channel, limit) ==> count == 0 && announced == announced0
    ensures AlwaysLands(lands) ==> AllLanded(trace)
  {
    hide PassBooks, FrontDelivered, Resolved, DistinctIds, Landings, Unconfigured, AllLanded, Careful, NoRepeat;
    hide Marked, Addressed, Filter, ListPending, HasChannel, Starved, Attempted, AlwaysLands, Turn, Waivers;
    var channels: map<string, Option<string>> := map[];
    var undeliverable: set<string> := {};
    var posted: seq<nat> := [];
    var skipped: nat := 0;
    announced, trace := announced0, [];
    ghost var end := Turns(rows, channel, muted, lands, limit, PassState([], announced0, {}, [], true), MAX_FETCHES);
    PassStarts(rows, announced0, channel, muted, lands, limit);
    var fetch := 0;
    var more := true;
    while more && fetch < MAX_FETCHES && |posted| < limit
      invariant fetch <= MAX_FETCHES
      invariant PassBooks(rows, announced0, channel, muted, lands, limit, fetch, more, posted, skipped, announced,
                          undeliverable, trace)
      invariant Resolved(channels, channel)
      invariant Turns(rows, channel, muted, lands, limit, PassState(posted, announced, undeliverable, trace, more),
                      MAX_FETCHES - fetch) == end
      decreases MAX_FETCHES - fetch
    {
      posted, skipped, channels, announced, undeliverable, trace, more :=
        FetchNext(rows, announced0, channel, muted, lands, limit, fetch, channels, posted, skipped, announced,
                  undeliverable, trace);
      fetch := fetch + 1;
    }
    PassEnds(rows, announced0, channel, muted, lands, limit, fetch, more, posted, skipped, announced, undeliverable, trace);
    count := |posted| - skipped;
  }

  /** The state of a pass after `fetch` turns. */
  ghost predicate PassBooks(rows: seq<Row>, announced0: set<nat>, channel: string -> Option<string>, muted: Row -> bool,
                            lands: nat -> bool, limit: nat, fetch: nat, more: bool, posted: seq<nat>, skipped: nat,
                            announced: set<nat>, undeliverable: set<string>, trace: seq<Call>)
  {
    && |posted| <= limit
    && PassSound(rows, announced0, channel, muted, posted, announced, undeliverable, trace)
    && |posted| == Landings(trace) + skipped && skipped == Waivers(trace)
    && (more ==> |undeliverable| >= fetch)
    && (AllLanded(trace) && !more ==> |posted| == Min(limit, |Deliverable(rows, announced0, channel)|))
    && (AlwaysLands(lands) ==> AllLanded(trace))
    && (if fetch == 0 then more && trace == [] && posted == [] && announced == announced0 && undeliverable == {}
        else FirstTried(rows, announced0, channel, muted, limit, trace))
    && StarvedSoFar(rows, announced0, channel, limit, fetch, more, posted, announced, undeliverable, Deliveries(trace))
  }

  /** A turn keeps the books. */
  method FetchNext(rows: seq<Row>, ghost announced0: set<nat>, channel: string -> Option<string>, muted: Row -> bool,
                   lands: nat -> bool, limit: nat, ghost fetch: nat, channels0: map<string, Option<string>>,
                   posted0: seq<nat>, skipped0: nat, done: set<nat>, excluded: set<string>, trace0: seq<Call>)
    returns (posted: seq<nat>, skipped: nat, channels: map<string, Option<string>>, announced: set<nat>,
             undeliverable: set<string>, trace: seq<Call>, more: bool)
    requires DistinctIds(rows) && |posted0| < limit && fetch < MAX_FETCHES && Resolved(channels0, channel)
    requires PassBooks(rows, announced0, channel, muted, lands, limit, fetch, true, posted0, skipped0, done, excluded, trace0)
    ensures Resolved(channels, channel)
    ensures PassBooks(rows, announced0, channel, muted, lands, limit, fetch + 1, more, posted, skipped, announced,
                      undeliverable, trace)
    ensures PassState(posted, announced, undeliverable, trace, more)
            == Turn(rows, channel, muted, lands, limit, PassState(posted0, done, excluded, trace0, true))
  {
    hide PassSound, Landings, Waivers, Deliverable, AllLanded, Filter, ListPending, HasChannel, NoChannel, Deliveries;
    hide Covers, Excluded, Starved, Attempted, AlwaysLands, DistinctIds, Resolved, StarvedSoFar, FirstTried, Turn;
    var skips;
    posted, skips, channels, announced, undeliverable, trace, more :=
      FetchRound(rows, announced0, channel, muted, lands, limit, channels0, posted0, done, excluded, trace0);
    skipped := skipped0 + skips;
    ghost var pending := ListPending(rows, done, limit - |posted0|, excluded);
    AttemptedMore(rows, announced0, channel, muted, limit, trace0, trace, pending);
    StarvedNext(rows, announced0, channel, muted, limit, fetch, more, posted0, done, excluded, Deliveries(trace0),
                posted, announced, undeliverable, Deliveries(trace));
  }

  /** Guilds a pass has put aside after `k` fetches, if it has posted nothing. */
  function Excluded(rows: seq<Row>, announced0: set<nat>, channel: string -> Option<string>, limit: nat, k: nat): set<string> {
    if k == 0 then {}
    else
      var before := Excluded(rows, announced0, channel, limit, k - 1);
      before + NoChannel(ListPending(rows, announced0, limit, before), channel)
  }

  /** Each of the first `k` fetches returns only rows that wait for a channel. */
  predicate Barren(rows: seq<Row>, announced0: set<nat>, channel: string -> Option<string>, limit: nat, k: nat) {
    forall j :: 0 <= j < k ==>
      Filter(ListPending(rows, announced0, limit, Excluded(rows, announced0, channel, limit, j)), HasChannel(channel)) == []
  }

  /** All the fetches of a pass do. */
  predicate Starved(rows: seq<Row>, announced0: set<nat>, channel: string -> Option<string>, limit: nat) {
    Barren(rows, announced0, channel, limit, MAX_FETCHES)
  }

  /** A pass has called about nobody exactly as long as its fetches were barren. */
  predicate StarvedSoFar(rows: seq<Row>, announced0: set<nat>, channel: string -> Option<string>, limit: nat, k: nat,
                         more: bool, posted: seq<nat>, announced: set<nat>, undeliverable: set<string>, calls: seq<Call>)
  {
    if Barren(rows, announced0, channel, limit, k)
    then && posted == [] && announced == announced0 && calls == []
         && undeliverable == Excluded(rows, announced0, channel, limit, k)
         && (!more ==> k > 0 && undeliverable == Excluded(rows, announced0, channel, limit, k - 1))
    else calls != []
  }

  lemma StarvedNext(rows: seq<Row>, announced0: set<nat>, channel: string -> Option<string>, muted: Row -> bool,
                    limit: nat, k: nat, more: bool, posted0: seq<nat>, done: set<nat>, excluded: set<string>,
                    calls0: seq<Call>, posted: seq<nat>, announced: set<nat>, undeliverable: set<string>, calls: seq<Call>)
    requires |posted0| < limit
    requires StarvedSoFar(rows, announced0, channel, limit, k, true, posted0, done, excluded, calls0)
    requires var pending := ListPending(rows, done, limit - |posted0|, excluded);
             && undeliverable == excluded + NoChannel(pending, channel)
             && (!more ==> undeliverable == excluded)
             && (Filter(pending, HasChannel(channel)) == [] ==> posted == posted0 && announced == done)
             && calls0 <= calls && Covers(calls[|calls0|..], Filter(pending, HasChannel(channel)), muted)
    ensures StarvedSoFar(rows, announced0, channel, limit, k + 1, more, posted, announced, undeliverable, calls)
  {
    hide ListPending, NoChannel, HasChannel, Filter, Covers, Barren;
    BarrenNext(rows, announced0, channel, limit, k);
    CoversSize(calls[|calls0|..], ListPending(rows, done, limit - |posted0|, excluded), channel, muted);
  }

  lemma BarrenNext(rows: seq<Row>, announced0: set<nat>, channel: string -> Option<string>, limit: nat, k: nat)
    ensures Barren(rows, announced0, channel, limit, k + 1) <==>
            Barren(rows, announced0, channel, limit, k) &&
            Filter(ListPending(rows, announced0, limit, Excluded(rows, announced0, channel, limit, k)), HasChannel(channel)) == []
  {
    hide ListPending, HasChannel, Filter, Excluded;
  }

  /** Once a barren fetch excludes nobody new, the rest would be the same. */
  lemma {:induction false} BarrenStays(rows: seq<Row>, announced0: set<nat>, channel: string -> Option<string>, limit: nat,
                                       k: nat, n: nat)
    requires 0 < k <= n && Barren(rows, announced0, channel, limit, k)
    requires Excluded(rows, announced0, channel, limit, k) == Excluded(rows, announced0, channel, limit, k - 1)
    ensures Barren(rows, announced0, channel, limit, n)
    ensures Excluded(rows, announced0, channel, limit, n) == Excluded(rows, announced0, channel, limit, k - 1)
    decreases n
  {
    hide ListPending, HasChannel, Filter, NoChannel, Barren;
    if k < n {
      BarrenStays(rows, announced0, channel, limit, k, n - 1);
      BarrenNext(rows, announced0, channel, limit, n - 1);
      BarrenNext(rows, announced0, channel, limit, k - 1);
    }
  }

  /** A pass that ends without a call was starved. */
  lemma StarvedEnds(rows: seq<Row>, announced0: set<nat>, channel: string -> Option<string>, limit: nat, k: nat,
                    more: bool, posted: seq<nat>, announced: set<nat>, undeliverable: set<string>, calls: seq<Call>)
    requires k <= MAX_FETCHES && (!more || k >= MAX_FETCHES || |posted| >= limit) && limit > 0
    requires StarvedSoFar(rows, announced0, channel, limit, k, more, posted, announced, undeliverable, calls)
    ensures calls == [] <==> Starved(rows, announced0, channel, limit)
    ensures Starved(rows, announced0, channel, limit) ==> posted == [] && announced == announced0
  {
    BarrenLess(rows, announced0, channel, limit, k);
    hide Barren, Excluded;
    if !more && Barren(rows, announced0, channel, limit, k) {
      BarrenStays(rows, announced0, channel, limit, k, MAX_FETCHES);
    }
  }

  lemma BarrenLess(rows: seq<Row>, announced0: set<nat>, channel: string -> Option<string>, limit: nat, k: nat)
    requires k <= MAX_FETCHES
    ensures Starved(rows, announced0, channel, limit) ==> Barren(rows, announced0, channel, limit, k)
  {
    hide ListPending, HasChannel, Filter, Excluded;
  }

  /** The rows of the first fetch that could be posted have each been called about. */
  predicate FirstTried(rows: seq<Row>, announced0: set<nat>, channel: string -> Option<string>, muted: Row -> bool,
                       limit: nat, trace: seq<Call>)
  {
    Attempted(trace, Filter(ListPending(rows, announced0, limit, {}), HasChannel(channel)), muted)
  }

  /** Later calls do not undo an attempt. */
  lemma AttemptedMore(rows: seq<Row>, announced0: set<nat>, channel: string -> Option<string>, muted: Row -> bool,
                      limit: nat, trace0: seq<Call>, trace: seq<Call>, pending: seq<Row>)
    requires Deliveries(trace0) <= Deliveries(trace)
    requires Covers(Deliveries(trace)[|Deliveries(trace0)|..], Filter(pending, HasChannel(channel)), muted)
    ensures FirstTried(rows, announced0, channel, muted, limit, trace0) ==>
              FirstTried(rows, announced0, channel, muted, limit, trace)
    ensures trace0 == [] && pending == ListPending(rows, announced0, limit, {}) ==>
              FirstTried(rows, announced0, channel, muted, limit, trace)
  {
    assert trace0 == [] ==> Deliveries(trace0) == [];
    hide Deliveries, HasChannel, ListPending, Covers;
    var all := Deliveries(trace);
    assert all[..|all|] == all == all[0..];
    var first := Filter(ListPending(rows, announced0, limit, {}), HasChannel(channel));
    hide Filter;
    if |first| <= |Deliveries(trace0)| {
      assert all[..|first|] == Deliveries(trace0)[..|first|];
    }
    CoversSize(all[|Deliveries(trace0)|..], pending, channel, muted);
  }

  lemma CoveredCount(trace: seq<Call>, front: seq<Row>, muted: Row -> bool)
    requires Covers(Deliveries(trace), front, muted)
    ensures Waivers(trace) == Count(front, muted)
    ensures Count(front, muted) == 0 <==> forall r :: r in front ==> !muted(r)
  {
    CoversCount(Deliveries(trace), front, muted);
    DeliveriesWaive(trace);
    CountPositive(front, muted);
  }

  lemma PassStarts(rows: seq<Row>, announced0: set<nat>, channel: string -> Option<string>, muted: Row -> bool,
                   lands: nat -> bool, limit: nat)
    ensures Resolved(map[], channel)
    ensures PassBooks(rows, announced0, channel, muted, lands, limit, 0, true, [], 0, announced0, {}, [])
  {
  }

  /** What the state of a finished pass means. */
  lemma PassEnds(rows: seq<Row>, announced0: set<nat>, channel: string -> Option<string>, muted: Row -> bool,
                 lands: nat -> bool, limit: nat, fetch: nat, more: bool, posted: seq<nat>, skipped: nat,
                 announced: set<nat>, undeliverable: set<string>, trace: seq<Call>)
    requires PassBooks(rows, announced0, channel, muted, lands, limit, fetch, more, posted, skipped, announced,
                       undeliverable, trace)
    requires fetch <= MAX_FETCHES && (!more || fetch >= MAX_FETCHES || |posted| >= limit)
    ensures Careful(trace) && NoRepeat(trace) && announced == announced0 + Marked(trace)
    ensures |posted| == Landings(trace) + skipped && skipped == Waivers(trace)
    ensures Addressed(trace, rows, channel, muted)
    ensures Attempted(trace, Filter(ListPending(rows, announced0, limit, {}), HasChannel(channel)), muted)
    ensures AllLanded(trace) && |Unconfigured(rows, announced0, channel)| < MAX_FETCHES ==>
              FrontDelivered(rows, announced0, channel, muted, limit, |posted| - skipped, announced, trace)
    ensures limit > 0 ==> (Deliveries(trace) == [] <==> Starved(rows, announced0, channel, limit))
    ensures Starved(rows, announced0, channel, limit) ==> |posted| == skipped && announced == announced0
    ensures AlwaysLands(lands) ==> AllLanded(trace)
  {
    hide AllLanded, Careful, NoRepeat, Marked, Addressed, Deliverable, Attempted, Starved, Deliveries, Barren, Excluded;
    hide Waivers, Landings, LandedIn, Filter, ListPending, HasChannel, Unconfigured, AlwaysLands, Covers, Count, Ids;
    var d := Deliverable(rows, announced0, channel);
    if fetch == 0 {
      NothingFetched(rows, announced0, channel, muted);
    }
    if limit > 0 {
      StarvedEnds(rows, announced0, channel, limit, fetch, more, posted, announced, undeliverable, Deliveries(trace));
    } else {
      BarrenLess(rows, announced0, channel, limit, fetch);
    }
    SubsetSize(undeliverable, Unconfigured(rows, announced0, channel));
    if AllLanded(trace) && |Unconfigured(rows, announced0, channel)| < MAX_FETCHES {
      assert |posted| == Min(limit, |d|);
      CoveredCount(trace, d[..|posted|], muted);
    }
  }

  lemma NothingFetched(rows: seq<Row>, announced0: set<nat>, channel: string -> Option<string>, muted: Row -> bool)
    ensures Attempted([], Filter(ListPending(rows, announced0, 0, {}), HasChannel(channel)), muted)
  {
  }

  /** A whole batch of opt-outs: the pass clears it, posts nothing, and reads no further. */
  method OptOutsEndThePass(rows: seq<Row>, channel: string -> Option<string>, limit: nat)
    returns (count: nat, announced: set<nat>, trace: seq<Call>)
    requires DistinctIds(rows) && 0 < limit < |rows| && forall r :: r in rows ==> channel(r.guildId).Some?
    ensures count == 0 && announced == (set id | id in Ids(rows[..limit])) && rows[limit].id !in announced
    ensures forall c :: c in trace ==> !c.Post?
  {
    var muted := (r: Row) => r in rows[..limit];
    var lands := (n: nat) => true;
    AllDeliverable(rows, channel);
    assert AlwaysLands(lands);
    hide DistinctIds, Deliverable, Unconfigured, FrontDelivered, Addressed, Attempted, Starved;
    hide Careful, NoRepeat, Landings, Marked, AlwaysLands, AllLanded, ListPending, Filter, HasChannel;
    count, announced, trace := AnnounceOnce(rows, {}, channel, muted, lands, limit);
    AllMuted(rows, channel, muted, limit, count, announced, trace);
  }

  lemma AllMuted(rows: seq<Row>, channel: string -> Option<string>, muted: Row -> bool, limit: nat, count: nat,
                 announced: set<nat>, trace: seq<Call>)
    requires DistinctIds(rows) && limit < |rows| && Deliverable(rows, {}, channel) == rows
    requires FrontDelivered(rows, {}, channel, muted, limit, count, announced, trace)
    requires forall r :: r in rows[..limit] ==> muted(r)
    ensures count == 0 && announced == (set id | id in Ids(rows[..limit])) && rows[limit].id !in announced
    ensures forall c :: c in trace ==> !c.Post?
  {
    hide Deliverable, Covers, Count, Deliveries;
    assert Covers(Deliveries(trace), rows[..limit], muted);
    OnlyWaived(trace, rows[..limit], muted);
    FrontCleanly(rows, limit, announced);
  }

  lemma FrontCleanly(rows: seq<Row>, limit: nat, announced: set<nat>)
    requires DistinctIds(rows) && limit < |rows| && announced == {} + set id | id in Ids(rows[..limit])
    ensures announced == (set id | id in Ids(rows[..limit])) && rows[limit].id !in announced
  {
    FrontGone(rows, limit);
    assert rows[limit] in rows[limit..];
  }

  lemma AllDeliverable(rows: seq<Row>, channel: string -> Option<string>)
    requires forall r :: r in rows ==> channel(r.guildId).Some?
    ensures Deliverable(rows, {}, channel) == rows && |Unconfigured(rows, {}, channel)| == 0
  {
    FilterAll(rows, Unannounced({}));
    FilterAll(rows, HasChannel(channel));
    assert Unconfigured(rows, {}, channel) == {};
  }

  lemma OnlyWaived(trace: seq<Call>, front: seq<Row>, muted: Row -> bool)
    requires Covers(Deliveries(trace), front, muted) && forall r :: r in front ==> muted(r)
    ensures Count(front, muted) == |front| && forall c :: c in trace ==> !c.Post?
  {
    AllCounted(front, muted);
    forall c | c in trace ensures !c.Post? {
      FilterMember(trace, IsDelivery, c);
      if c in Deliveries(trace) {
        var i :| 0 <= i < |Deliveries(trace)| && Deliveries(trace)[i] == c;
        assert front[i] in front;
      }
    }
  }

  lemma {:induction false} AllCounted(rows: seq<Row>, holds: Row -> bool)
    requires forall r :: r in rows ==> holds(r)
    ensures Count(rows, holds) == |rows|
  {
    if rows != [] {
      AllCounted(rows[1..], holds);
    }
  }

  /** The milestone pass: nobody opts out, so with at most three guilds without a channel and every post landing it
      posts exactly the oldest min(limit, n) of the n deliverable rows. */
  method AnnounceMilestonesOnce(rows: seq<Row>, announced0: set<nat>, channel: string -> Option<string>,
                                lands: nat -> bool, limit: nat)
    returns (count: nat, announced: set<nat>, trace: seq<Call>)
    requires DistinctIds(rows)
    ensures var muted := (r: Row) => false;
            var end := Turns(rows, channel, muted, lands, limit, PassState([], announced0, {}, [], true), MAX_FETCHES);
            announced == end.announced && trace == end.trace && count == |end.posted|
    ensures Careful(trace) && NoRepeat(trace) && announced == announced0 + Marked(trace) && count == Landings(trace)
    ensures forall id :: id in Marked(trace) ==> Post(id, true) in trace
    ensures limit > 0 ==> (Deliveries(trace) == [] <==> Starved(rows, announced0, channel, limit))
    ensures AllLanded(trace) && |Unconfigured(rows, announced0, channel)| < MAX_FETCHES ==>
              var d := Deliverable(rows, announced0, channel);
              && announced == announced0 + (set id | id in Ids(d[..Min(limit, |d|)]))
              && count == Min(limit, |d|)
  {
    hide Turns, Careful, NoRepeat, Marked, Landings, Waivers, Deliveries, Starved, AllLanded, Unconfigured, DistinctIds;
    hide Addressed, FrontDelivered, Attempted, Deliverable, Ids;
    var muted := (r: Row) => false;
    count, announced, trace := AnnounceOnce(rows, announced0, channel, muted, lands, limit);
    NobodyWaived(trace, rows, channel, muted);
    if AllLanded(trace) && |Unconfigured(rows, announced0, channel)| < MAX_FETCHES {
      FrontPosted(rows, announced0, channel, muted, limit, count, announced, trace);
    }
  }

  lemma NobodyWaived(trace: seq<Call>, rows: seq<Row>, channel: string -> Option<string>, muted: Row -> bool)
    requires Addressed(trace, rows, channel, muted) && Careful(trace) && forall r :: !muted(r)
    ensures Waivers(trace) == 0 && forall id :: id in Marked(trace) ==> Post(id, true) in trace
  {
    CountPositive(trace, IsWaiver);
    forall id | id in Marked(trace) ensures Post(id, true) in trace {
      MarkedEarned(trace, id);
    }
  }

  lemma FrontPosted(rows: seq<Row>, announced0: set<nat>, channel: string -> Option<string>, muted: Row -> bool, limit: nat,
                    count: nat, announced: set<nat>, trace: seq<Call>)
    requires FrontDelivered(rows, announced0, channel, muted, limit, count, announced, trace) && forall r :: !muted(r)
    ensures var d := Deliverable(rows, announced0, channel);
            && announced == announced0 + (set id | id in Ids(d[..Min(limit, |d|)]))
            && count == Min(limit, |d|)
  {
    hide Deliverable, Covers, Ids, Count;
  }
}
