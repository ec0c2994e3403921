/** When a publish left to itself adds a board message (apps/bridge-bot/src/event-board.ts:229-281): the search and the
    edits may fail, and then the card goes up beside one that is there. */
module EventBoardTwins {
  import opened Prelude
  import opened EventBoard

  /** The search fails and the post lands; or the search finds the board, its edit fails, forgetting it is written down,
      and the post lands. */
  predicate Missed(outcomes: nat -> Outcome, k: nat) {
    || (!outcomes(k).ok && outcomes(k + 1).ok)
    || (outcomes(k).ok && !outcomes(k + 1).ok && outcomes(k + 2).ok && outcomes(k + 3).ok)
  }

  /** A publish that looks for a board at its k-th call posts a new one. Without a board it is enough that the post lands. */
  predicate PostsAfterSearch(live: map<nat, Card>, outcomes: nat -> Outcome, k: nat) {
    if live == map[] then outcomes(k + 1).ok else Missed(outcomes, k)
  }

  /** The same from the end of the mirror on: an edit of the stored message that lands spares the search. */
  predicate PostsAfterMirror(live: map<nat, Card>, ev: Snapshot, ch: string, outcomes: nat -> Outcome, k: nat) {
    if ev.messageId.Some?
    then !(LiveIn(live, ch, ev.messageId.value) && outcomes(k).ok) && PostsAfterSearch(live, outcomes, k + 1)
    else PostsAfterSearch(live, outcomes, k)
  }

  /** How many calls keeping the native event in step takes. */
  function MirrorCalls(ev: Snapshot, now: int, outcomes: nat -> Outcome, k: nat): nat {
    if ev.discordEventId.Some? then 1
    else if ev.row.status.SCHEDULED? && ev.row.startsAt > now then if outcomes(k).ok then 2 else 1
    else 0
  }

  /** The whole publish. The channel costs a call when it is not stored, and there is none without a slot. */
  predicate Posts(w: World, sameGuild: bool, now: int, outcomes: nat -> Outcome) {
    var ev := SnapshotOf(w);
    sameGuild &&
    if ev.channelId.Some?
    then PostsAfterMirror(w.live, ev, ev.channelId.value, outcomes, MirrorCalls(ev, now, outcomes, 0))
    else w.slot.Some? &&
         PostsAfterMirror(w.live, ev, w.slot.value, outcomes, 1 + MirrorCalls(ev, outcomes(0).now, outcomes, 1))
  }

  function Grown(w: World, posts: bool): set<nat> {
    w.live.Keys + if posts then {w.nextId} else {}
  }

  lemma PostAdds(w: World, ev: Snapshot, ch: string, outcomes: nat -> Outcome, k: nat)
    requires w.pc == PostCard(ev, ch)
    ensures Finish(w, outcomes, k).live.Keys == Grown(w, outcomes(k).ok)
  {
    hide Finish, CardFor;
    var w1 := Next(w, outcomes(k));
    FinishStep(w, outcomes, k);
    FinishStep(w1, outcomes, k + 1);
  }

  lemma OrphanAdds(w: World, ev: Snapshot, ch: string, id: nat, outcomes: nat -> Outcome, k: nat)
    requires w.pc == EditOrphan(ev, ch, id) && LiveIn(w.live, ch, id)
    ensures Finish(w, outcomes, k).live.Keys
            == Grown(w, !outcomes(k).ok && outcomes(k + 1).ok && outcomes(k + 2).ok)
  {
    hide Finish, CardFor, IsFinal;
    var w1 := Next(w, outcomes(k));
    assert w1.live.Keys == w.live.Keys && w1.nextId == w.nextId;
    FinishStep(w, outcomes, k);
    FinishStep(w1, outcomes, k + 1);
    if !outcomes(k).ok && outcomes(k + 1).ok {
      PostAdds(Next(w1, outcomes(k + 1)), ev, ch, outcomes, k + 2);
    }
  }

  /** From the search on. */
  lemma SearchAdds(w: World, ev: Snapshot, home: string, outcomes: nat -> Outcome, k: nat)
    requires Settled(w, home) && w.pc == FindBoard(ev, home)
    ensures Finish(w, outcomes, k).live.Keys == Grown(w, PostsAfterSearch(w.live, outcomes, k))
  {
    SearchComplete(w, home);
    hide Finish, Search, Settled, LiveIn;
    var found := Search(w.live, home, 0, w.nextId);
    assert found.Some? <==> w.live != map[] by {
      FoundSomething(w, home);
    }
    FinishStep(w, outcomes, k);
    var w1 := Next(w, outcomes(k));
    if w1.pc.PostCard? {
      PostAdds(w1, ev, home, outcomes, k + 1);
    } else {
      OrphanAdds(w1, ev, home, found.value, outcomes, k + 1);
    }
  }

  lemma FoundSomething(w: World, home: string)
    requires Settled(w, home)
    ensures Search(w.live, home, 0, w.nextId).Some? <==> w.live != map[]
  {
    SearchComplete(w, home);
    assert w.live.Keys == {} ==> w.live == map[];
  }

  /** From the end of the mirror on. */
  lemma MessageAdds(w: World, ev: Snapshot, home: string, outcomes: nat -> Outcome, k: nat)
    requires Settled(w, home) && w.pc == AfterMirror(ev, home)
    ensures Finish(w, outcomes, k).live.Keys == Grown(w, PostsAfterMirror(w.live, ev, home, outcomes, k))
  {
    hide Finish, Settled, PostsAfterSearch, CardFor;
    if ev.messageId.Some? {
      FinishStep(w, outcomes, k);
      var w1 := Next(w, outcomes(k));
      if LiveIn(w.live, home, ev.messageId.value) && outcomes(k).ok {
        assert w1.live.Keys == w.live.Keys;
        FinishStep(w1, outcomes, k + 1);
      } else {
        Repositioned(w, w1, home);
        SearchAdds(w1, ev, home, outcomes, k + 1);
      }
    } else {
      SearchAdds(w, ev, home, outcomes, k);
    }
  }

  /** What the messages and the channel say does not depend on where a publish stands. */
  lemma Repositioned(w: World, w': World, home: string)
    requires Settled(w, home)
    requires w'.live == w.live && w'.nextId == w.nextId && w'.misses == w.misses
    requires w'.slot == w.slot && w'.channelId == w.channelId
    ensures Settled(w', home)
  {
  }

  /** The mirror only takes its calls. */
  lemma MirrorAdds(w: World, ev: Snapshot, home: string, now: int, outcomes: nat -> Outcome, k: nat)
    requires Settled(w, home) && w.pc == Mirroring(ev, home, now)
    ensures Finish(w, outcomes, k).live.Keys
            == Grown(w, PostsAfterMirror(w.live, ev, home, outcomes, k + MirrorCalls(ev, now, outcomes, k)))
  {
    hide Finish, Settled, PostsAfterMirror, AfterMirror;
    if ev.discordEventId.Some? {
      FinishStep(w, outcomes, k);
      var w1 := Next(w, outcomes(k));
      Repositioned(w, w1, home);
      MessageAdds(w1, ev, home, outcomes, k + 1);
    } else if ev.row.status.SCHEDULED? && ev.row.startsAt > now {
      CreationAdds(w, ev, home, outcomes, k);
    } else {
      MessageAdds(w, ev, home, outcomes, k);
    }
  }

  lemma CreationAdds(w: World, ev: Snapshot, home: string, outcomes: nat -> Outcome, k: nat)
    requires Settled(w, home) && w.pc == CreateNative(ev, home)
    ensures Finish(w, outcomes, k).live.Keys
            == Grown(w, PostsAfterMirror(w.live, ev, home, outcomes, if outcomes(k).ok then k + 2 else k + 1))
  {
    hide Finish, Settled, PostsAfterMirror, AfterMirror;
    FinishStep(w, outcomes, k);
    var w1 := Next(w, outcomes(k));
    Repositioned(w, w1, home);
    if outcomes(k).ok {
      FinishStep(w1, outcomes, k + 1);
      var w2 := Next(w1, outcomes(k + 1));
      Repositioned(w1, w2, home);
      MessageAdds(w2, ev, home, outcomes, k + 2);
    } else {
      MessageAdds(w1, ev, home, outcomes, k + 1);
    }
  }

  /** A publish that has to ask for the channel. */
  lemma ChannelAdds(w: World, ev: Snapshot, home: string, outcomes: nat -> Outcome)
    requires Settled(w, home) && w.pc == GetChannel(ev)
    ensures Finish(w, outcomes, 0).live.Keys
            == Grown(w, w.slot.Some? && PostsAfterMirror(w.live, ev, w.slot.value, outcomes,
                                                         1 + MirrorCalls(ev, outcomes(0).now, outcomes, 1)))
  {
    hide Finish, Settled, PostsAfterMirror, MirrorCalls, Mirroring, Grown;
    HomeChannel(w, home);
    FinishStep(w, outcomes, 0);
    if w.slot.Some? {
      var w1 := w.(pc := Mirroring(ev, home, outcomes(0).now));
      assert Next(w, outcomes(0)) == w1;
      Repositioned(w, w1, home);
      MirrorAdds(w1, ev, home, outcomes(0).now, outcomes, 1);
      SameGrowth(w, w1, PostsAfterMirror(w.live, ev, home, outcomes, 1 + MirrorCalls(ev, outcomes(0).now, outcomes, 1)));
    } else {
      NoGrowth(w);
    }
  }

  lemma HomeChannel(w: World, home: string)
    requires Settled(w, home)
    ensures w.slot.Some? ==> w.slot.value == home
    ensures w.channelId.Some? ==> w.channelId.value == home
  {
  }

  lemma SameGrowth(w: World, w': World, posts: bool)
    requires w'.live == w.live && w'.nextId == w.nextId
    ensures Grown(w', posts) == Grown(w, posts)
  {
  }

  lemma NoGrowth(w: World)
    ensures Grown(w, false) == w.live.Keys
  {
  }

  /** A publish left to itself adds one board when `Posts` says so, and otherwise leaves the messages there were. */
  lemma PublishAdds(w: World, home: string, sameGuild: bool, now: int, outcomes: nat -> Outcome)
    requires Settled(w, home) && w.pc.Idle?
    ensures Finish(Begun(w, sameGuild, now), outcomes, 0).live.Keys == Grown(w, Posts(w, sameGuild, now, outcomes))
  {
    hide Finish, Settled, PostsAfterMirror, MirrorCalls, Mirroring, Grown;
    HomeChannel(w, home);
    var ev, w0 := SnapshotOf(w), Begun(w, sameGuild, now);
    Repositioned(w, w0, home);
    SameGrowth(w, w0, Posts(w, sameGuild, now, outcomes));
    if !sameGuild {
      FinishedAlready(w0, outcomes, 0);
      NoGrowth(w);
    } else if ev.channelId.Some? {
      MirrorAdds(w0, ev, home, now, outcomes, 0);
    } else {
      ChannelAdds(w0, ev, home, outcomes);
    }
  }

  lemma FinishedAlready(w: World, outcomes: nat -> Outcome, k: nat)
    requires w.pc.Idle?
    ensures Finish(w, outcomes, k) == w
  {
  }

  /** An event with one board gets a second one from a publish left to itself if and only if the publish posts: its
      search fails, or its edits fail, and the post lands. */
  lemma TwinExactly(row: Row, slot: Option<string>, home: string, actions: seq<Action>, w: World, sameGuild: bool, now: int,
                    outcomes: nat -> Outcome)
    requires Reached(row, slot, home, actions, w) && w.pc.Idle? && |w.live.Keys| == 1
    ensures var w' := Finish(Begun(w, sameGuild, now), outcomes, 0);
            && (|w'.live.Keys| == 2 <==> Posts(w, sameGuild, now, outcomes))
            && (!Posts(w, sameGuild, now, outcomes) ==> w'.live.Keys == w.live.Keys)
  {
    hide Reached, Finish, Begun, Posts, InProgress;
    ReachedSettled(row, slot, home, actions, w);
    PublishAdds(w, home, sameGuild, now, outcomes);
    NextIdIsNew(w, home);
    hide Settled;
  }

  lemma ReachedSettled(row: Row, slot: Option<string>, home: string, actions: seq<Action>, w: World)
    requires Reached(row, slot, home, actions, w)
    ensures Settled(w, home)
  {
    RunKeeps(Start(row, slot), actions, home);
  }

  lemma NextIdIsNew(w: World, home: string)
    requires Settled(w, home)
    ensures w.nextId !in w.live.Keys
  {
  }

  /** The publish has the id of its board, and the board is there. */
  predicate AtStoredBoard(w: World) {
    && w.pc == EditStored(SnapshotOf(w), "events") && w.messageId == Some(0)
    && w.live.Keys == {0} && LiveIn(w.live, "events", 0) && w.nextId == 1 && w.misses == 0
  }

  lemma StoredBoard(row: Row)
    requires !row.status.SCHEDULED?
    ensures var go := Call(Outcome(true, 0));
            var w3 := Apply(Apply(Apply(Start(row, Some("events")), Begin(true, 0)), go), go);
            AtStoredBoard(Apply(Apply(Apply(w3, go), go), Begin(true, 0)))
  {
    var go := Call(Outcome(true, 0));
    var w0 := Start(row, Some("events"));
    var w3 := Apply(Apply(Apply(w0, Begin(true, 0)), go), go);
    assert w3 == w0.(pc := PostCard(SnapshotOf(w0), "events"));
  }

  lemma EditsFail(w: World)
    requires AtStoredBoard(w)
    ensures var go, fail := Call(Outcome(true, 0)), Call(Outcome(false, 0));
            var w3 := Apply(Apply(Apply(w, fail), go), fail);
            var w6 := Apply(Apply(Apply(w3, go), go), go);
            w6.live.Keys == {0, 1} && w6.misses == 1 && w6.messageId == Some(1)
  {
    hide CardFor;
    var go, fail := Call(Outcome(true, 0)), Call(Outcome(false, 0));
    var ev := SnapshotOf(w);
    var w1 := Apply(w, fail);
    assert w1 == w.(pc := FindBoard(ev, "events"));
    var w3 := Apply(Apply(w1, go), fail);
    assert w3 == w.(pc := BindOrphan(ev, "events", 0, false), misses := 1);
    var w4 := Apply(w3, go);
    assert w4.pc == PostCard(ev, "events") && w4.live == w.live && w4.nextId == 1 && w4.misses == 1;
  }

  /** The other way to a second board: the board is stored and there, both edits of it fail, and the post lands. */
  lemma FailedEditsDuplicateBoard(row: Row)
    requires !row.status.SCHEDULED?
    ensures var go, fail := Call(Outcome(true, 0)), Call(Outcome(false, 0));
            var w := Run(Start(row, Some("events")),
                         [Begin(true, 0), go, go] + ([go, go, Begin(true, 0)] + ([fail, go, fail] + ([go, go, go] + []))));
            w.live.Keys == {0, 1} && w.misses == 1 && w.messageId == Some(1)
  {
    hide Apply, AtStoredBoard, Run;
    var go, fail := Call(Outcome(true, 0)), Call(Outcome(false, 0));
    var w0 := Start(row, Some("events"));
    var w3 := Apply(Apply(Apply(w0, Begin(true, 0)), go), go);
    var w6 := Apply(Apply(Apply(w3, go), go), Begin(true, 0));
    var w9 := Apply(Apply(Apply(w6, fail), go), fail);
    StoredBoard(row);
    EditsFail(w6);
    RunThree(w0, Begin(true, 0), go, go, [go, go, Begin(true, 0)] + ([fail, go, fail] + ([go, go, go] + [])));
    RunThree(w3, go, go, Begin(true, 0), [fail, go, fail] + ([go, go, go] + []));
    RunThree(w6, fail, go, fail, [go, go, go] + []);
    RunThree(w9, go, go, go, []);
    RunNone(Apply(Apply(Apply(w9, go), go), go));
  }

  lemma RunNone(w: World)
    ensures Run(w, []) == w
  {
  }
}
