/** Publishing one event's board message (apps/bridge-bot/src/event-board.ts), call by call. The stored row and the
    Discord channel are two systems; a crash can fall between any two calls, calls fail, and moderators delete messages
    whenever they like. Publishes of one event do not overlap. */
module EventBoard {
  import opened Prelude

  datatype Status = SCHEDULED | LIVE | COMPLETED | CANCELLED

  /** What the card shows of the row. `version` stands for the text fields. */
  datatype Row = Row(version: nat, status: Status, startsAt: int)

  /** A board message in a channel. */
  datatype Card = Card(channel: string, row: Row, buttons: bool)

  /** The row as one publish read it. */
  datatype Snapshot = Snapshot(row: Row, channelId: Option<string>, messageId: Option<nat>, discordEventId: Option<nat>)

  /** The next port call of a publish in progress. */
  datatype Pc =
    | Idle
    | GetChannel(ev: Snapshot)
    | UpdateNative(ev: Snapshot, ch: string)
    | CreateNative(ev: Snapshot, ch: string)
    | BindNative(ev: Snapshot, ch: string, native: nat)
    | EditStored(ev: Snapshot, ch: string)
    | BindEdited(ev: Snapshot, ch: string)
    | FindBoard(ev: Snapshot, ch: string)
    | EditOrphan(ev: Snapshot, ch: string, orphan: nat)
    | BindOrphan(ev: Snapshot, ch: string, orphan: nat, edited: bool)
    | PostCard(ev: Snapshot, ch: string)
    | BindPosted(ev: Snapshot, ch: string, posted: nat)
    | Unbind(ev: Snapshot, ch: string)

  datatype Result = Ok(channel: string, message: nat, edited: bool, final: bool) | NO_EVENT | NO_CHANNEL | NOT_POSTED

  /** `result` is None until a publish resolves, and again when one rejects. `deleted`, `lost` and `misses` are history:
      messages removed by others, native events made but never recorded, and the times a publish went on to post although
      a board was there: a search that failed, or an edit of the board it found. */
  datatype World = World(
    row: Row,
    channelId: Option<string>,
    messageId: Option<nat>,
    final: bool,
    discordEventId: Option<nat>,
    slot: Option<string>,
    live: map<nat, Card>,
    nextId: nat,
    natives: nat,
    pc: Pc,
    result: Option<Result>,
    deleted: set<nat>,
    lost: nat,
    misses: nat)

  /** How the next call turns out: whether it succeeds, as far as it can, and the clock. */
  datatype Outcome = Outcome(ok: bool, now: int)

  predicate IsFinal(s: Status) {
    s.COMPLETED? || s.CANCELLED?
  }

  function CardFor(ev: Snapshot, ch: string): Card {
    Card(ch, ev.row, !IsFinal(ev.row.status))
  }

  predicate LiveIn(live: map<nat, Card>, ch: string, id: nat) {
    id in live && live[id].channel == ch
  }

  /** `findBoard`: some board in the channel if there is one; the oldest, say. */
  function Search(live: map<nat, Card>, ch: string, from: nat, limit: nat): (r: Option<nat>)
    requires from <= limit
    ensures r.Some? ==> from <= r.value < limit && LiveIn(live, ch, r.value)
    ensures r.None? ==> forall id :: from <= id < limit ==> !LiveIn(live, ch, id)
    decreases limit - from
  {
    if from == limit then None
    else if LiveIn(live, ch, from) then Some(from)
    else Search(live, ch, from + 1, limit)
  }

  function SnapshotOf(w: World): Snapshot {
    Snapshot(w.row, w.channelId, w.messageId, w.discordEventId)
  }

  function Bound(w: World, ok: bool, ch: string, message: Option<nat>, final: bool): World {
    if ok then w.(channelId := Some(ch), messageId := message, final := final) else w
  }

  function Done(w: World, r: Result): World {
    w.(pc := Idle, result := Some(r))
  }

  /** A write that fails uncaught ends the publish without a result. */
  function Recorded(w: World, ok: bool, r: Result): World {
    w.(pc := Idle, result := if ok then Some(r) else None)
  }

  /** Once the channel is known: mirror first, and then edit or look for the message. */
  function Mirroring(ev: Snapshot, ch: string, now: int): (pc: Pc)
    ensures 0 < Rank(pc) < 9
  {
    if ev.discordEventId.Some? then UpdateNative(ev, ch)
    else if ev.row.status.SCHEDULED? && ev.row.startsAt > now then CreateNative(ev, ch)
    else AfterMirror(ev, ch)
  }

  function AfterMirror(ev: Snapshot, ch: string): (pc: Pc)
    ensures 0 < Rank(pc) < 7
  {
    if ev.messageId.Some? then EditStored(ev, ch) else FindBoard(ev, ch)
  }

  /** The read of the row that starts a publish. */
  function Begun(w: World, sameGuild: bool, now: int): World {
    var ev := SnapshotOf(w);
    if !sameGuild then Done(w, NO_EVENT)
    else if ev.channelId.None? then w.(pc := GetChannel(ev))
    else w.(pc := Mirroring(ev, ev.channelId.value, now))
  }

  function CreatedNative(w: World, ev: Snapshot, ch: string, ok: bool): (w': World)
    ensures 0 < Rank(w'.pc) < 8
  {
    if ok then w.(natives := w.natives + 1, pc := BindNative(ev, ch, w.natives)) else w.(pc := AfterMirror(ev, ch))
  }

  function BoundNative(w: World, ev: Snapshot, ch: string, native: nat, ok: bool): (w': World)
    ensures 0 < Rank(w'.pc) < 7
  {
    if ok then w.(discordEventId := Some(native), pc := AfterMirror(ev, ch))
    else w.(lost := w.lost + 1, pc := AfterMirror(ev, ch))
  }

  function EditedStored(w: World, ev: Snapshot, ch: string, ok: bool): (w': World)
    ensures 0 < Rank(w'.pc) < 6
  {
    if ev.messageId.Some? && LiveIn(w.live, ch, ev.messageId.value) && ok
    then w.(live := w.live[ev.messageId.value := CardFor(ev, ch)], pc := BindEdited(ev, ch))
    else w.(pc := FindBoard(ev, ch))
  }

  function Found(w: World, ev: Snapshot, ch: string, ok: bool): (w': World)
    ensures 0 < Rank(w'.pc) < 5
  {
    var found := Search(w.live, ch, 0, w.nextId);
    if ok && found.Some? then w.(pc := EditOrphan(ev, ch, found.value))
    else w.(pc := PostCard(ev, ch), misses := w.misses + if found.Some? then 1 else 0)
  }

  function EditedOrphan(w: World, ev: Snapshot, ch: string, id: nat, ok: bool): (w': World)
    ensures 0 < Rank(w'.pc) < 4
  {
    if LiveIn(w.live, ch, id) && ok
    then w.(live := w.live[id := CardFor(ev, ch)], pc := BindOrphan(ev, ch, id, true))
    else w.(pc := BindOrphan(ev, ch, id, false), misses := w.misses + if LiveIn(w.live, ch, id) then 1 else 0)
  }

  function BoundOrphan(w: World, ev: Snapshot, ch: string, id: nat, edited: bool, ok: bool): (w': World)
    ensures Rank(w'.pc) < 3
  {
    var w' := Bound(w, ok, ch, if edited then Some(id) else None, edited && IsFinal(ev.row.status));
    if edited || !ok then Recorded(w', ok, Ok(ch, id, true, IsFinal(ev.row.status))) else w'.(pc := PostCard(ev, ch))
  }

  function Posted(w: World, ev: Snapshot, ch: string, ok: bool): (w': World)
    ensures 0 < Rank(w'.pc) < 2
  {
    if ok
    then w.(live := w.live[w.nextId := CardFor(ev, ch)], nextId := w.nextId + 1, pc := BindPosted(ev, ch, w.nextId))
    else w.(pc := Unbind(ev, ch))
  }

  /** The write of the stored id that ends a publish. */
  function BoundLast(w: World, ev: Snapshot, ch: string, id: nat, edited: bool, ok: bool): (w': World)
    ensures w'.pc.Idle?
  {
    Recorded(Bound(w, ok, ch, Some(id), IsFinal(ev.row.status)), ok, Ok(ch, id, edited, IsFinal(ev.row.status)))
  }

  /** One port call and the code up to the next one. */
  function Next(w: World, o: Outcome): World {
    match w.pc
    case Idle => w
    case GetChannel(ev) =>
      if w.slot.None? then Done(w, NO_CHANNEL) else w.(pc := Mirroring(ev, w.slot.value, o.now))
    case UpdateNative(ev, ch) => w.(pc := AfterMirror(ev, ch))
    case CreateNative(ev, ch) => CreatedNative(w, ev, ch, o.ok)
    case BindNative(ev, ch, native) => BoundNative(w, ev, ch, native, o.ok)
    case EditStored(ev, ch) => EditedStored(w, ev, ch, o.ok)
    case BindEdited(ev, ch) => BoundLast(w, ev, ch, if ev.messageId.Some? then ev.messageId.value else 0, true, o.ok)
    case FindBoard(ev, ch) => Found(w, ev, ch, o.ok)
    case EditOrphan(ev, ch, id) => EditedOrphan(w, ev, ch, id, o.ok)
    case BindOrphan(ev, ch, id, edited) => BoundOrphan(w, ev, ch, id, edited, o.ok)
    case PostCard(ev, ch) => Posted(w, ev, ch, o.ok)
    case BindPosted(ev, ch, id) => BoundLast(w, ev, ch, id, false, o.ok)
    case Unbind(ev, ch) => Done(Bound(w, o.ok, ch, None, false), NOT_POSTED)
  }

  /** How many calls a publish has left at most. */
  function Rank(pc: Pc): nat {
    match pc
    case Idle => 0
    case GetChannel(_) => 9
    case UpdateNative(_, _) | CreateNative(_, _) => 8
    case BindNative(_, _, _) => 7
    case EditStored(_, _) => 6
    case FindBoard(_, _) => 5
    case BindEdited(_, _) => 4
    case EditOrphan(_, _, _) => 4
    case BindOrphan(_, _, _, _) => 3
    case PostCard(_, _) => 2
    case BindPosted(_, _, _) | Unbind(_, _) => 1
  }

  /** A publish with nothing interleaved: `outcomes(k)` is how its k-th call turns out. */
  function Finish(w: World, outcomes: nat -> Outcome, k: nat): World
    decreases Rank(w.pc)
  {
    if w.pc.Idle? then w else Finish(Next(w, outcomes(k)), outcomes, k + 1)
  }

  lemma FinishStep(w: World, outcomes: nat -> Outcome, k: nat)
    requires !w.pc.Idle?
    ensures Finish(w, outcomes, k) == Finish(Next(w, outcomes(k)), outcomes, k + 1)
    ensures Next(w, outcomes(k)).pc.Idle? ==> Finish(w, outcomes, k) == Next(w, outcomes(k))
  {
  }

  /** The gateway, with the two systems it talks to as its fields. */
  class EventBoardGateway {
    var row: Row
    var channelId: Option<string>
    var messageId: Option<nat>
    var final: bool
    var discordEventId: Option<nat>
    var slot: Option<string>
    var live: map<nat, Card>
    var nextId: nat
    var natives: nat
    ghost var deleted: set<nat>
    ghost var lost: nat
    ghost var misses: nat

    ghost function View(pc: Pc, result: Option<Result>): World
      reads this
    {
      World(row, channelId, messageId, final, discordEventId, slot, live, nextId, natives, pc, result, deleted, lost,
            misses)
    }

    constructor (row: Row, slot: Option<string>)
      ensures View(Idle, None) == Start(row, slot)
    {
      this.row, this.slot := row, slot;
      channelId, messageId, final, discordEventId, live, nextId, natives := None, None, false, None, map[], 0, 0;
      deleted, lost, misses := {}, 0, 0;
    }

    method Bind(ok: bool, ch: string, message: Option<nat>, isFinal: bool)
      modifies `channelId, `messageId, `final
      ensures forall pc, r :: View(pc, r) == Bound(old(View(pc, r)), ok, ch, message, isFinal)
    {
      if ok {
        channelId, messageId, final := Some(ch), message, isFinal;
      }
    }

    /** Keep the native event in step. Returns how many calls have been made. */
    method MirrorEvent(ev: Snapshot, ch: string, now: int, outcomes: nat -> Outcome, k0: nat, ghost r: Option<Result>)
      returns (k: nat)
      modifies `natives, `discordEventId, `lost
      ensures Finish(View(AfterMirror(ev, ch), r), outcomes, k) == Finish(old(View(Mirroring(ev, ch, now), r)), outcomes, k0)
    {
      k := k0;
      if ev.discordEventId.Some? {
        k := k + 1;
        return;
      }
      if !ev.row.status.SCHEDULED? || ev.row.startsAt <= now {
        return;
      }
      var created := outcomes(k).ok;
      k := k + 1;
      if !created {
        return;
      }
      var native := natives;
      natives := natives + 1;
      assert Finish(View(BindNative(ev, ch, native), r), outcomes, k)
          == Finish(old(View(Mirroring(ev, ch, now), r)), outcomes, k0);
      if outcomes(k).ok {
        discordEventId := Some(native);
      } else {
        lost := lost + 1;
      }
      k := k + 1;
    }

    /** Adopt a board this event already has, or post one. None when a write fails uncaught. */
    method AdoptOrPost(ev: Snapshot, ch: string, outcomes: nat -> Outcome, k0: nat, ghost r: Option<Result>)
      returns (result: Option<Result>)
      modifies this
      ensures View(Idle, result) == Finish(old(View(FindBoard(ev, ch), r)), outcomes, k0)
    {
      ghost var target := Finish(View(FindBoard(ev, ch), r), outcomes, k0);
      var k := k0;
      var present := Search(live, ch, 0, nextId);
      if present.Some? && outcomes(k).ok {
        k := k + 1;
        assert Finish(View(EditOrphan(ev, ch, present.value), r), outcomes, k) == target;
        result := Adopt(ev, ch, present.value, outcomes, k, r);
        return;
      }
      misses := misses + if present.Some? then 1 else 0;
      k := k + 1;
      assert Finish(View(PostCard(ev, ch), r), outcomes, k) == target;
      result := PostFresh(ev, ch, outcomes, k, r);
    }

    /** The board found is edited and recorded; if that fails, it is forgotten and a new one posted. */
    method Adopt(ev: Snapshot, ch: string, orphan: nat, outcomes: nat -> Outcome, k0: nat, ghost r: Option<Result>)
      returns (result: Option<Result>)
      modifies this
      ensures View(Idle, result) == Finish(old(View(EditOrphan(ev, ch, orphan), r)), outcomes, k0)
    {
      hide Finish, CardFor, IsFinal;
      FinishStep(View(EditOrphan(ev, ch, orphan), r), outcomes, k0);
      var isFinal := IsFinal(ev.row.status);
      var edited := LiveIn(live, ch, orphan) && outcomes(k0).ok;
      if edited {
        live := live[orphan := CardFor(ev, ch)];
      } else {
        misses := misses + if LiveIn(live, ch, orphan) then 1 else 0;
      }
      FinishStep(View(BindOrphan(ev, ch, orphan, edited), r), outcomes, k0 + 1);
      var bound := outcomes(k0 + 1).ok;
      Bind(bound, ch, if edited then Some(orphan) else None, edited && isFinal);
      if edited || !bound {
        return if bound then Some(Ok(ch, orphan, true, isFinal)) else None;
      }
      result := PostFresh(ev, ch, outcomes, k0 + 2, r);
    }

    method PostFresh(ev: Snapshot, ch: string, outcomes: nat -> Outcome, k0: nat, ghost r: Option<Result>)
      returns (result: Option<Result>)
      modifies this
      ensures View(Idle, result) == Finish(old(View(PostCard(ev, ch), r)), outcomes, k0)
    {
      hide Finish, CardFor, IsFinal;
      FinishStep(View(PostCard(ev, ch), r), outcomes, k0);
      var isFinal := IsFinal(ev.row.status);
      var k := k0 + 1;
      if !outcomes(k0).ok {
        FinishStep(View(Unbind(ev, ch), r), outcomes, k);
        Bind(outcomes(k).ok, ch, None, false);
        return Some(NOT_POSTED);
      }
      var id := nextId;
      live, nextId := live[id := CardFor(ev, ch)], id + 1;
      FinishStep(View(BindPosted(ev, ch, id), r), outcomes, k);
      Bind(outcomes(k).ok, ch, Some(id), isFinal);
      return if outcomes(k).ok then Some(Ok(ch, id, false, isFinal)) else None;
    }

    /** None when a write fails uncaught, so the promise rejects. */
    method Publish(sameGuild: bool, now: int, outcomes: nat -> Outcome) returns (result: Option<Result>)
      requires outcomes(0).now == now
      modifies this
      ensures View(Idle, result) == Finish(Begun(old(View(Idle, None)), sameGuild, now), outcomes, 0)
    {
      var ev := Snapshot(row, channelId, messageId, discordEventId);
      ghost var target := Finish(Begun(View(Idle, None), sameGuild, now), outcomes, 0);
      if !sameGuild {
        return Some(NO_EVENT);
      }
      var k := 0;
      var ch := if ev.channelId.Some? then ev.channelId else slot;
      if ev.channelId.None? {
        k := 1;
      }
      if ch.None? {
        return Some(NO_CHANNEL);
      }
      assert Finish(View(Mirroring(ev, ch.value, now), None), outcomes, k) == target;
      k := MirrorEvent(ev, ch.value, now, outcomes, k, None);
      result := EditOrPost(ev, ch.value, outcomes, k);
    }

    /** The stored message is edited; without one, or when that fails, a board is adopted or posted. */
    method EditOrPost(ev: Snapshot, ch: string, outcomes: nat -> Outcome, k0: nat) returns (result: Option<Result>)
      modifies this
      ensures View(Idle, result) == Finish(old(View(AfterMirror(ev, ch), None)), outcomes, k0)
    {
      var k := k0;
      var isFinal := IsFinal(ev.row.status);
      if ev.messageId.Some? {
        ghost var target := Finish(View(EditStored(ev, ch), None), outcomes, k);
        var edited := LiveIn(live, ch, ev.messageId.value) && outcomes(k).ok;
        k := k + 1;
        if edited {
          live := live[ev.messageId.value := CardFor(ev, ch)];
          ghost var last := View(BindEdited(ev, ch), None);
          FinishStep(last, outcomes, k);
          Bind(outcomes(k).ok, ch, ev.messageId, isFinal);
          result := if outcomes(k).ok then Some(Ok(ch, ev.messageId.value, true, isFinal)) else None;
          assert View(Idle, result) == Next(last, outcomes(k));
          return;
        }
        assert Finish(View(FindBoard(ev, ch), None), outcomes, k) == target;
      }
      result := AdoptOrPost(ev, ch, outcomes, k, None);
    }
  }

  // ----- runs with crashes and interference

  datatype Action =
    | Begin(sameGuild: bool, now: int)
    | Call(o: Outcome)
    | Crash
    | Delete(id: nat)
    | Change(row: Row)
    | Rebind(slot: Option<string>)

  /** Publishes do not overlap. */
  predicate Enabled(w: World, a: Action) {
    a.Begin? ==> w.pc.Idle?
  }

  function Apply(w: World, a: Action): World {
    match a
    case Begin(sameGuild, now) => Begun(w, sameGuild, now)
    case Call(o) => Next(w, o)
    case Crash => w.(pc := Idle, lost := w.lost + if w.pc.BindNative? then 1 else 0)
    case Delete(id) => if id in w.live then w.(live := w.live - {id}, deleted := w.deleted + {id}) else w
    case Change(row) => w.(row := row)
    case Rebind(slot) => w.(slot := slot)
  }

  predicate ValidRun(w: World, actions: seq<Action>)
    decreases |actions|
  {
    actions == [] || (Enabled(w, actions[0]) && ValidRun(Apply(w, actions[0]), actions[1..]))
  }

  function Run(w: World, actions: seq<Action>): World
    decreases |actions|
  {
    if actions == [] then w else Run(Apply(w, actions[0]), actions[1..])
  }

  /** The events slot is only ever unbound or bound to this channel. */
  predicate FixedChannel(a: Action, home: string) {
    a.Rebind? ==> a.slot == None || a.slot == Some(home)
  }

  predicate AtHome(o: Option<string>, home: string) {
    o == None || o == Some(home)
  }

  /** The channel a publish in progress works in, and what it has learned. */
  predicate InProgress(w: World, home: string) {
    Learned(w.pc, w.live, w.deleted, w.nextId, w.misses, home) && MirrorState(w.pc, w.discordEventId)
  }

  predicate MirrorState(pc: Pc, discordEventId: Option<nat>) {
    && (pc.GetChannel? ==> pc.ev.channelId == None && pc.ev.discordEventId == discordEventId)
    && (pc.CreateNative? || pc.BindNative? ==> discordEventId == None)
  }

  predicate Learned(pc: Pc, live: map<nat, Card>, deleted: set<nat>, nextId: nat, misses: nat, home: string) {
    match pc
    case Idle => true
    case GetChannel(_) => true
    case UpdateNative(_, ch) => ch == home
    case CreateNative(_, ch) => ch == home
    case BindNative(_, ch, _) => ch == home
    case EditStored(ev, ch) => ch == home && ev.messageId.Some?
    case BindEdited(ev, ch) => ch == home && ev.messageId.Some? && Shows(live, deleted, ev, ch, ev.messageId.value)
    case FindBoard(_, ch) => ch == home
    case EditOrphan(_, ch, id) => ch == home && id < nextId && |live.Keys - {id}| <= misses
    case BindOrphan(ev, ch, id, edited) =>
      ch == home && id < nextId && if edited then Shows(live, deleted, ev, ch, id) else |live.Keys| <= misses
    case PostCard(_, ch) => ch == home && |live.Keys| <= misses
    case BindPosted(ev, ch, id) => ch == home && Shows(live, deleted, ev, ch, id)
    case Unbind(_, ch) => ch == home
  }

  /** The message shows what this publish read, unless somebody deleted it meanwhile. */
  predicate Shows(live: map<nat, Card>, deleted: set<nat>, ev: Snapshot, ch: string, id: nat) {
    (id in live && live[id] == CardFor(ev, ch)) || (id !in live && id in deleted)
  }

  predicate Inv(w: World, home: string) {
    Settled(w, home) && InProgress(w, home) && NativesKnown(w)
  }

  predicate NativesKnown(w: World) {
    w.natives == w.lost + (if w.discordEventId.Some? then 1 else 0) + (if w.pc.BindNative? then 1 else 0)
  }

  /** The parts of the invariant that do not mention the publish in progress. */
  predicate Settled(w: World, home: string) {
    && AtHome(w.slot, home) && AtHome(w.channelId, home)
    && |w.live.Keys| <= 1 + w.misses
    && (forall id :: id in w.live ==> id < w.nextId && w.live[id].channel == home)
  }

  lemma EditKeeps(w: World, ev: Snapshot, ch: string, id: nat, home: string)
    requires Settled(w, home) && ch == home && LiveIn(w.live, ch, id)
    ensures var w' := w.(live := w.live[id := CardFor(ev, ch)]); Settled(w', home) && Shows(w'.live, w'.deleted, ev, ch, id)
  {
    assert w.live[id := CardFor(ev, ch)].Keys == w.live.Keys;
  }

  lemma PostKeeps(w: World, ev: Snapshot, ch: string, home: string)
    requires Settled(w, home) && ch == home && |w.live.Keys| <= w.misses
    ensures var w' := w.(live := w.live[w.nextId := CardFor(ev, ch)], nextId := w.nextId + 1);
            Settled(w', home) && Shows(w'.live, w'.deleted, ev, ch, w.nextId)
  {
    assert w.live[w.nextId := CardFor(ev, ch)].Keys == w.live.Keys + {w.nextId};
  }

  /** `findBoard` tells whether there is a board at all, because they are all in this channel. */
  lemma SearchComplete(w: World, home: string)
    requires Settled(w, home)
    ensures var found := Search(w.live, home, 0, w.nextId);
            if found.Some? then found.value < w.nextId && |w.live.Keys - {found.value}| <= w.misses else w.live.Keys == {}
  {
    var found := Search(w.live, home, 0, w.nextId);
    forall id | id in w.live ensures found.Some? {
      assert LiveIn(w.live, home, id);
    }
    if found.Some? {
      assert |w.live.Keys - {found.value}| == |w.live.Keys| - 1;
    }
  }

  lemma AfterMirrorKeeps(w: World, ev: Snapshot, ch: string, home: string)
    requires Settled(w, home) && NativesKnown(w) && ch == home && !w.pc.BindNative?
    ensures Inv(w.(pc := AfterMirror(ev, ch)), home)
  {
  }

  lemma ChannelKeeps(w: World, ev: Snapshot, ch: string, now: int, home: string)
    requires Settled(w, home) && NativesKnown(w) && ch == home && !w.pc.BindNative?
    requires ev.discordEventId == w.discordEventId
    ensures Inv(w.(pc := Mirroring(ev, ch, now)), home)
  {
    AfterMirrorKeeps(w, ev, ch, home);
    hide AfterMirror;
  }

  lemma CreateKeeps(w: World, ev: Snapshot, ch: string, ok: bool, home: string)
    requires Settled(w, home) && NativesKnown(w) && ch == home && w.pc.CreateNative? && w.discordEventId == None
    ensures Inv(CreatedNative(w, ev, ch, ok), home)
  {
    AfterMirrorKeeps(w, ev, ch, home);
    hide AfterMirror;
  }

  lemma BindNativeKeeps(w: World, ev: Snapshot, ch: string, native: nat, ok: bool, home: string)
    requires Settled(w, home) && NativesKnown(w) && ch == home && w.pc.BindNative? && w.discordEventId == None
    ensures Inv(BoundNative(w, ev, ch, native, ok), home)
  {
  }

  /** The writes of the stored id leave the messages alone. */
  lemma LastBindKeeps(w: World, ev: Snapshot, ch: string, id: nat, edited: bool, ok: bool, home: string)
    requires Settled(w, home) && NativesKnown(w) && ch == home && !w.pc.BindNative?
    ensures Inv(BoundLast(w, ev, ch, id, edited, ok), home)
  {
  }

  lemma OrphanBindKeeps(w: World, ev: Snapshot, ch: string, id: nat, edited: bool, ok: bool, home: string)
    requires Settled(w, home) && NativesKnown(w) && ch == home && !w.pc.BindNative?
    requires !edited ==> |w.live.Keys| <= w.misses
    ensures Inv(BoundOrphan(w, ev, ch, id, edited, ok), home)
  {
  }

  lemma UnbindKeeps(w: World, ok: bool, ch: string, home: string)
    requires Settled(w, home) && NativesKnown(w) && ch == home && !w.pc.BindNative?
    ensures Inv(Done(Bound(w, ok, ch, None, false), NOT_POSTED), home)
  {
  }

  lemma StoredEditKeeps(w: World, ev: Snapshot, ch: string, ok: bool, home: string)
    requires Settled(w, home) && NativesKnown(w) && ch == home && !w.pc.BindNative?
    ensures Inv(EditedStored(w, ev, ch, ok), home)
  {
    if ev.messageId.Some? && LiveIn(w.live, ch, ev.messageId.value) {
      EditKeeps(w, ev, ch, ev.messageId.value, home);
    }
    hide CardFor, LiveIn;
  }

  lemma OrphanEditKeeps(w: World, ev: Snapshot, ch: string, id: nat, ok: bool, home: string)
    requires Settled(w, home) && NativesKnown(w) && ch == home && !w.pc.BindNative?
    requires id < w.nextId && |w.live.Keys - {id}| <= w.misses
    ensures Inv(EditedOrphan(w, ev, ch, id, ok), home)
  {
    if LiveIn(w.live, ch, id) {
      EditKeeps(w, ev, ch, id, home);
    } else {
      assert w.live.Keys - {id} == w.live.Keys;
    }
    hide CardFor, LiveIn;
  }

  lemma SearchKeeps(w: World, ev: Snapshot, ch: string, ok: bool, home: string)
    requires Settled(w, home) && NativesKnown(w) && ch == home && !w.pc.BindNative?
    ensures Inv(Found(w, ev, ch, ok), home)
  {
    SearchComplete(w, home);
    assert |w.live.Keys| <= 1 + w.misses;
    hide Search, Settled, Inv;
    var found := Search(w.live, ch, 0, w.nextId);
    if ok && found.Some? {
      ToEdit(w, ev, ch, found.value, home);
    } else {
      ToPost(w, ev, ch, if found.Some? then 1 else 0, home);
    }
  }

  lemma ToEdit(w: World, ev: Snapshot, ch: string, id: nat, home: string)
    requires Settled(w, home) && NativesKnown(w) && ch == home && !w.pc.BindNative?
    requires id < w.nextId && |w.live.Keys - {id}| <= w.misses
    ensures Inv(w.(pc := EditOrphan(ev, ch, id)), home)
  {
  }

  lemma ToPost(w: World, ev: Snapshot, ch: string, n: nat, home: string)
    requires Settled(w, home) && NativesKnown(w) && ch == home && !w.pc.BindNative?
    requires |w.live.Keys| <= w.misses + n
    ensures Inv(w.(pc := PostCard(ev, ch), misses := w.misses + n), home)
  {
  }

  lemma SendKeeps(w: World, ev: Snapshot, ch: string, ok: bool, home: string)
    requires Settled(w, home) && NativesKnown(w) && ch == home && !w.pc.BindNative? && |w.live.Keys| <= w.misses
    ensures Inv(Posted(w, ev, ch, ok), home)
  {
    PostKeeps(w, ev, ch, home);
    hide CardFor;
  }

  lemma NextKeeps(w: World, o: Outcome, home: string)
    requires Inv(w, home)
    ensures Inv(Next(w, o), home)
  {
    hide CreatedNative, BoundNative, EditedStored, BoundLast, Found, EditedOrphan, BoundOrphan, Posted, Settled, Shows;
    hide Mirroring, AfterMirror, Bound;
    match w.pc
    case Idle =>
    case GetChannel(ev) =>
      if w.slot.Some? {
        assert w.slot.value == home by { SlotAtHome(w, home); }
        ChannelKeeps(w, ev, w.slot.value, o.now, home);
      } else {
        DoneKeeps(w, NO_CHANNEL, home);
      }
    case UpdateNative(ev, ch) => AfterMirrorKeeps(w, ev, ch, home);
    case CreateNative(ev, ch) => CreateKeeps(w, ev, ch, o.ok, home);
    case BindNative(ev, ch, native) => BindNativeKeeps(w, ev, ch, native, o.ok, home);
    case EditStored(ev, ch) => StoredEditKeeps(w, ev, ch, o.ok, home);
    case EditOrphan(ev, ch, id) => OrphanEditKeeps(w, ev, ch, id, o.ok, home);
    case FindBoard(ev, ch) => SearchKeeps(w, ev, ch, o.ok, home);
    case PostCard(ev, ch) => SendKeeps(w, ev, ch, o.ok, home);
    case BindEdited(ev, ch) => LastBindKeeps(w, ev, ch, ev.messageId.value, true, o.ok, home);
    case BindPosted(ev, ch, id) => LastBindKeeps(w, ev, ch, id, false, o.ok, home);
    case BindOrphan(ev, ch, id, edited) => OrphanBindKeeps(w, ev, ch, id, edited, o.ok, home);
    case Unbind(ev, ch) => UnbindKeeps(w, o.ok, ch, home);
  }

  lemma SlotAtHome(w: World, home: string)
    requires Settled(w, home)
    ensures AtHome(w.slot, home)
  {
  }

  lemma DoneKeeps(w: World, r: Result, home: string)
    requires Settled(w, home) && NativesKnown(w) && !w.pc.BindNative?
    ensures Inv(Done(w, r), home)
  {
  }

  lemma DeleteSettled(w: World, id: nat, home: string)
    requires Settled(w, home) && id in w.live
    ensures Settled(w.(live := w.live - {id}, deleted := w.deleted + {id}), home)
  {
    assert (w.live - {id}).Keys == w.live.Keys - {id};
    Fewer(w.live.Keys, id);
  }

  lemma DeleteLearned(pc: Pc, live: map<nat, Card>, deleted: set<nat>, id: nat, nextId: nat, misses: nat, home: string)
    requires Learned(pc, live, deleted, nextId, misses, home) && id in live
    ensures Learned(pc, live - {id}, deleted + {id}, nextId, misses, home)
  {
    hide CardFor, Shows;
    assert (live - {id}).Keys == live.Keys - {id};
    Fewer(live.Keys, id);
    match pc
    case EditOrphan(_, _, orphan) =>
      var rest := live.Keys - {orphan};
      assert (live - {id}).Keys - {orphan} == rest - {id};
      Fewer(rest, id);
    case BindEdited(ev, ch) => DeleteShown(live, deleted, id, ev, ch, ev.messageId.value);
    case BindOrphan(ev, ch, m, edited) =>
      if edited {
        DeleteShown(live, deleted, id, ev, ch, m);
      }
    case BindPosted(ev, ch, m) => DeleteShown(live, deleted, id, ev, ch, m);
    case _ =>
  }

  lemma DeleteShown(live: map<nat, Card>, deleted: set<nat>, id: nat, ev: Snapshot, ch: string, m: nat)
    requires id in live && Shows(live, deleted, ev, ch, m)
    ensures Shows(live - {id}, deleted + {id}, ev, ch, m)
  {
    hide CardFor;
  }

  lemma Fewer(s: set<nat>, x: nat)
    ensures |s - {x}| <= |s|
  {
    assert s == (s - {x}) + (s * {x});
  }

  lemma BegunKeeps(w: World, sameGuild: bool, now: int, home: string)
    requires Inv(w, home) && w.pc.Idle?
    ensures Inv(Begun(w, sameGuild, now), home)
  {
    hide Shows, Mirroring, AfterMirror, Learned;
    var ev := SnapshotOf(w);
    if sameGuild && ev.channelId.Some? {
      ChannelKeeps(w, ev, ev.channelId.value, now, home);
    } else {
      IdleKeeps(w, NO_EVENT, home);
    }
  }

  lemma IdleKeeps(w: World, r: Result, home: string)
    requires Inv(w, home) && w.pc.Idle?
    ensures Inv(Done(w, r), home)
    ensures w.channelId.None? ==> Inv(w.(pc := GetChannel(SnapshotOf(w))), home)
  {
    hide Shows;
  }

  lemma ApplyKeeps(w: World, a: Action, home: string)
    requires Inv(w, home) && Enabled(w, a) && FixedChannel(a, home)
    ensures Inv(Apply(w, a), home)
  {
    match a
    case Begin(sameGuild, now) => BegunKeeps(w, sameGuild, now, home);
    case Call(o) => NextKeeps(w, o, home);
    case Delete(id) =>
      if id in w.live {
        hide Learned, Settled;
        DeleteSettled(w, id, home);
        DeleteLearned(w.pc, w.live, w.deleted, id, w.nextId, w.misses, home);
      }
    case Crash =>
    case Change(_) => hide Learned;
    case Rebind(_) => hide Learned;
  }

  lemma {:induction false} RunKeeps(w: World, actions: seq<Action>, home: string)
    requires Inv(w, home) && ValidRun(w, actions) && forall a :: a in actions ==> FixedChannel(a, home)
    ensures Inv(Run(w, actions), home)
    decreases |actions|
  {
    hide Inv, Enabled, Apply, FixedChannel;
    if actions != [] {
      assert actions[0] in actions;
      ApplyKeeps(w, actions[0], home);
      RunKeeps(Apply(w, actions[0]), actions[1..], home);
    }
  }

  function Start(row: Row, slot: Option<string>): World {
    World(row, None, None, false, None, slot, map[], 0, 0, Idle, None, {}, 0, 0)
  }

  ghost predicate Reached(row: Row, slot: Option<string>, home: string, actions: seq<Action>, w: World) {
    && AtHome(slot, home) && ValidRun(Start(row, slot), actions)
    && (forall a :: a in actions ==> FixedChannel(a, home))
    && w == Run(Start(row, slot), actions)
  }

  /** However publishes are cut short and whatever fails or is deleted meanwhile, an event has one board message, and
      one more at most for each time a publish missed a board that was there. */
  lemma BoardsCounted(row: Row, slot: Option<string>, home: string, actions: seq<Action>, w: World)
    requires Reached(row, slot, home, actions, w)
    ensures |w.live.Keys| <= 1 + w.misses
  {
    RunKeeps(Start(row, slot), actions, home);
  }

  /** Nothing missed, never two. */
  lemma OneBoardPerEvent(row: Row, slot: Option<string>, home: string, actions: seq<Action>, w: World, a: nat, b: nat)
    requires Reached(row, slot, home, actions, w) && w.misses == 0 && a in w.live && b in w.live
    ensures a == b
  {
    BoardsCounted(row, slot, home, actions, w);
    assert |w.live.Keys - {a}| == |w.live.Keys| - 1;
    assert w.live.Keys - {a} == {};
  }

  /** One search that fails does leave two: a crash loses the id of the board just posted, and the next publish does
      not find it. */
  lemma MissedSearchDuplicatesBoard(row: Row)
    requires !row.status.SCHEDULED?
    ensures var go, fail := Outcome(true, 0), Outcome(false, 0);
            var w := Run(Start(row, Some("events")),
                         [Begin(true, 0), Call(go), Call(go)] +
                         ([Call(go), Crash, Begin(true, 0)] + ([Call(go), Call(fail), Call(go)] + [])));
            w.live.Keys == {0, 1} && w.misses == 1
  {
    var go, fail := Outcome(true, 0), Outcome(false, 0);
    var w0 := Start(row, Some("events"));
    var ev := SnapshotOf(w0);
    var w3 := Apply(Apply(Apply(w0, Begin(true, 0)), Call(go)), Call(go));
    assert w3 == w0.(pc := PostCard(ev, "events"));
    var w6 := Apply(Apply(Apply(w3, Call(go)), Crash), Begin(true, 0));
    assert w6 == w0.(live := map[0 := CardFor(ev, "events")], nextId := 1, pc := GetChannel(ev));
    var w8 := Apply(Apply(w6, Call(go)), Call(fail));
    assert w8 == w6.(pc := PostCard(ev, "events"), misses := 1);
    var w9 := Apply(w8, Call(go));
    assert w9.live.Keys == {0, 1};
    hide Apply, CardFor;
    RunThree(w0, Begin(true, 0), Call(go), Call(go), [Call(go), Crash, Begin(true, 0)] + ([Call(go), Call(fail), Call(go)] + []));
    RunThree(w3, Call(go), Crash, Begin(true, 0), [Call(go), Call(fail), Call(go)] + []);
    RunThree(w6, Call(go), Call(fail), Call(go), []);
  }

  predicate GaveOk(w: World) {
    w.result.Some? && w.result.value.Ok?
  }

  /** When the last call of a publish reports success, the message it names shows the row that publish read, with
      buttons exactly when the event is not final, unless somebody deleted it meanwhile; and the stored id names that
      message. */
  lemma OkNamesTheBoard(row: Row, slot: Option<string>, home: string, actions: seq<Action>, w: World, o: Outcome)
    requires Reached(row, slot, home, actions, w) && !w.pc.Idle? && Next(w, o).pc.Idle? && GaveOk(Next(w, o))
    ensures var w' := Next(w, o);
            var r := w'.result.value;
            && (r.message !in w'.live ==> r.message in w'.deleted)
            && (r.message in w'.live ==> w'.live[r.message] == Card(r.channel, w.pc.ev.row, !r.final))
            && (r.final <==> w.pc.ev.row.status == COMPLETED || w.pc.ev.row.status == CANCELLED)
            && w'.messageId == Some(r.message) && w'.channelId == Some(r.channel) && w'.final == r.final
  {
    RunKeeps(Start(row, slot), actions, home);
    assert InProgress(w, home);
    hide Settled, Inv, Reached, Run, ValidRun;
    OkIsShown(w, o, home);
  }

  lemma OkIsShown(w: World, o: Outcome, home: string)
    requires InProgress(w, home) && !w.pc.Idle? && Next(w, o).pc.Idle? && GaveOk(Next(w, o))
    ensures var w' := Next(w, o);
            var r := w'.result.value;
            && (r.message !in w'.live ==> r.message in w'.deleted)
            && (r.message in w'.live ==> w'.live[r.message] == Card(r.channel, w.pc.ev.row, !r.final))
            && (r.final <==> w.pc.ev.row.status == COMPLETED || w.pc.ev.row.status == CANCELLED)
            && w'.messageId == Some(r.message) && w'.channelId == Some(r.channel) && w'.final == r.final
  {
    hide CreatedNative, BoundNative, EditedStored, Found, EditedOrphan, Posted, Mirroring, AfterMirror;
    match w.pc
    case BindEdited(ev, ch) =>
    case BindOrphan(ev, ch, id, edited) =>
    case BindPosted(ev, ch, id) =>
    case _ =>
  }

  /** Native events are duplicated only by losing the record of one: there is one for the stored id, one being
      recorded, and one for every record lost to a crash or a failed write. */
  lemma NativesAccountedFor(row: Row, slot: Option<string>, home: string, actions: seq<Action>, w: World)
    requires Reached(row, slot, home, actions, w)
    ensures w.natives == w.lost + (if w.discordEventId.Some? then 1 else 0) + (if w.pc.BindNative? then 1 else 0)
  {
    RunKeeps(Start(row, slot), actions, home);
  }

  /** A crash between making and recording the native event does duplicate it. */
  lemma CrashDuplicatesNative(row: Row)
    requires row.status.SCHEDULED? && row.startsAt > 0
    ensures var go := Outcome(true, 0);
            Run(Start(row, Some("events")),
                [Begin(true, 0), Call(go), Call(go), Crash, Begin(true, 0), Call(go), Call(go)]).natives == 2
  {
    var go := Outcome(true, 0);
    var w0 := Start(row, Some("events"));
    var w3 := Next(Next(Begun(w0, true, 0), go), go);
    var w4 := Apply(w3, Crash);
    var w7 := Next(Next(Begun(w4, true, 0), go), go);
    assert w3.natives == 1 && w4.discordEventId == None && w7.natives == 2;
    RunSeven(w0, Begin(true, 0), Call(go), Call(go), Crash, Begin(true, 0), Call(go), Call(go));
  }

  lemma RunSeven(w: World, a: Action, b: Action, c: Action, d: Action, e: Action, f: Action, g: Action)
    ensures Run(w, [a, b, c, d, e, f, g]) == Apply(Apply(Apply(Apply(Apply(Apply(Apply(w, a), b), c), d), e), f), g)
  {
    hide Apply;
    assert Run(w, [a, b, c, d, e, f, g]) == Run(Apply(w, a), [b, c, d, e, f, g]) by {
      assert [a, b, c, d, e, f, g][1..] == [b, c, d, e, f, g];
    }
    RunThree(Apply(w, a), b, c, d, [e, f, g]);
    RunThree(Apply(Apply(Apply(Apply(w, a), b), c), d), e, f, g, []);
    assert [b, c, d] + [e, f, g] == [b, c, d, e, f, g] && [e, f, g] + [] == [e, f, g];
  }

  lemma RunThree(w: World, a: Action, b: Action, c: Action, rest: seq<Action>)
    ensures Run(w, [a, b, c] + rest) == Run(Apply(Apply(Apply(w, a), b), c), rest)
  {
    hide Apply;
    assert ([a, b, c] + rest)[1..] == [b, c] + rest;
    assert ([b, c] + rest)[1..] == [c] + rest;
    assert ([c] + rest)[1..] == rest;
    assert Run(w, [a, b, c] + rest) == Run(Apply(w, a), [b, c] + rest);
    assert Run(Apply(w, a), [b, c] + rest) == Run(Apply(Apply(w, a), b), [c] + rest);
  }

  /** Left alone, a publish ends: every call brings the end nearer. */
  lemma CallsRunOut(w: World, o: Outcome)
    requires !w.pc.Idle?
    ensures Rank(Next(w, o).pc) < Rank(w.pc)
  {
    hide CreatedNative, BoundNative, EditedStored, Found, EditedOrphan, Posted, BoundOrphan, BoundLast, Bound;
    hide Mirroring, AfterMirror;
  }
}
