/** What a publish left to itself answers, and where it works (apps/bridge-bot/src/event-board.ts:229-281). */
module EventBoardResults {
  import opened Prelude
  import opened EventBoard

  /** The channel a publish works in: the stored one, or else the one the slot is bound to. */
  function ChannelOf(w: World): Option<string> {
    if w.channelId.Some? then w.channelId else w.slot
  }

  /** The step works in this channel. */
  predicate WorksIn(pc: Pc, ch: string) {
    match pc
    case Idle => true
    case GetChannel(_) => false
    case UpdateNative(_, x) => x == ch
    case CreateNative(_, x) => x == ch
    case BindNative(_, x, _) => x == ch
    case EditStored(_, x) => x == ch
    case BindEdited(_, x) => x == ch
    case FindBoard(_, x) => x == ch
    case EditOrphan(_, x, _) => x == ch
    case BindOrphan(_, x, _, _) => x == ch
    case PostCard(_, x) => x == ch
    case BindPosted(_, x, _) => x == ch
    case Unbind(_, x) => x == ch
  }

  /** Of all boards only those that were there before are in other channels, untouched; a result names this channel; what
      was written names it too. */
  predicate StaysIn(w0: World, w: World, ch: string) {
    && (forall id :: id in w0.live ==> id in w.live && (w.live[id] == w0.live[id] || w.live[id].channel == ch))
    && (forall id :: id in w.live && id !in w0.live ==> w.live[id].channel == ch)
    && (w.channelId == w0.channelId || w.channelId == Some(ch))
  }

  predicate ResultIn(r: Option<Result>, ch: string) {
    r.Some? ==> (r.value.Ok? && r.value.channel == ch) || r.value.NOT_POSTED?
  }

  lemma StepStays(w0: World, w: World, o: Outcome, ch: string)
    requires StaysIn(w0, w, ch) && WorksIn(w.pc, ch) && !w.pc.Idle?
    requires forall id :: id in w.live ==> id < w.nextId
    ensures var w' := Next(w, o);
            && StaysIn(w0, w', ch) && WorksIn(w'.pc, ch) && (w'.pc.Idle? ==> ResultIn(w'.result, ch))
            && (forall id :: id in w'.live ==> id < w'.nextId)
  {
    hide StaysIn, ResultIn, Search, IsFinal, Mirroring, AfterMirror, CardFor;
    if w.pc.EditStored? || w.pc.EditOrphan? {
      EditStepStays(w0, w, o, ch);
    } else if w.pc.PostCard? {
      PostStepStays(w0, w, o, ch);
    } else {
      QuietStep(w, o, ch);
      SameMessages(w0, w, Next(w, o), ch);
    }
  }

  /** The other steps leave the messages alone, and write no channel but this one. */
  lemma QuietStep(w: World, o: Outcome, ch: string)
    requires WorksIn(w.pc, ch) && !w.pc.Idle? && !w.pc.EditStored? && !w.pc.EditOrphan? && !w.pc.PostCard?
    ensures var w' := Next(w, o);
            && w'.live == w.live && w'.nextId == w.nextId && (w'.channelId == w.channelId || w'.channelId == Some(ch))
            && WorksIn(w'.pc, ch) && (w'.pc.Idle? ==> ResultIn(w'.result, ch))
  {
    hide Search, IsFinal;
  }

  lemma SameMessages(w0: World, w: World, w': World, ch: string)
    requires StaysIn(w0, w, ch) && w'.live == w.live && (w'.channelId == w.channelId || w'.channelId == Some(ch))
    ensures StaysIn(w0, w', ch)
  {
  }

  lemma EditStepStays(w0: World, w: World, o: Outcome, ch: string)
    requires StaysIn(w0, w, ch) && WorksIn(w.pc, ch) && (w.pc.EditStored? || w.pc.EditOrphan?)
    requires forall id :: id in w.live ==> id < w.nextId
    ensures var w' := Next(w, o);
            && StaysIn(w0, w', ch) && WorksIn(w'.pc, ch) && !w'.pc.Idle?
            && (forall id :: id in w'.live ==> id < w'.nextId)
  {
    hide StaysIn, CardFor;
    var ev := w.pc.ev;
    var id := if w.pc.EditOrphan? then w.pc.orphan else if ev.messageId.Some? then ev.messageId.value else 0;
    EditedStays(w0, w, ev, ch, id);
    SameMessages(w0, w, Next(w, o).(live := w.live), ch);
    if LiveIn(w.live, ch, id) {
      SameMessages(w0, w.(live := w.live[id := CardFor(ev, ch)]), Next(w, o).(live := w.live[id := CardFor(ev, ch)]), ch);
    }
  }

  lemma PostStepStays(w0: World, w: World, o: Outcome, ch: string)
    requires StaysIn(w0, w, ch) && WorksIn(w.pc, ch) && w.pc.PostCard?
    requires forall id :: id in w.live ==> id < w.nextId
    ensures var w' := Next(w, o);
            && StaysIn(w0, w', ch) && WorksIn(w'.pc, ch) && !w'.pc.Idle?
            && (forall id :: id in w'.live ==> id < w'.nextId)
  {
  }

  lemma EditedStays(w0: World, w: World, ev: Snapshot, ch: string, id: nat)
    requires StaysIn(w0, w, ch)
    ensures LiveIn(w.live, ch, id) ==> StaysIn(w0, w.(live := w.live[id := CardFor(ev, ch)]), ch)
  {
  }

  lemma {:induction false} FinishStays(w0: World, w: World, outcomes: nat -> Outcome, k: nat, ch: string)
    requires StaysIn(w0, w, ch) && WorksIn(w.pc, ch) && !w.pc.Idle?
    requires forall id :: id in w.live ==> id < w.nextId
    ensures var w' := Finish(w, outcomes, k); StaysIn(w0, w', ch) && ResultIn(w'.result, ch)
    decreases Rank(w.pc)
  {
    hide StaysIn, WorksIn, ResultIn, Next;
    FinishStep(w, outcomes, k);
    StepStays(w0, w, outcomes(k), ch);
    CallsRunOut(w, outcomes(k));
    var w1 := Next(w, outcomes(k));
    if !w1.pc.Idle? {
      FinishStays(w0, w1, outcomes, k + 1, ch);
    }
  }

  /** NO_EVENT exactly for another guild's event, NO_CHANNEL exactly when no channel is stored and none is bound; then
      nothing is touched. In every other case the publish works in the stored channel, or else in the bound one: its
      result names it, and messages in other channels are left alone. */
  lemma PublishAnswers(w: World, sameGuild: bool, now: int, outcomes: nat -> Outcome)
    requires w.pc.Idle? && forall id :: id in w.live ==> id < w.nextId
    ensures var w' := Finish(Begun(w, sameGuild, now), outcomes, 0);
            if !sameGuild then w' == w.(result := Some(NO_EVENT))
            else if ChannelOf(w).None? then w' == w.(result := Some(NO_CHANNEL))
            else StaysIn(w, w', ChannelOf(w).value) && ResultIn(w'.result, ChannelOf(w).value)
  {
    var w0 := Begun(w, sameGuild, now);
    if !sameGuild {
      assert Finish(w0, outcomes, 0) == w0;
    } else {
      hide Finish, Mirroring, AfterMirror;
      if w.channelId.Some? {
        MirroringWorksIn(SnapshotOf(w), w.channelId.value, now);
        FinishStays(w, w0, outcomes, 0, w.channelId.value);
      } else {
        FinishStep(w0, outcomes, 0);
        var w1 := Next(w0, outcomes(0));
        if w.slot.Some? {
          MirroringWorksIn(SnapshotOf(w), w.slot.value, outcomes(0).now);
          FinishStays(w, w1, outcomes, 1, w.slot.value);
        }
      }
    }
  }

  lemma MirroringWorksIn(ev: Snapshot, ch: string, now: int)
    ensures WorksIn(Mirroring(ev, ch, now), ch) && !Mirroring(ev, ch, now).Idle?
  {
  }

  // ----- what is written down

  /** The native event that is made is the one that is recorded, when both calls succeed. */
  lemma NativeIsRecorded(w: World, made: Outcome, recorded: Outcome)
    requires w.pc.CreateNative? && made.ok
    ensures var w1 := Next(w, made);
            var w2 := Next(w1, recorded);
            && w1.natives == w.natives + 1 && w1.pc.BindNative?
            && w2.discordEventId == (if recorded.ok then Some(w.natives) else w.discordEventId)
            && w2.pc == (if w.pc.ev.messageId.Some? then EditStored(w.pc.ev, w.pc.ch) else FindBoard(w.pc.ev, w.pc.ch))
  {
  }

  /** A post that fails is written down as no message, as far as that write lands: a stale id would send every later
      publish to edit nothing. A board that was found and could not be edited is forgotten before anything is posted. */
  lemma FailuresAreForgotten(w: World, o: Outcome)
    ensures w.pc.Unbind? ==>
              Next(w, o).result == Some(NOT_POSTED) && Next(w, o).pc.Idle? &&
              (o.ok ==> Next(w, o).messageId == None && Next(w, o).channelId == Some(w.pc.ch) && !Next(w, o).final)
    ensures w.pc.BindOrphan? && !w.pc.edited ==>
              if o.ok then Next(w, o).messageId == None && Next(w, o).pc == PostCard(w.pc.ev, w.pc.ch)
              else Next(w, o).pc.Idle? && Next(w, o).result == None && Next(w, o).messageId == w.messageId
    ensures w.pc.PostCard? && !o.ok ==> Next(w, o) == w.(pc := Unbind(w.pc.ev, w.pc.ch))
  {
  }
}
