/** What the role effector's reports are worth, over one call, a repeated call, and every run of calls
    (apps/admin-bot/src/internal-api.ts:652-742). */
module RoleAccounting {
  import opened Prelude
  import opened RolePreflight
  import opened RoleEffector

  function Is(id: string): string -> bool {
    (x: string) => x == id
  }

  function Names(id: string): RefusedRole -> bool {
    (r: RefusedRole) => r.roleId == id
  }

  // ----- one call

  lemma {:induction false} CountDistinct(s: seq<string>, id: string)
    requires Distinct(s)
    ensures Count(s, Is(id)) == if id in s then 1 else 0
  {
    if s != [] {
      assert Distinct(s[1..]);
      CountDistinct(s[1..], id);
      if s[0] == id && id in s[1..] {
        assert false;
      }
    }
  }

  lemma {:induction false} FilterDistinct(s: seq<string>, keep: string -> bool)
    requires Distinct(s)
    ensures Distinct(Filter(s, keep))
  {
    if s != [] {
      assert Distinct(s[1..]);
      FilterDistinct(s[1..], keep);
      FilterMember(s[1..], keep, s[0]);
    }
  }

  lemma {:induction false} CountRefused(g: Guild, ids: seq<string>, id: string)
    requires forall x :: x in ids ==> Refusal(g, x).Some?
    ensures Count(Refused(g, ids), Names(id)) == Count(ids, Is(id))
  {
    hide RefuseRole;
    if ids != [] {
      var rest := ids[1..];
      assert Refused(g, ids)[1..] == Refused(g, rest);
      CountRefused(g, rest, id);
    }
  }

  /** In one direction an id is counted once: already as asked, or let through, or refused with its reason. */
  lemma SideAccounted(g: Guild, held: set<string>, want: seq<string>, direction: Direction, id: string)
    requires Distinct(want)
    ensures (if id in want && !Pending(held, direction, id) then 1 else 0)
            + Count(Filter(want, Passes(g, held, direction)), Is(id))
            + Count(RefusedIn(g, held, want, direction), Names(id))
            == if id in want then 1 else 0
  {
    hide Screened, Refused;
    var pass, fail := Filter(want, Passes(g, held, direction)), Filter(want, Fails(g, held, direction));
    FilterDistinct(want, Passes(g, held, direction));
    FilterDistinct(want, Fails(g, held, direction));
    CountDistinct(pass, id);
    CountDistinct(fail, id);
    FilterMember(want, Passes(g, held, direction), id);
    FilterMember(want, Fails(g, held, direction), id);
    forall x | x in fail ensures Refusal(g, x).Some? {
      FailsAreRefused(g, held, want, direction, x);
    }
    CountRefused(g, fail, id);
  }

  /** Membership of what a call adds and removes. */
  lemma Moves(g: Guild, held: set<string>, r: Request, id: string)
    ensures id in ToAdd(g, held, r) <==> id in r.add && id !in held && Refusal(g, id).None?
    ensures id in ToRemove(g, held, r) <==> id in r.remove && id in held && Removable(FactsOf(g, id), g.bot)
  {
    hide RefuseRole, Removable;
    FilterMember(r.add, Passes(g, held, ADD), id);
    FilterMember(r.remove, Passes(g, held, REMOVE), id);
  }

  lemma MovesAll(g: Guild, held: set<string>, r: Request)
    ensures forall id :: id in ToAdd(g, held, r) <==> id in r.add && id !in held && Refusal(g, id).None?
    ensures forall id :: id in ToRemove(g, held, r) <==> id in r.remove && id in held && Removable(FactsOf(g, id), g.bot)
  {
    forall id
      ensures id in ToAdd(g, held, r) <==> id in r.add && id !in held && Refusal(g, id).None?
      ensures id in ToRemove(g, held, r) <==> id in r.remove && id in held && Removable(FactsOf(g, id), g.bot)
    {
      Moves(g, held, r, id);
    }
  }

  /** A successful call on a present member: the roles afterwards are the old ones plus the reported adds minus the
      reported removes; nothing reported was already so, and every requested id is satisfied, applied or refused
      exactly once. */
  lemma SuccessIsAccounted(held: set<string>, r: Request, w: World, id: string)
    requires Distinct(r.add) && Distinct(r.remove)
    requires Decides(r, w) && Report(held, r, w).ok
    ensures var result := Report(held, r, w);
            && HeldAfter(held, r, w) == (held + ToSet(result.added)) - ToSet(result.removed)
            && ToSet(result.added) !! held && ToSet(result.removed) <= held
            && (if id in r.add && id in held then 1 else 0) + (if id in r.remove && id !in held then 1 else 0)
               + Count(result.added, Is(id)) + Count(result.removed, Is(id)) + Count(result.refused, Names(id))
               == (if id in r.add then 1 else 0) + (if id in r.remove then 1 else 0)
  {
    hide Passes, Fails, RefusedIn;
    MovesAll(w.guild, held, r);
    SideAccounted(w.guild, held, r.add, ADD, id);
    SideAccounted(w.guild, held, r.remove, REMOVE, id);
    CountAppend(RefusedIn(w.guild, held, r.add, ADD), RefusedIn(w.guild, held, r.remove, REMOVE), Names(id));
  }

  /** When a call succeeds, and what it says otherwise: no user; the member cannot be fetched; or a write that was called
      for did not land. A member who is gone, and a request for nothing, are successes that change nothing. */
  lemma OutcomesExactly(held: set<string>, r: Request, w: World)
    ensures var result := Report(held, r, w);
            var asked := r.userId.Some? && (r.add != [] || r.remove != []);
            var addLost := asked && w.fetch.Present? && w.add.Failed? && exists id :: id in ToAdd(w.guild, held, r);
            var removeLost := asked && w.fetch.Present? && w.remove.Failed? && exists id :: id in ToRemove(w.guild, held, r);
            && (result.error == Some(InvalidUser) <==> r.userId.None?)
            && (result.error == Some(FetchFailed) <==> asked && w.fetch.Unavailable?)
            && (result.error == Some(WriteFailed) <==> addLost || removeLost)
            && (result.ok <==> result.error.None?)
            && (result.memberPresent <==> r.userId.Some? && (asked ==> w.fetch.Present?))
  {
    hide ToAdd, ToRemove, AllRefused;
    assert ToAdd(w.guild, held, r) != [] ==> ToAdd(w.guild, held, r)[0] in ToAdd(w.guild, held, r);
    assert ToRemove(w.guild, held, r) != [] ==> ToRemove(w.guild, held, r)[0] in ToRemove(w.guild, held, r);
  }

  /** An add that fails ends the call: what it did land stays, and nothing is removed. */
  lemma FailedAddEndsTheCall(held: set<string>, r: Request, w: World, id: string)
    requires Decides(r, w) && w.add.Failed? && ToAdd(w.guild, held, r) != []
    ensures id in HeldAfter(held, r, w) <==> id in held || (id in ToAdd(w.guild, held, r) && id in w.add.part)
  {
    hide ToAdd, ToRemove;
  }

  /** A removal that fails leaves what the add landed, and takes only what it got done before it failed. */
  lemma FailedRemoveTakesItsPart(held: set<string>, r: Request, w: World, id: string)
    requires Decides(r, w) && w.add.Landed? && w.remove.Failed?
    ensures id in HeldAfter(held, r, w) <==>
            (id in held || id in ToAdd(w.guild, held, r)) && !(id in ToRemove(w.guild, held, r) && id in w.remove.part)
  {
    hide ToAdd, ToRemove;
  }

  /** Whatever the writes do, a role the member did not hold before is one that was asked for and that the preflight
      lets through, and a role lost is one that was asked to go; a failed call reports nothing. */
  lemma OnlyPermittedMoves(held: set<string>, r: Request, w: World, id: string)
    ensures id in HeldAfter(held, r, w) && id !in held ==>
              Decides(r, w) && id in r.add && Refusal(w.guild, id).None?
    ensures id in held && id !in HeldAfter(held, r, w) ==>
              Decides(r, w) && id in r.remove && Removable(FactsOf(w.guild, id), w.guild.bot)
    ensures !Report(held, r, w).ok ==> Report(held, r, w).added == [] && Report(held, r, w).removed == []
    ensures id in Report(held, r, w).added ==> id !in held && id in HeldAfter(held, r, w)
    ensures id in Report(held, r, w).removed ==> id in held && id !in HeldAfter(held, r, w)
  {
    hide RefuseRole, Removable, RefusedIn;
    if Decides(r, w) {
      Moves(w.guild, held, r, id);
      hide ToAdd, ToRemove;
    }
  }

  /** A removal may be attempted on a role above the bot: the dangerous permission hides the position. */
  lemma RemovalAboveTheBotIsAttempted(g: Guild, held: set<string>, id: string)
    requires g.bot.canManageRoles && id in g.roles && id in held
    requires var f := g.roles[id];
             !f.isEveryone && !f.managed && f.position >= g.bot.highestPosition
             && exists p :: p in f.permissions && !p.Ordinary?
    ensures ToRemove(g, held, Request(Some("member"), [], [id])) == [id]
    ensures ToAdd(g, held - {id}, Request(Some("member"), [id], [])) == []
  {
  }

  // ----- the same call again

  /** The id is asked for in both directions and may be granted. */
  predicate Contested(g: Guild, r: Request, id: string) {
    id in r.add && id in r.remove && Refusal(g, id).None?
  }

  lemma GrantableIsRemovable(g: Guild, id: string)
    requires Refusal(g, id).None?
    ensures Removable(FactsOf(g, id), g.bot)
  {
  }

  /** Every successful call flips every contested role, so a reconciler that asks for both never settles. */
  lemma ContestedFlips(held: set<string>, r: Request, w: World, id: string)
    requires Decides(r, w) && Report(held, r, w).ok && Contested(w.guild, r, id)
    ensures id in HeldAfter(held, r, w) <==> id !in held
  {
    GrantableIsRemovable(w.guild, id);
    Moves(w.guild, held, r, id);
    hide RefuseRole, Removable, RefusedIn, ToAdd, ToRemove;
  }

  /** After a successful call, asking again on unchanged facts writes nothing exactly when no grantable role was
      asked for in both directions. */
  lemma RepeatIsIdleExactly(held: set<string>, r: Request, w: World)
    requires Decides(r, w) && Report(held, r, w).ok
    ensures var again := HeldAfter(held, r, w);
            (ToAdd(w.guild, again, r) == [] && ToRemove(w.guild, again, r) == [])
            <==> forall id :: id in r.add ==> !Contested(w.guild, r, id)
  {
    var g, again := w.guild, HeldAfter(held, r, w);
    var adds, removes := ToAdd(g, again, r), ToRemove(g, again, r);
    forall id
      ensures id in adds ==> Contested(g, r, id)
      ensures id in removes ==> Contested(g, r, id)
      ensures Contested(g, r, id) ==> id in adds || id in removes
    {
      RepeatMoves(held, r, w, id);
    }
    hide Contested, HeldAfter, ToAdd, ToRemove, Report, Decides;
    if adds != [] {
      assert adds[0] in adds;
      assert Contested(g, r, adds[0]);
    }
    if removes != [] {
      assert removes[0] in removes;
      assert Contested(g, r, removes[0]);
    }
  }

  lemma RepeatMoves(held: set<string>, r: Request, w: World, id: string)
    requires Decides(r, w) && Report(held, r, w).ok
    ensures var again := HeldAfter(held, r, w);
            && (id in ToAdd(w.guild, again, r) ==> Contested(w.guild, r, id))
            && (id in ToRemove(w.guild, again, r) ==> Contested(w.guild, r, id))
            && (Contested(w.guild, r, id) ==> id in ToAdd(w.guild, again, r) || id in ToRemove(w.guild, again, r))
  {
    hide RefuseRole, Removable, RefusedIn, ToAdd, ToRemove, FactsOf;
    var again := HeldAfter(held, r, w);
    Moves(w.guild, held, r, id);
    Moves(w.guild, again, r, id);
    if Refusal(w.guild, id).None? {
      GrantableIsRemovable(w.guild, id);
    }
  }

  // ----- every run

  datatype Call = Call(request: Request, world: World)

  function Run(held: set<string>, calls: seq<Call>): set<string> {
    if calls == [] then held
    else
      var last := calls[|calls| - 1];
      HeldAfter(Run(held, calls[..|calls| - 1]), last.request, last.world)
  }

  function ReportOf(held: set<string>, calls: seq<Call>, i: nat): ApplyResult
    requires i < |calls|
  {
    Report(Run(held, calls[..i]), calls[i].request, calls[i].world)
  }

  /** A call that asked for the role while the preflight let it through. */
  ghost predicate Granting(call: Call, id: string) {
    id in call.request.add && Refusal(call.world.guild, id).None?
  }

  /** However calls follow each other and however their writes fail, a role held at the end was held at the start or
      was asked for by a call whose preflight let it through. */
  lemma {:induction false} NothingRefusedIsEverHeld(held: set<string>, calls: seq<Call>, id: string)
    requires id in Run(held, calls)
    ensures id in held || exists i :: 0 <= i < |calls| && Granting(calls[i], id)
  {
    hide HeldAfter, RefuseRole;
    if calls != [] {
      var before, last := calls[..|calls| - 1], calls[|calls| - 1];
      OnlyPermittedMoves(Run(held, before), last.request, last.world, id);
      if id in Run(held, before) {
        NothingRefusedIsEverHeld(held, before, id);
      } else {
        assert Granting(calls[|calls| - 1], id);
      }
    }
  }

  /** The ledger a caller keeps: what was reported, replayed. */
  function Ledger(held: set<string>, calls: seq<Call>): set<string> {
    if calls == [] then held
    else
      var n := |calls| - 1;
      var report := ReportOf(held, calls, n);
      (Ledger(held, calls[..n]) + ToSet(report.added)) - ToSet(report.removed)
  }

  /** As long as no write fails the ledger of reports is the member's roles, whatever else goes wrong. */
  lemma {:induction false} LedgerIsTruth(held: set<string>, calls: seq<Call>)
    requires forall i :: 0 <= i < |calls| ==> ReportOf(held, calls, i).error != Some(WriteFailed)
    ensures Ledger(held, calls) == Run(held, calls)
  {
    if calls != [] {
      var n := |calls| - 1;
      var before := calls[..n];
      forall i | 0 <= i < n ensures ReportOf(held, before, i) == ReportOf(held, calls, i) {
        assert before[..i] == calls[..i];
      }
      LedgerIsTruth(held, before);
      assert ReportOf(held, calls, n).error != Some(WriteFailed);
      CallMatchesReport(Run(held, before), calls[n].request, calls[n].world);
      hide HeldAfter, Report;
    }
  }

  lemma CallMatchesReport(held: set<string>, r: Request, w: World)
    requires Report(held, r, w).error != Some(WriteFailed)
    ensures var report := Report(held, r, w);
            HeldAfter(held, r, w) == (held + ToSet(report.added)) - ToSet(report.removed)
  {
    hide RefuseRole, Removable, RefusedIn, ToAdd, ToRemove;
  }
}
