/** Granting and revoking roles for one member (apps/admin-bot/src/internal-api.ts:195-205, 652-742). The guild's
    facts, the member fetch and the two writes are what Discord answers; the member's roles are the state. */
module RoleEffector {
  import opened Prelude
  import opened ChatText
  import opened RolePreflight

  const MAX_ROLES_PER_CALL := 25

  // ----- reading the ids of a request

  predicate Distinct<T(==)>(s: seq<T>) {
    forall i, j :: 0 <= i < j < |s| ==> s[i] != s[j]
  }

  /** Each id at its first occurrence. */
  function FirstSeen(s: seq<string>): seq<string> {
    if s == [] then []
    else
      var seen := FirstSeen(s[..|s| - 1]);
      if s[|s| - 1] in seen then seen else seen + [s[|s| - 1]]
  }

  /** The non-blank strings of a request body, trimmed. An entry is None when it is not a string. */
  function Trimmed(raw: seq<Option<string>>): seq<string> {
    if raw == [] then []
    else
      var last := raw[|raw| - 1];
      Trimmed(raw[..|raw| - 1]) + if last.Some? && Trim(last.value) != "" then [Trim(last.value)] else []
  }

  lemma {:induction false} FirstSeenSound(s: seq<string>)
    ensures Distinct(FirstSeen(s))
    ensures forall id :: id in FirstSeen(s) <==> id in s
  {
    if s != [] {
      FirstSeenSound(s[..|s| - 1]);
      assert s == s[..|s| - 1] + [s[|s| - 1]];
    }
  }

  lemma FirstSeenExtend(s: seq<string>, id: string)
    ensures FirstSeen(s + [id]) == if id in FirstSeen(s) then FirstSeen(s) else FirstSeen(s) + [id]
  {
    assert (s + [id])[..|s|] == s;
  }

  lemma TrimmedExtend(raws: seq<Option<string>>, i: nat)
    requires i < |raws|
    ensures Trimmed(raws[..i + 1]) ==
            if raws[i].Some? && Trim(raws[i].value) != "" then Trimmed(raws[..i]) + [Trim(raws[i].value)]
            else Trimmed(raws[..i])
  {
    assert raws[..i + 1][..i] == raws[..i];
    assert Trimmed(raws[..i]) + [] == Trimmed(raws[..i]);
  }

  lemma {:induction false} TrimmedSound(raws: seq<Option<string>>, id: string)
    requires id in Trimmed(raws)
    ensures id != "" && exists raw :: Some(raw) in raws && Trim(raw) == id
  {
    var n := |raws| - 1;
    if id in Trimmed(raws[..n]) {
      TrimmedSound(raws[..n], id);
      var raw :| Some(raw) in raws[..n] && Trim(raw) == id;
    } else {
      assert Some(raws[n].value) in raws;
    }
  }

  function IdsOf(value: Option<seq<Option<string>>>): seq<string> {
    var all := if value.Some? then FirstSeen(Trimmed(value.value)) else [];
    all[..Min(|all|, MAX_ROLES_PER_CALL)]
  }

  /** An id list is what it should be: distinct, capped, and nothing but trimmed strings of the body. */
  lemma IdsSound(value: Option<seq<Option<string>>>)
    ensures Distinct(IdsOf(value)) && |IdsOf(value)| <= MAX_ROLES_PER_CALL
    ensures forall id :: id in IdsOf(value) ==>
              id != "" && value.Some? && exists raw :: Some(raw) in value.value && Trim(raw) == id
  {
    if value.Some? {
      var trimmed := Trimmed(value.value);
      FirstSeenSound(trimmed);
      forall id | id in IdsOf(value) ensures id != "" && exists raw :: Some(raw) in value.value && Trim(raw) == id {
        assert id in FirstSeen(trimmed);
        TrimmedSound(value.value, id);
      }
    }
  }

  /** Nothing is left out below the cap. */
  lemma IdsComplete(value: seq<Option<string>>, raw: string)
    requires Some(raw) in value && Trim(raw) != ""
    ensures Trim(raw) in IdsOf(Some(value)) || |IdsOf(Some(value))| == 25
  {
    hide Trim;
    TrimmedComplete(value, raw);
    FirstSeenSound(Trimmed(value));
    var all := FirstSeen(Trimmed(value));
    hide FirstSeen, Trimmed;
    if |all| <= 25 {
      assert all[..|all|] == all;
    }
  }

  lemma {:induction false} TrimmedComplete(value: seq<Option<string>>, raw: string)
    requires Some(raw) in value && Trim(raw) != ""
    ensures Trim(raw) in Trimmed(value)
  {
    hide Trim;
    var n := |value| - 1;
    assert value == value[..n] + [value[n]];
    if Some(raw) in value[..n] {
      TrimmedComplete(value[..n], raw);
    }
  }

  /** The ids come in the order of the body, so the cap keeps the first ones: more of the body only adds at the end. */
  lemma IdsInOrder(value: seq<Option<string>>, k: nat)
    requires k <= |value|
    ensures IdsOf(Some(value[..k])) <= IdsOf(Some(value))
  {
    TrimmedPrefix(value, k);
    FirstSeenPrefix(Trimmed(value), |Trimmed(value[..k])|);
    hide Trimmed, FirstSeen;
    assert Trimmed(value)[..|Trimmed(value[..k])|] == Trimmed(value[..k]);
  }

  lemma {:induction false} TrimmedPrefix(value: seq<Option<string>>, k: nat)
    requires k <= |value|
    ensures Trimmed(value[..k]) <= Trimmed(value)
    decreases |value|
  {
    if k < |value| {
      var n := |value| - 1;
      TrimmedPrefix(value[..n], k);
      assert value[..n][..k] == value[..k];
    } else {
      assert value[..k] == value;
    }
  }

  lemma {:induction false} FirstSeenPrefix(s: seq<string>, k: nat)
    requires k <= |s|
    ensures FirstSeen(s[..k]) <= FirstSeen(s)
    decreases |s|
  {
    if k < |s| {
      FirstSeenPrefix(s[..|s| - 1], k);
      assert s[..|s| - 1][..k] == s[..k];
    } else {
      assert s[..k] == s;
    }
  }

  /** `value` is None when the body holds no array there. */
  method Ids(value: Option<seq<Option<string>>>) returns (ids: seq<string>)
    ensures ids == IdsOf(value)
  {
    if value.None? {
      return [];
    }
    var seen := [];
    var raws := value.value;
    for i := 0 to |raws|
      invariant seen == FirstSeen(Trimmed(raws[..i]))
    {
      hide Trim, Trimmed, FirstSeen;
      TrimmedExtend(raws, i);
      if raws[i].None? {
        continue;
      }
      var id := Trim(raws[i].value);
      if id != "" {
        FirstSeenExtend(Trimmed(raws[..i]), id);
        if id !in seen {
          seen := seen + [id];
        }
      }
    }
    assert raws[..|raws|] == raws;
    ids := seen[..Min(|seen|, MAX_ROLES_PER_CALL)];
  }

  // ----- the decision

  datatype Guild = Guild(roles: map<string, RoleFacts>, bot: BotFacts)

  function FactsOf(g: Guild, id: string): Option<RoleFacts> {
    if id in g.roles then Some(g.roles[id]) else None
  }

  function Refusal(g: Guild, id: string): Option<RoleRefusal> {
    RefuseRole(FactsOf(g, id), g.bot)
  }

  datatype Direction = ADD | REMOVE

  predicate Screened(g: Guild, direction: Direction, id: string) {
    if direction == ADD then Refusal(g, id).None? else Removable(FactsOf(g, id), g.bot)
  }

  /** The request has something left to do for this role. */
  predicate Pending(held: set<string>, direction: Direction, id: string) {
    if direction == ADD then id !in held else id in held
  }

  function Passes(g: Guild, held: set<string>, direction: Direction): string -> bool {
    (id: string) => Pending(held, direction, id) && Screened(g, direction, id)
  }

  function Fails(g: Guild, held: set<string>, direction: Direction): string -> bool {
    (id: string) => Pending(held, direction, id) && !Screened(g, direction, id)
  }

  datatype RefusedRole = RefusedRole(roleId: string, reason: RoleRefusal)

  function Refused(g: Guild, ids: seq<string>): seq<RefusedRole>
    requires forall id :: id in ids ==> Refusal(g, id).Some?
  {
    seq(|ids|, i requires 0 <= i < |ids| => RefusedRole(ids[i], Refusal(g, ids[i]).value))
  }

  /** One direction of the request: which ids go through, which are refused. */
  method Screen(g: Guild, held: set<string>, want: seq<string>, direction: Direction)
    returns (pass: seq<string>, refused: seq<RefusedRole>)
    ensures pass == Filter(want, Passes(g, held, direction))
    ensures forall id :: id in Filter(want, Fails(g, held, direction)) ==> Refusal(g, id).Some?
    ensures refused == Refused(g, Filter(want, Fails(g, held, direction)))
  {
    hide Filter, RefuseRole;
    pass, refused := [], [];
    assert Filter(want[..0], Passes(g, held, direction)) == [] && Filter(want[..0], Fails(g, held, direction)) == [];
    ghost var failed: seq<string> := [];
    for i := 0 to |want|
      invariant pass == Filter(want[..i], Passes(g, held, direction))
      invariant failed == Filter(want[..i], Fails(g, held, direction))
      invariant forall id :: id in failed ==> Refusal(g, id).Some?
      invariant refused == Refused(g, failed)
    {
      var id := want[i];
      assert want[..i + 1] == want[..i] + [id];
      FilterOne(want[..i], id, Passes(g, held, direction));
      FilterOne(want[..i], id, Fails(g, held, direction));
      if !Pending(held, direction, id) {
        continue;
      }
      var refusal := RefuseRole(FactsOf(g, id), g.bot);
      if refusal == Some(DangerousPermission) && direction == REMOVE {
        pass := pass + [id];
      } else if refusal == None {
        pass := pass + [id];
      } else {
        refused := refused + [RefusedRole(id, refusal.value)];
        failed := failed + [id];
      }
    }
    assert want[..|want|] == want;
  }

  // ----- one call

  datatype Fetch = Present | Gone | Unavailable

  /** A write lands whole, or fails with any part of it landed. */
  datatype Write = Landed | Failed(part: set<string>)

  /** Everything Discord answers during one call. */
  datatype World = World(fetch: Fetch, guild: Guild, add: Write, remove: Write)

  datatype Error = InvalidUser | FetchFailed | WriteFailed

  datatype ApplyResult = ApplyResult(
    ok: bool, memberPresent: bool, added: seq<string>, removed: seq<string>, refused: seq<RefusedRole>,
    error: Option<Error>)

  datatype Request = Request(userId: Option<string>, add: seq<string>, remove: seq<string>)

  function ToSet(s: seq<string>): set<string> {
    set id | id in s
  }

  function ToAdd(g: Guild, held: set<string>, r: Request): seq<string> {
    Filter(r.add, Passes(g, held, ADD))
  }

  function ToRemove(g: Guild, held: set<string>, r: Request): seq<string> {
    Filter(r.remove, Passes(g, held, REMOVE))
  }

  lemma FailsAreRefused(g: Guild, held: set<string>, want: seq<string>, direction: Direction, id: string)
    requires id in Filter(want, Fails(g, held, direction))
    ensures Refusal(g, id).Some?
  {
    FilterMember(want, Fails(g, held, direction), id);
  }

  function RefusedIn(g: Guild, held: set<string>, want: seq<string>, direction: Direction): seq<RefusedRole> {
    var failed := Filter(want, Fails(g, held, direction));
    assert forall id :: id in failed ==> Refusal(g, id).Some? by {
      forall id | id in failed ensures Refusal(g, id).Some? { FailsAreRefused(g, held, want, direction, id); }
    }
    Refused(g, failed)
  }

  function AllRefused(g: Guild, held: set<string>, r: Request): seq<RefusedRole> {
    RefusedIn(g, held, r.add, ADD) + RefusedIn(g, held, r.remove, REMOVE)
  }

  /** The call gets as far as deciding. */
  predicate Decides(r: Request, w: World) {
    r.userId.Some? && (r.add != [] || r.remove != []) && w.fetch.Present?
  }

  /** The roles after the add, then after the remove. An empty write is not attempted. */
  function HeldAfterAdd(held: set<string>, toAdd: seq<string>, w: Write): set<string> {
    if toAdd == [] then held
    else held + if w.Landed? then ToSet(toAdd) else ToSet(toAdd) * w.part
  }

  predicate AddFails(toAdd: seq<string>, w: Write) {
    toAdd != [] && w.Failed?
  }

  function HeldAfterRemove(held: set<string>, toRemove: seq<string>, w: Write): set<string> {
    if toRemove == [] then held
    else held - if w.Landed? then ToSet(toRemove) else ToSet(toRemove) * w.part
  }

  function HeldAfter(held: set<string>, r: Request, w: World): set<string> {
    if !Decides(r, w) then held
    else
      var toAdd, toRemove := ToAdd(w.guild, held, r), ToRemove(w.guild, held, r);
      var added := HeldAfterAdd(held, toAdd, w.add);
      if AddFails(toAdd, w.add) then added else HeldAfterRemove(added, toRemove, w.remove)
  }

  predicate WritesLand(held: set<string>, r: Request, w: World) {
    !AddFails(ToAdd(w.guild, held, r), w.add) && !AddFails(ToRemove(w.guild, held, r), w.remove)
  }

  function Report(held: set<string>, r: Request, w: World): ApplyResult {
    if r.userId.None? then ApplyResult(false, false, [], [], [], Some(InvalidUser))
    else if r.add == [] && r.remove == [] then ApplyResult(true, true, [], [], [], None)
    else if w.fetch.Gone? then ApplyResult(true, false, [], [], [], None)
    else if w.fetch.Unavailable? then ApplyResult(false, false, [], [], [], Some(FetchFailed))
    else if WritesLand(held, r, w) then
      ApplyResult(true, true, ToAdd(w.guild, held, r), ToRemove(w.guild, held, r), AllRefused(w.guild, held, r), None)
    else ApplyResult(false, true, [], [], AllRefused(w.guild, held, r), Some(WriteFailed))
  }

  /** One member of one guild. `writes` counts the role writes Discord was asked for. */
  class Member {
    var held: set<string>
    ghost var writes: nat

    constructor (roles: set<string>)
      ensures held == roles && writes == 0
    {
      held, writes := roles, 0;
    }

    method Add(roles: seq<string>, w: Write) returns (ok: bool)
      requires roles != []
      modifies this
      ensures held == HeldAfterAdd(old(held), roles, w) && ok == w.Landed? && writes == old(writes) + 1
    {
      var all := set id | id in roles;
      held := held + if w.Landed? then all else all * w.part;
      writes := writes + 1;
      return w.Landed?;
    }

    method Remove(roles: seq<string>, w: Write) returns (ok: bool)
      requires roles != []
      modifies this
      ensures held == HeldAfterRemove(old(held), roles, w) && ok == w.Landed? && writes == old(writes) + 1
    {
      var all := set id | id in roles;
      held := held - if w.Landed? then all else all * w.part;
      writes := writes + 1;
      return w.Landed?;
    }

    method ApplyRoles(userId: Option<string>, add: Option<seq<Option<string>>>, remove: Option<seq<Option<string>>>,
                      w: World) returns (result: ApplyResult)
      modifies this
      ensures var r := Request(userId, IdsOf(add), IdsOf(remove));
              && held == HeldAfter(old(held), r, w)
              && result == Report(old(held), r, w)
              && (writes == old(writes) <==>
                  !Decides(r, w) || (ToAdd(w.guild, old(held), r) == [] && ToRemove(w.guild, old(held), r) == []))
    {
      var wantAdd := Ids(add);
      var wantRemove := Ids(remove);
      if userId.None? {
        return ApplyResult(false, false, [], [], [], Some(InvalidUser));
      }
      if |wantAdd| == 0 && |wantRemove| == 0 {
        return ApplyResult(true, true, [], [], [], None);
      }
      match w.fetch {
        case Gone => return ApplyResult(true, false, [], [], [], None);
        case Unavailable => return ApplyResult(false, false, [], [], [], Some(FetchFailed));
        case Present =>
      }
      var toAdd, refusedAdd := Screen(w.guild, held, wantAdd, ADD);
      var toRemove, refusedRemove := Screen(w.guild, held, wantRemove, REMOVE);
      var refused := refusedAdd + refusedRemove;
      if |toAdd| > 0 {
        var ok := Add(toAdd, w.add);
        if !ok {
          return ApplyResult(false, true, [], [], refused, Some(WriteFailed));
        }
      }
      if |toRemove| > 0 {
        var ok := Remove(toRemove, w.remove);
        if !ok {
          return ApplyResult(false, true, [], [], refused, Some(WriteFailed));
        }
      }
      return ApplyResult(true, true, toAdd, toRemove, refused, None);
    }
  }
}
