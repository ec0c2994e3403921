/** The parser of Hypixel's `/g online` reply (apps/bridge-bot/src/roster.ts:52-159). */
module Roster {
  import opened Prelude
  import opened ChatText
  import opened RosterText

  datatype Rank = Rank(rank: string, members: seq<string>)

  datatype Roster = Roster(guildName: Option<string>, ranks: seq<Rank>, online: Option<nat>, total: Option<nat>)

  /** The locals of the loop. `inRank` says that the open section is the last of `ranks`. */
  datatype Parse = Parse(
    guildName: Option<string>, online: Option<nat>, total: Option<nat>,
    ranks: seq<Rank>, inRank: bool, recognised: bool)

  const START := Parse(None, None, None, [], false, false)

  function Joined(ranks: seq<Rank>, members: seq<string>): seq<Rank>
    requires ranks != []
  {
    var last := ranks[|ranks| - 1];
    ranks[..|ranks| - 1] + [last.(members := last.members + members)]
  }

  function StepClean(p: Parse, line: string): Parse {
    if line == [] || IsDivider(line) then p
    else if GuildNameOf(line).Some? then p.(guildName := GuildNameOf(line), recognised := true, inRank := false)
    else if CountOf(TotalMembers, line).Some? then
      p.(total := CountOf(TotalMembers, line), recognised := true, inRank := false)
    else if CountOf(OnlineMembers, line).Some? then
      p.(online := CountOf(OnlineMembers, line), recognised := true, inRank := false)
    else if RankHeaderOf(line).Some? then
      p.(ranks := p.ranks + [Rank(RankHeaderOf(line).value, [])], recognised := true, inRank := true)
    else if p.inRank && p.ranks != [] then p.(ranks := Joined(p.ranks, MembersOf(line)))
    else p
  }

  function Step(p: Parse, raw: string): Parse {
    StepClean(p, Clean(raw))
  }

  function Fold(p: Parse, lines: seq<string>): Parse {
    if lines == [] then p else Step(Fold(p, lines[..|lines| - 1]), lines[|lines| - 1])
  }

  function Peopled(r: Rank): bool {
    |r.members| > 0
  }

  function RosterOf(lines: seq<string>): Option<Roster> {
    var p := Fold(START, lines);
    if p.recognised then Some(Roster(p.guildName, Filter(p.ranks, Peopled), p.online, p.total)) else None
  }

  method ParseGuildOnline(lines: seq<string>) returns (roster: Option<Roster>)
    ensures roster == RosterOf(lines)
  {
    var guildName: Option<string>, online: Option<nat>, total: Option<nat> := None, None, None;
    var ranks: seq<Rank> := [];
    var inRank, recognised := false, false;
    for i := 0 to |lines|
      invariant Parse(guildName, online, total, ranks, inRank, recognised) == Fold(START, lines[..i])
      invariant inRank ==> ranks != []
    {
      hide Clean, GuildNameOf, CountOf, RankHeaderOf, MembersOf, IsDivider;
      assert lines[..i + 1][..i] == lines[..i];
      var line := Clean(lines[i]);
      if |line| == 0 || IsDivider(line) {
        continue;
      }
      var name := GuildNameOf(line);
      if name.Some? {
        guildName, recognised, inRank := name, true, false;
        continue;
      }
      var totals := CountOf(TotalMembers, line);
      if totals.Some? {
        total, recognised, inRank := totals, true, false;
        continue;
      }
      var onlines := CountOf(OnlineMembers, line);
      if onlines.Some? {
        online, recognised, inRank := onlines, true, false;
        continue;
      }
      var header := RankHeaderOf(line);
      if header.Some? {
        ranks := ranks + [Rank(header.value, [])];
        inRank, recognised := true, true;
        continue;
      }
      if inRank {
        ranks := Joined(ranks, MembersOf(line));
      }
    }
    assert lines[..|lines|] == lines;
    if !recognised {
      return None;
    }
    return Some(Roster(guildName, Filter(ranks, Peopled), online, total));
  }

  /** Everyone in the roster, flattened. */
  function RosterMembers(ranks: seq<Rank>): seq<string> {
    if ranks == [] then [] else RosterMembers(ranks[..|ranks| - 1]) + ranks[|ranks| - 1].members
  }

  // ----- a block that is cut short

  /** The second list goes on where the first one stops, possibly inside its last rank. */
  predicate Extends(a: seq<Rank>, b: seq<Rank>) {
    a == [] ||
    (var n := |a| - 1;
     |b| > n && a[..n] == b[..n] && a[n].rank == b[n].rank && a[n].members <= b[n].members)
  }

  lemma ExtendsTransitive(a: seq<Rank>, b: seq<Rank>, c: seq<Rank>)
    requires Extends(a, b) && Extends(b, c)
    ensures Extends(a, c)
  {
  }

  lemma StepExtends(p: Parse, raw: string)
    ensures Extends(p.ranks, Step(p, raw).ranks)
    ensures p.recognised ==> Step(p, raw).recognised
  {
    hide Clean, GuildNameOf, CountOf, RankHeaderOf, MembersOf, IsDivider;
    if p.ranks != [] {
      assert (p.ranks + [Rank("", [])])[..|p.ranks|] == p.ranks;
    }
  }

  lemma {:induction false} FoldExtends(p: Parse, lines: seq<string>, k: nat)
    requires k <= |lines|
    ensures Extends(Fold(p, lines[..k]).ranks, Fold(p, lines).ranks)
    ensures Fold(p, lines[..k]).recognised ==> Fold(p, lines).recognised
    decreases |lines|
  {
    if k == |lines| {
      assert lines[..k] == lines;
    } else {
      var before := lines[..|lines| - 1];
      assert before[..k] == lines[..k];
      FoldExtends(p, before, k);
      StepExtends(Fold(p, before), lines[|lines| - 1]);
      ExtendsTransitive(Fold(p, lines[..k]).ranks, Fold(p, before).ranks, Fold(p, lines).ranks);
    }
  }

  lemma FilterExtends(a: seq<Rank>, b: seq<Rank>)
    requires Extends(a, b)
    ensures Extends(Filter(a, Peopled), Filter(b, Peopled))
  {
    if a != [] {
      var n := |a| - 1;
      var front, tail := a[..n], b[n + 1..];
      assert a == front + [a[n]] && b == (front + [b[n]]) + tail;
      FilterOne(front, a[n], Peopled);
      FilterOne(front, b[n], Peopled);
      FilterAppend(front + [b[n]], tail, Peopled);
      hide Filter;
      ExtendsLast(Filter(front, Peopled), a[n], b[n], Filter(tail, Peopled));
    }
  }

  lemma ExtendsLast(f: seq<Rank>, x: Rank, y: Rank, more: seq<Rank>)
    requires x.rank == y.rank && x.members <= y.members
    ensures Extends(if Peopled(x) then f + [x] else f, (if Peopled(y) then f + [y] else f) + more)
  {
  }

  lemma {:induction false} MembersGrow(ranks: seq<Rank>, k: nat)
    requires k <= |ranks|
    ensures RosterMembers(ranks[..k]) <= RosterMembers(ranks)
    decreases |ranks|
  {
    if k == |ranks| {
      assert ranks[..k] == ranks;
    } else {
      assert ranks[..|ranks| - 1][..k] == ranks[..k];
      MembersGrow(ranks[..|ranks| - 1], k);
    }
  }

  lemma MembersExtend(a: seq<Rank>, b: seq<Rank>)
    requires Extends(a, b)
    ensures RosterMembers(a) <= RosterMembers(b)
  {
  }

  /** The ranks read are the sections with somebody under them. */
  lemma RanksArePeopled(lines: seq<string>, r: Rank)
    requires RosterOf(lines).Some?
    ensures r in RosterOf(lines).value.ranks <==> r in Fold(START, lines).ranks && r.members != []
  {
    FilterMember(Fold(START, lines).ranks, Peopled, r);
  }

  /** Reading only the first lines of any block whatsoever yields a roster that the whole block extends: the same
      ranks up to its last, the same members up to where it stops. */
  lemma PrefixIsHonest(lines: seq<string>, k: nat)
    requires k <= |lines| && RosterOf(lines[..k]).Some?
    ensures RosterOf(lines).Some?
    ensures var part, whole := RosterOf(lines[..k]).value.ranks, RosterOf(lines).value.ranks;
            Extends(part, whole) && RosterMembers(part) <= RosterMembers(whole)
  {
    FoldExtends(START, lines, k);
    FilterExtends(Fold(START, lines[..k]).ranks, Fold(START, lines).ranks);
    MembersExtend(Filter(Fold(START, lines[..k]).ranks, Peopled), Filter(Fold(START, lines).ranks, Peopled));
  }
}
