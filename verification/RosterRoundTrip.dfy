/** Printing a guild roster in any of the decorations the parser claims to tolerate, and reading it back
    (apps/bridge-bot/src/roster.ts:94-154). */
module RosterRoundTrip {
  import opened Prelude
  import opened ChatText
  import opened RosterText
  import opened RosterLines
  import opened RosterMembersLine
  import opened Roster

  // ----- what a block may look like

  /** A blank line, a rule of five or more dashes, a title without a value, or somebody talking in a channel. */
  datatype Noise =
    | Blank(text: string)
    | Rule(left: string, width: nat, right: string)
    | Untitled(left: string, text: string, title: Title, right: string)
    | Chat(channel: string, said: string)

  /** A line under a rank header. */
  datatype Line = Quiet(noise: Noise) | People(tokens: seq<Token>)

  datatype Section = Section(
    left: string, a: nat, g1: string, rank: string, g2: string, b: nat, right: string, lines: seq<Line>)

  /** A titled line: the title in any case, a gap, and the value. */
  datatype Titled<V> = Titled(left: string, text: string, gap: string, value: V, right: string)

  datatype Layout = Layout(
    top: seq<Noise>, name: Option<Titled<string>>, above: seq<Noise>, sections: seq<Section>,
    total: Option<Titled<nat>>, between: seq<Noise>, online: Option<Titled<nat>>, bottom: seq<Noise>)

  predicate NoiseOk(n: Noise) {
    match n
    case Blank(text) => AllSpace(text)
    case Rule(left, width, right) => AllSpace(left) && width >= 5 && AllSpace(right)
    case Untitled(left, text, title, right) => AllSpace(left) && Cases(text, title) && AllSpace(right)
    case Chat(channel, _) => IsChannel(channel)
  }

  predicate AllNoiseOk(ns: seq<Noise>) {
    forall n :: n in ns ==> NoiseOk(n)
  }

  predicate LineOk(l: Line) {
    match l
    case Quiet(noise) => NoiseOk(noise)
    case People(tokens) => MemberLine(tokens, true)
  }

  predicate SectionOk(s: Section) {
    && AllSpace(s.left) && s.a >= 2 && AllSpace(s.g1) && IsRankName(s.rank)
    && AllSpace(s.g2) && s.b >= 2 && AllSpace(s.right)
    && forall l :: l in s.lines ==> LineOk(l)
  }

  predicate TitledOk<V>(t: Titled<V>, title: Title) {
    AllSpace(t.left) && Cases(t.text, title) && AllSpace(t.gap) && AllSpace(t.right)
  }

  predicate IsGuildName(s: string) {
    Bare(s) && Tidy(s) && SECTION_SIGN !in s
  }

  predicate LayoutOk(l: Layout) {
    && AllNoiseOk(l.top) && AllNoiseOk(l.above) && AllNoiseOk(l.between) && AllNoiseOk(l.bottom)
    && (l.name.Some? ==> TitledOk(l.name.value, GuildName) && IsGuildName(l.name.value.value))
    && (forall s :: s in l.sections ==> SectionOk(s))
    && (l.total.Some? ==> TitledOk(l.total.value, TotalMembers))
    && (l.online.Some? ==> TitledOk(l.online.value, OnlineMembers))
  }

  // ----- printing

  function PrintNoise(n: Noise): string {
    match n
    case Blank(text) => text
    case Rule(left, width, right) => left + Dashes(width) + right
    case Untitled(left, text, _, right) => left + text + right
    case Chat(channel, said) => channel + " > " + said
  }

  function PrintAllNoise(ns: seq<Noise>): seq<string> {
    seq(|ns|, i requires 0 <= i < |ns| => PrintNoise(ns[i]))
  }

  function PrintLine(l: Line): string {
    match l
    case Quiet(noise) => PrintNoise(noise)
    case People(tokens) => Text(tokens)
  }

  function PrintHeader(s: Section): string {
    s.left + (Dashes(s.a) + (s.g1 + s.rank + s.g2) + Dashes(s.b)) + s.right
  }

  function PrintLines(lines: seq<Line>): seq<string> {
    if lines == [] then [] else PrintLines(lines[..|lines| - 1]) + [PrintLine(lines[|lines| - 1])]
  }

  function PrintSection(s: Section): seq<string> {
    [PrintHeader(s)] + PrintLines(s.lines)
  }

  function PrintSections(ss: seq<Section>): seq<string> {
    if ss == [] then [] else PrintSections(ss[..|ss| - 1]) + PrintSection(ss[|ss| - 1])
  }

  function PrintName(t: Option<Titled<string>>): seq<string> {
    if t.None? then [] else [t.value.left + (t.value.text + t.value.gap + t.value.value) + t.value.right]
  }

  function PrintCount(t: Option<Titled<nat>>): seq<string> {
    if t.None? then [] else [t.value.left + (t.value.text + t.value.gap + Decimal(t.value.value)) + t.value.right]
  }

  function Head(l: Layout): seq<string> {
    PrintAllNoise(l.top) + PrintName(l.name) + PrintAllNoise(l.above)
  }

  function Foot(l: Layout): seq<string> {
    PrintCount(l.total) + PrintAllNoise(l.between) + PrintCount(l.online) + PrintAllNoise(l.bottom)
  }

  function Print(l: Layout): seq<string> {
    Head(l) + PrintSections(l.sections) + Foot(l)
  }

  // ----- what the block says

  function MembersIn(lines: seq<Line>): seq<string> {
    if lines == [] then []
    else
      var last := lines[|lines| - 1];
      MembersIn(lines[..|lines| - 1]) + if last.People? then NamesIn(last.tokens) else []
  }

  function RanksIn(ss: seq<Section>): seq<Rank> {
    seq(|ss|, i requires 0 <= i < |ss| => Rank(ss[i].rank, MembersIn(ss[i].lines)))
  }

  function ValueOf<V>(t: Option<Titled<V>>): Option<V> {
    if t.Some? then Some(t.value.value) else None
  }

  /** The roster a block denotes: its ranks without the empty ones. */
  function Denoted(l: Layout): Roster {
    Roster(ValueOf(l.name), Filter(RanksIn(l.sections), Peopled), ValueOf(l.online), ValueOf(l.total))
  }

  // ----- reading one line

  lemma StepNoise(p: Parse, n: Noise)
    requires NoiseOk(n)
    ensures Step(p, PrintNoise(n)) == p
  {
    match n
    case Blank(text) =>
      CleanSpace(text);
    case Rule(left, width, right) =>
      CleanPadded(left, Dashes(width), right);
      DashesTidy(width);
    case Untitled(left, text, title, right) =>
      StepUntitled(p, left, text, title, right);
    case Chat(channel, said) =>
      StepChat(p, channel, said);
  }

  /** A line that is talk and has no title is skipped, inside a section and outside. */
  lemma StepTalk(p: Parse, raw: string)
    requires var line := Clean(raw);
             && IsTalk(line) && line != [] && line[0] != '-'
             && GuildNameOf(line) == None && CountOf(TotalMembers, line) == None && CountOf(OnlineMembers, line) == None
    ensures Step(p, raw) == p
  {
    var line := Clean(raw);
    assert MembersOf(line) == [];
    NotDashed(line);
    hide Clean, MembersOf, GuildNameOf, CountOf, RankHeaderOf, IsDivider, IsTalk;
    if p.ranks != [] {
      JoinedNothing(p.ranks);
    }
  }

  lemma StepUntitled(p: Parse, left: string, text: string, title: Title, right: string)
    requires AllSpace(left) && Cases(text, title) && AllSpace(right)
    ensures Step(p, left + text + right) == p
  {
    hide *;
    TitleTidy(text, title);
    CleanPadded(left, text, right);
    CollapseTidy(text);
    NothingTitled(text, title, TotalMembers);
    NothingTitled(text, title, OnlineMembers);
    TitleIsTalk(text);
    StepTalk(p, left + text + right);
  }

  lemma TitleIsTalk(text: string)
    requires Bare(text) && text[|text| - 1] == ':'
    ensures IsTalk(text) && text != []
  {
    assert text[|text| - 1] in text;
  }

  lemma StepChat(p: Parse, channel: string, said: string)
    requires IsChannel(channel)
    ensures Step(p, channel + " > " + said) == p
  {
    var line := Clean(channel + " > " + said);
    ChatHead(channel, said);
    forall title: Title ensures !Labelled(title, line) {
      ChatIsNotTitled(channel, line, title);
    }
    assert line[|channel| + 1] == '>' && line[|channel| + 1] in line && IsTalk(line);
    assert line[0] == channel[0] && channel[0] in channel;
    hide Clean, Labelled, IsTalk, Step;
    StepTalk(p, channel + " > " + said);
  }

  lemma NotTitled(line: string)
    requires ':' !in line
    ensures GuildNameOf(line) == None && CountOf(TotalMembers, line) == None && CountOf(OnlineMembers, line) == None
  {
    forall title: Title ensures !Labelled(title, line) {
      TitleShape(title);
      var k := |TitleText(title)| - 1;
      assert |line| > k ==> Lower(line[..k + 1])[k] == LowerChar(line[k]) && line[k] in line;
      hide TitleText;
    }
  }

  lemma NotTitledHeader(line: string)
    requires line != [] && line[0] == '-'
    ensures GuildNameOf(line) == None && CountOf(TotalMembers, line) == None && CountOf(OnlineMembers, line) == None
  {
  }

  lemma NotDashed(line: string)
    requires line == [] || line[0] != '-'
    ensures !IsDivider(line) && RankHeaderOf(line) == None
  {
    if line != [] {
      assert line[0] in line;
    }
  }

  lemma NobodyOnBlank()
    ensures MembersOf("") == []
  {
  }

  lemma StepPeople(p: Parse, tokens: seq<Token>)
    requires p.inRank && p.ranks != [] && MemberLine(tokens, true)
    ensures Step(p, Text(tokens)) == p.(ranks := Joined(p.ranks, NamesIn(tokens)))
  {
    hide Clean, Text, GuildNameOf, CountOf, RankHeaderOf, IsDivider, NamesIn, MemberLine, MembersOf, Joined;
    MembersRead(tokens);
    CleanChars(tokens);
    CleanHead(tokens);
    var line := Clean(Text(tokens));
    NotTitled(line);
    NotDashed(line);
    NobodyOnBlank();
    JoinedNothing(p.ranks);
  }

  lemma StepHeader(p: Parse, s: Section)
    requires SectionOk(s)
    ensures Step(p, PrintHeader(s)) == p.(ranks := p.ranks + [Rank(s.rank, [])], recognised := true, inRank := true)
  {
    CleanHeader(s.left, s.a, s.g1, s.rank, s.g2, s.b, s.right);
    CollapseSpace(s.g1);
    CollapseSpace(s.g2);
    var line := Clean(PrintHeader(s));
    HeaderRead(s.a, Collapse(s.g1), s.rank, Collapse(s.g2), s.b);
    assert line[0] == Dashes(s.a)[0];
    NotTitledHeader(line);
    hide Clean, GuildNameOf, CountOf, RankHeaderOf, IsDivider;
  }

  lemma TitledHead(text: string, rest: string, title: Title)
    requires Cases(text, title)
    ensures text + rest != [] && (text + rest)[0] != '-'
  {
  }

  lemma StepName(p: Parse, t: Titled<string>)
    requires TitledOk(t, GuildName) && IsGuildName(t.value)
    ensures Step(p, t.left + (t.text + t.gap + t.value) + t.right)
         == p.(guildName := Some(t.value), recognised := true, inRank := false)
  {
    hide Clean, Collapse, GuildNameOf, CountOf, RankHeaderOf, IsDivider, Tidy, Bare, Cases, TitleText;
    CleanTitled(t.left, t.text, t.gap, t.value, t.right, GuildName);
    var sep := Collapse(t.gap);
    CollapseSpace(t.gap);
    assert AllSpace(sep);
    GuildNameRead(t.text, sep, t.value);
    assert t.text + sep + t.value == t.text + (sep + t.value);
    TitledHead(t.text, sep + t.value, GuildName);
    NotDashed(t.text + sep + t.value);
    hide AllSpace;
  }

  lemma NotLabelled(title: Title, line: string)
    requires !Labelled(title, line)
    ensures CountOf(title, line) == None && (title == GuildName ==> GuildNameOf(line) == None)
  {
  }

  /** A count line is that count and nothing else. */
  lemma CountLine(text: string, sep: string, n: nat, title: Title)
    requires title != GuildName && Cases(text, title) && AllSpace(sep)
    ensures var line := text + sep + Decimal(n);
            && line != [] && !IsDivider(line) && RankHeaderOf(line) == None && GuildNameOf(line) == None
            && CountOf(title, line) == Some(n)
            && (title == OnlineMembers ==> CountOf(TotalMembers, line) == None)
  {
    hide *;
    var rest := sep + Decimal(n);
    assert text + sep + Decimal(n) == text + rest;
    CountRead(text, sep, n, title);
    LabelledBy(text, rest, title, GuildName);
    LabelledBy(text, rest, title, TotalMembers);
    NotLabelled(GuildName, text + rest);
    if title == OnlineMembers {
      NotLabelled(TotalMembers, text + rest);
    }
    TitledHead(text, rest, title);
    NotDashed(text + rest);
  }

  lemma StepCount(p: Parse, t: Titled<nat>, title: Title)
    requires title != GuildName && TitledOk(t, title)
    ensures var q := p.(recognised := true, inRank := false);
            Step(p, t.left + (t.text + t.gap + Decimal(t.value)) + t.right)
            == if title == TotalMembers then q.(total := Some(t.value)) else q.(online := Some(t.value))
  {
    DecimalBare(t.value);
    hide Clean, GuildNameOf, CountOf, RankHeaderOf, IsDivider, Decimal, Tidy, Bare;
    CleanTitled(t.left, t.text, t.gap, Decimal(t.value), t.right, title);
    CollapseSpace(t.gap);
    CountLine(t.text, Collapse(t.gap), t.value, title);
  }

  // ----- reading many lines

  lemma {:induction false} FoldAppend(p: Parse, a: seq<string>, b: seq<string>)
    ensures Fold(p, a + b) == Fold(Fold(p, a), b)
  {
    if b == [] {
      assert a + b == a;
    } else {
      assert (a + b)[..|a + b| - 1] == a + b[..|b| - 1];
      FoldAppend(p, a, b[..|b| - 1]);
    }
  }

  lemma {:induction false} FoldNoise(p: Parse, ns: seq<Noise>)
    requires AllNoiseOk(ns)
    ensures Fold(p, PrintAllNoise(ns)) == p
  {
    if ns != [] {
      var n := |ns| - 1;
      assert PrintAllNoise(ns)[..n] == PrintAllNoise(ns[..n]);
      FoldNoise(p, ns[..n]);
      StepNoise(p, ns[n]);
    }
  }

  lemma JoinedTwice(ranks: seq<Rank>, a: seq<string>, b: seq<string>)
    requires ranks != []
    ensures Joined(Joined(ranks, a), b) == Joined(ranks, a + b)
  {
    var last := ranks[|ranks| - 1];
    assert (last.members + a) + b == last.members + (a + b);
    assert Joined(ranks, a)[..|ranks| - 1] == ranks[..|ranks| - 1];
  }

  lemma StepLine(p: Parse, l: Line)
    requires p.inRank && p.ranks != [] && LineOk(l)
    ensures Step(p, PrintLine(l)) == p.(ranks := Joined(p.ranks, if l.People? then NamesIn(l.tokens) else []))
  {
    hide Step, NamesIn, MemberLine;
    match l
    case Quiet(noise) =>
      StepNoise(p, noise);
      JoinedNothing(p.ranks);
    case People(tokens) =>
      StepPeople(p, tokens);
  }

  lemma JoinedNothing(ranks: seq<Rank>)
    requires ranks != []
    ensures Joined(ranks, []) == ranks
  {
    var last := ranks[|ranks| - 1];
    assert last.members + [] == last.members && ranks[..|ranks| - 1] + [last] == ranks;
  }

  lemma {:induction false} FoldLines(p: Parse, lines: seq<Line>)
    requires p.inRank && p.ranks != [] && forall l :: l in lines ==> LineOk(l)
    ensures Fold(p, PrintLines(lines)) == p.(ranks := Joined(p.ranks, MembersIn(lines)))
  {
    if lines == [] {
      JoinedNothing(p.ranks);
    } else {
      var n := |lines| - 1;
      FoldLines(p, lines[..n]);
      var here := if lines[n].People? then NamesIn(lines[n].tokens) else [];
      StepLine(p.(ranks := Joined(p.ranks, MembersIn(lines[..n]))), lines[n]);
      JoinedTwice(p.ranks, MembersIn(lines[..n]), here);
      assert MembersIn(lines) == MembersIn(lines[..n]) + here;
      hide Fold, Step, LineOk, PrintLine, NamesIn, MembersIn, Joined;
    }
  }

  lemma FoldSection(p: Parse, s: Section)
    requires SectionOk(s)
    ensures Fold(p, PrintSection(s))
         == p.(ranks := p.ranks + [Rank(s.rank, MembersIn(s.lines))], recognised := true, inRank := true)
  {
    FoldAppend(p, [PrintHeader(s)], PrintLines(s.lines));
    StepHeader(p, s);
    var q := p.(ranks := p.ranks + [Rank(s.rank, [])], recognised := true, inRank := true);
    assert forall l :: l in s.lines ==> LineOk(l);
    hide Fold, Step, PrintLines, PrintHeader, MembersIn, SectionOk, LineOk;
    FoldLines(q, s.lines);
    assert q.ranks[..|p.ranks|] == p.ranks;
    assert [] + MembersIn(s.lines) == MembersIn(s.lines);
  }

  lemma RanksSnoc(ss: seq<Section>)
    requires ss != []
    ensures var n := |ss| - 1; RanksIn(ss) == RanksIn(ss[..n]) + [Rank(ss[n].rank, MembersIn(ss[n].lines))]
  {
  }

  lemma {:induction false} FoldSections(p: Parse, ss: seq<Section>)
    requires !p.inRank && forall s :: s in ss ==> SectionOk(s)
    ensures Fold(p, PrintSections(ss))
         == p.(ranks := p.ranks + RanksIn(ss), recognised := p.recognised || ss != [], inRank := ss != [])
  {
    if ss == [] {
      assert p.ranks + RanksIn(ss) == p.ranks;
    } else {
      var n := |ss| - 1;
      var before, last := PrintSections(ss[..n]), PrintSection(ss[n]);
      assert PrintSections(ss) == before + last;
      hide *;
      FoldSections(p, ss[..n]);
      FoldAppend(p, before, last);
      FoldSection(Fold(p, before), ss[n]);
      RanksSnoc(ss);
      var now := [Rank(ss[n].rank, MembersIn(ss[n].lines))];
      assert p.ranks + RanksIn(ss) == (p.ranks + RanksIn(ss[..n])) + now;
    }
  }

  lemma FoldName(p: Parse, t: Option<Titled<string>>)
    requires t.Some? ==> TitledOk(t.value, GuildName) && IsGuildName(t.value.value)
    ensures Fold(p, PrintName(t)) ==
            if t.None? then p else p.(guildName := Some(t.value.value), recognised := true, inRank := false)
  {
    if t.Some? {
      StepName(p, t.value);
    }
  }

  lemma FoldCount(p: Parse, t: Option<Titled<nat>>, title: Title)
    requires title != GuildName && (t.Some? ==> TitledOk(t.value, title))
    ensures var q := p.(recognised := true, inRank := false);
            Fold(p, PrintCount(t)) ==
            if t.None? then p
            else if title == TotalMembers then q.(total := Some(t.value.value)) else q.(online := Some(t.value.value))
  {
    if t.Some? {
      StepCount(p, t.value, title);
    }
  }

  // ----- the round trip

  /** Something of the block says that it is one. */
  predicate Recognisable(l: Layout) {
    l.name.Some? || l.sections != [] || l.total.Some? || l.online.Some?
  }

  lemma FoldPrinted(l: Layout)
    requires LayoutOk(l)
    ensures var q := Fold(START, Print(l));
            && q.guildName == ValueOf(l.name) && q.ranks == RanksIn(l.sections)
            && q.total == ValueOf(l.total) && q.online == ValueOf(l.online)
            && (q.recognised <==> Recognisable(l))
  {
    var upper, middle, lower, ranks := Head(l), PrintSections(l.sections), Foot(l), RanksIn(l.sections);
    var p2 := START.(guildName := ValueOf(l.name), recognised := l.name.Some?);
    var p3 := p2.(ranks := ranks, recognised := l.name.Some? || l.sections != [], inRank := l.sections != []);
    assert forall s :: s in l.sections ==> SectionOk(s);
    assert Print(l) == (upper + middle) + lower;
    assert p2.ranks == [] && [] + ranks == ranks;
    assert Recognisable(l) <==> l.name.Some? || l.sections != [] || l.total.Some? || l.online.Some?;
    hide *;
    FoldHead(l);
    FoldSections(p2, l.sections);
    FoldAppend(START, upper, middle);
    FoldAppend(START, upper + middle, lower);
    FoldFoot(p3, l);
  }

  /** Whatever the decoration - dash counts, white space, tags, dots, rules, blank lines, bare titles and channel chat
      anywhere, members spread over lines at will, titles in any case - reading a printed roster gives the roster back
      minus its empty ranks, and nothing when the block holds nothing but decoration. */
  lemma ReadsWhatWasPrinted(l: Layout)
    requires LayoutOk(l)
    ensures RosterOf(Print(l)) == if Recognisable(l) then Some(Denoted(l)) else None
  {
    hide LayoutOk, Print, Fold, Recognisable, RanksIn, ValueOf;
    FoldPrinted(l);
  }

  lemma FoldHead(l: Layout)
    requires LayoutOk(l)
    ensures Fold(START, Head(l)) == START.(guildName := ValueOf(l.name), recognised := l.name.Some?)
  {
    FoldNoise(START, l.top);
    FoldName(START, l.name);
    var p := START.(guildName := ValueOf(l.name), recognised := l.name.Some?);
    FoldNoise(p, l.above);
    FoldAppend(START, PrintAllNoise(l.top), PrintName(l.name));
    FoldAppend(START, PrintAllNoise(l.top) + PrintName(l.name), PrintAllNoise(l.above));
    hide Fold, PrintAllNoise, PrintName, LayoutOk;
  }

  lemma FoldFoot(p: Parse, l: Layout)
    requires LayoutOk(l) && p.total == None && p.online == None
    ensures var q := Fold(p, Foot(l));
            && q.guildName == p.guildName && q.ranks == p.ranks
            && q.total == ValueOf(l.total) && q.online == ValueOf(l.online)
            && q.recognised == (p.recognised || l.total.Some? || l.online.Some?)
  {
    var a, b, c, d := PrintCount(l.total), PrintAllNoise(l.between), PrintCount(l.online), PrintAllNoise(l.bottom);
    FoldCount(p, l.total, TotalMembers);
    var p1 := Fold(p, a);
    FoldNoise(p1, l.between);
    FoldCount(p1, l.online, OnlineMembers);
    FoldNoise(Fold(p1, c), l.bottom);
    FoldAppend(p, a, b);
    FoldAppend(p, a + b, c);
    FoldAppend(p, a + b + c, d);
    hide Fold, PrintAllNoise, PrintCount, LayoutOk;
  }

  // ----- where the collector stops

  lemma NotTheEnd(raw: string)
    requires ':' !in raw && SECTION_SIGN !in raw
    ensures !IsRosterEnd(raw)
  {
    StripColorsNone(raw);
    if ':' in Trim(raw) {
      assert ':' in TrimLeft(raw);
      TrimLeftChars(raw, ':');
    }
    NotTitled(Trim(raw));
  }

  lemma NoiseIsNotTheEnd(n: Noise)
    requires NoiseOk(n)
    ensures !IsRosterEnd(PrintNoise(n))
  {
    match n
    case Blank(_) => NotTheEnd(PrintNoise(n));
    case Rule(_, _, _) => NotTheEnd(PrintNoise(n));
    case Untitled(left, text, title, right) =>
      TitleTidy(text, title);
      StripColorsNone(left + text + right);
      TrimBare(left, text, right);
      NothingTitled(text, title, OnlineMembers);
    case Chat(channel, said) =>
      ChatHead(channel, said);
      ChatIsNotTitled(channel, Trim(StripColors(PrintNoise(n))), OnlineMembers);
  }

  lemma LineIsNotTheEnd(l: Line)
    requires LineOk(l)
    ensures !IsRosterEnd(PrintLine(l))
  {
    match l
    case Quiet(noise) => NoiseIsNotTheEnd(noise);
    case People(tokens) =>
      TextChars(tokens, true);
      NotTheEnd(Text(tokens));
  }

  lemma HeaderIsNotTheEnd(s: Section)
    requires SectionOk(s)
    ensures !IsRosterEnd(PrintHeader(s))
  {
    var mid := s.g1 + s.rank + s.g2;
    var all := Dashes(s.a) + mid + Dashes(s.b);
    assert all[0] == Dashes(s.a)[0] && all[|all| - 1] == Dashes(s.b)[s.b - 1];
    assert SECTION_SIGN !in PrintHeader(s);
    StripColorsNone(PrintHeader(s));
    TrimBare(s.left, all, s.right);
    NotTitledHeader(all);
  }

  /** A titled line ends the block exactly when its title is the online count's. */
  lemma TitledEnd<V>(t: Titled<V>, x: string, title: Title)
    requires TitledOk(t, title) && Bare(x) && SECTION_SIGN !in x
    requires title == OnlineMembers ==> exists n :: x == Decimal(n)
    ensures IsRosterEnd(t.left + (t.text + t.gap + x) + t.right) <==> title == OnlineMembers
  {
    TitleTidy(t.text, title);
    var all := t.text + t.gap + x;
    assert all == t.text + (t.gap + x);
    assert SECTION_SIGN !in t.left + all + t.right && Bare(all);
    StripColorsNone(t.left + all + t.right);
    TrimBare(t.left, all, t.right);
    LabelledBy(t.text, t.gap + x, title, OnlineMembers);
    if title == OnlineMembers {
      var n :| x == Decimal(n);
      CountRead(t.text, t.gap, n, title);
    }
  }

  lemma {:induction false} LinesAreNotTheEnd(lines: seq<Line>)
    requires forall l :: l in lines ==> LineOk(l)
    ensures forall raw :: raw in PrintLines(lines) ==> !IsRosterEnd(raw)
  {
    hide IsRosterEnd, PrintLine, LineOk;
    if lines != [] {
      LinesAreNotTheEnd(lines[..|lines| - 1]);
      LineIsNotTheEnd(lines[|lines| - 1]);
    }
  }

  lemma {:induction false} SectionsAreNotTheEnd(ss: seq<Section>)
    requires forall s :: s in ss ==> SectionOk(s)
    ensures forall raw :: raw in PrintSections(ss) ==> !IsRosterEnd(raw)
  {
    if ss != [] {
      var s := ss[|ss| - 1];
      SectionsAreNotTheEnd(ss[..|ss| - 1]);
      HeaderIsNotTheEnd(s);
      LinesAreNotTheEnd(s.lines);
      hide IsRosterEnd, PrintHeader, PrintLines;
    }
  }

  lemma NoiseLinesAreNotTheEnd(ns: seq<Noise>)
    requires AllNoiseOk(ns)
    ensures forall raw :: raw in PrintAllNoise(ns) ==> !IsRosterEnd(raw)
  {
    forall i | 0 <= i < |ns| ensures !IsRosterEnd(PrintAllNoise(ns)[i]) {
      NoiseIsNotTheEnd(ns[i]);
    }
  }

  function BeforeOnline(l: Layout): seq<string> {
    Head(l) + PrintSections(l.sections) + (PrintCount(l.total) + PrintAllNoise(l.between))
  }

  lemma NothingEndsEarly(l: Layout)
    requires LayoutOk(l)
    ensures forall raw :: raw in BeforeOnline(l) ==> !IsRosterEnd(raw)
  {
    NoiseLinesAreNotTheEnd(l.top);
    NoiseLinesAreNotTheEnd(l.above);
    NoiseLinesAreNotTheEnd(l.between);
    SectionsAreNotTheEnd(l.sections);
    if l.name.Some? {
      TitledEnd(l.name.value, l.name.value.value, GuildName);
    }
    if l.total.Some? {
      DecimalBare(l.total.value.value);
      TitledEnd(l.total.value, Decimal(l.total.value.value), TotalMembers);
    }
    hide IsRosterEnd, PrintAllNoise, PrintSections, LayoutOk;
  }

  lemma BeforeOnlineAppend(l: Layout)
    ensures Print(l) == BeforeOnline(l) + PrintCount(l.online) + PrintAllNoise(l.bottom)
  {
  }

  /** Collecting lines up to the first that ends the block collects the block to its online count, and that much
      already reads as the whole. */
  lemma CollectorStopsInTime(l: Layout)
    requires LayoutOk(l) && l.online.Some?
    ensures var k := |BeforeOnline(l)|;
            && k < |Print(l)| && IsRosterEnd(Print(l)[k])
            && (forall i :: 0 <= i < k ==> !IsRosterEnd(Print(l)[i]))
            && RosterOf(Print(l)[..k + 1]) == RosterOf(Print(l)) == Some(Denoted(l))
  {
    NothingEndsEarly(l);
    var t := l.online.value;
    DecimalBare(t.value);
    TitledEnd(t, Decimal(t.value), OnlineMembers);
    ReadsWhatWasPrinted(l);
    var cut := l.(bottom := []);
    ReadsWhatWasPrinted(cut);
    var upTo := BeforeOnline(l);
    assert PrintAllNoise([]) == [];
    var at := PrintCount(l.online)[0];
    assert PrintCount(l.online) == [at];
    BeforeOnlineAppend(l);
    BeforeOnlineAppend(cut);
    assert Denoted(cut) == Denoted(l) && Recognisable(cut) && Recognisable(l);
    hide *;
    assert Print(cut) == upTo + [at];
    assert Print(l) == (upTo + [at]) + PrintAllNoise(l.bottom);
    assert Print(l)[..|upTo| + 1] == Print(cut) && Print(l)[|upTo|] == at;
    assert forall i :: 0 <= i < |upTo| ==> Print(l)[i] == upTo[i] && upTo[i] in upTo;
  }
}
