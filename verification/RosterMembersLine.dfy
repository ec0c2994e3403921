/** Member lines: however names, rank tags, presence dots and gaps are laid out, the names come back
    (apps/bridge-bot/src/roster.ts:59-87). */
module RosterMembersLine {
  import opened Prelude
  import opened ChatText
  import opened RosterText
  import opened RosterLines

  datatype Token = Name(text: string) | Tag(inside: string) | Dot(glyph: char) | Gap(c: char)

  function TokenText(t: Token): string {
    match t
    case Name(text) => text
    case Tag(inside) => "[" + inside + "]"
    case Dot(glyph) => [glyph]
    case Gap(c) => [c]
  }

  function Text(tokens: seq<Token>): string {
    if tokens == [] then [] else TokenText(tokens[0]) + Text(tokens[1..])
  }

  function NamesIn(tokens: seq<Token>): seq<string> {
    if tokens == [] then [] else (if tokens[0].Name? then [tokens[0].text] else []) + NamesIn(tokens[1..])
  }

  predicate Inside(s: string) {
    ']' !in s && ':' !in s && '<' !in s && '>' !in s && SECTION_SIGN !in s
  }

  predicate WellFormed(t: Token) {
    match t
    case Name(text) => IsName(text)
    case Tag(inside) => Inside(inside)
    case Dot(glyph) => glyph in DOTS
    case Gap(c) => IsSpace(c) || c == ','
  }

  /** Well-formed tokens with a gap somewhere between any two names. `mayName` says whether a name may come next. */
  predicate MemberLine(tokens: seq<Token>, mayName: bool) {
    tokens == [] ||
    (&& WellFormed(tokens[0])
     && (tokens[0].Name? ==> mayName)
     && MemberLine(tokens[1..], if tokens[0].Name? then false else tokens[0].Gap? || mayName))
  }

  // ----- one token at a time

  function Scan(s: string): seq<string> {
    Names(Plain(StripTags(s)))
  }

  /** What the name scan sees does not start in the middle of a name. */
  predicate NoNameAhead(s: string) {
    var y := Plain(StripTags(s));
    y == [] || !IsWordChar(y[0])
  }

  lemma ScanSkips(c: char, s: string)
    requires IsSpace(c) || c == ',' || c in DOTS
    ensures Scan([c] + s) == Scan(s)
    ensures c in DOTS ==> (NoNameAhead([c] + s) <==> NoNameAhead(s))
    ensures c !in DOTS ==> NoNameAhead([c] + s)
  {
    assert c != '[' && !IsWordChar(c) && !IsWordChar(' ');
    var y := StripTags(s);
    assert ([c] + s)[1..] == s;
    assert StripTags([c] + s) == [c] + y;
    assert ([c] + y)[1..] == y;
    if c in DOTS {
      assert Plain([c] + y) == [] + Plain(y) == Plain(y);
    } else {
      var d := if c == ',' then ' ' else c;
      assert Plain([c] + y) == [d] + Plain(y);
      assert ([d] + Plain(y))[1..] == Plain(y);
    }
  }

  lemma ScanTag(inside: string, s: string)
    requires ']' !in inside
    ensures StripTags("[" + inside + "]" + s) == StripTags(s)
  {
    var all := "[" + inside + "]" + s;
    var i := |inside| + 1;
    assert all[i] == ']';
    assert forall k :: 0 < k < i ==> all[k] == inside[k - 1];
    assert all[i + 1..] == s;
  }

  lemma {:induction false} StripTagsWord(n: string, s: string)
    requires forall c :: c in n ==> IsWordChar(c)
    ensures StripTags(n + s) == n + StripTags(s)
  {
    if n == [] {
      assert n + s == s;
    } else {
      assert IsWordChar(n[0]);
      assert (n + s)[0] == n[0] && (n + s)[1..] == n[1..] + s;
      StripTagsWord(n[1..], s);
    }
  }

  lemma {:induction false} PlainWord(n: string, s: string)
    requires forall c :: c in n ==> IsWordChar(c)
    ensures Plain(n + s) == n + Plain(s)
  {
    if n == [] {
      assert n + s == s;
    } else {
      assert IsWordChar(n[0]);
      assert n[0] !in DOTS;
      assert (n + s)[0] == n[0] && (n + s)[1..] == n[1..] + s;
      PlainWord(n[1..], s);
    }
  }

  lemma ScanName(n: string, s: string)
    requires IsName(n) && NoNameAhead(s)
    ensures Scan(n + s) == [n] + Scan(s)
  {
    StripTagsWord(n, s);
    PlainWord(n, StripTags(s));
    var y := Plain(StripTags(s));
    WordRunOf(n, y);
    assert (n + y)[0] == n[0] && (n + y)[..|n|] == n && (n + y)[|n|..] == y;
  }

  // ----- a blank at the end

  lemma IndexOfAppend(s: string, c: char, t: string)
    requires c !in t
    ensures IndexOf(s + t, c) == if IndexOf(s, c) < |s| then IndexOf(s, c) else |s| + |t|
  {
    var all := s + t;
    assert forall k :: 0 <= k < |s| ==> all[k] == s[k];
    assert forall k :: |s| <= k < |all| ==> all[k] == t[k - |s|] && all[k] in t;
  }

  lemma {:induction false} StripTagsBlank(s: string, c: char)
    requires IsSpace(c)
    ensures StripTags(s + [c]) == StripTags(s) + [c]
    decreases |s|
  {
    var all := s + [c];
    if s == [] {
      assert all == [c] && [c][1..] == [];
      assert StripTags([c]) == [c] + StripTags([]);
    } else {
      IndexOfAppend(s, ']', [c]);
      var i := IndexOf(s, ']');
      if s[0] == '[' && i < |s| {
        assert all[i + 1..] == s[i + 1..] + [c];
        StripTagsBlank(s[i + 1..], c);
      } else {
        assert all[1..] == s[1..] + [c];
        StripTagsBlank(s[1..], c);
      }
    }
  }

  lemma {:induction false} PlainBlank(s: string, c: char)
    requires IsSpace(c)
    ensures Plain(s + [c]) == Plain(s) + [c]
  {
    if s == [] {
      assert s + [c] == [c] && [c][1..] == [];
    } else {
      assert (s + [c])[0] == s[0] && (s + [c])[1..] == s[1..] + [c];
      PlainBlank(s[1..], c);
    }
  }

  lemma {:induction false} NamesBlank(s: string, c: char)
    requires IsSpace(c)
    ensures Names(s + [c]) == Names(s)
    decreases |s|
  {
    var all := s + [c];
    if s == [] {
      assert all == [c] && [c][1..] == [];
    } else if !IsWordChar(s[0]) {
      assert all[0] == s[0] && all[1..] == s[1..] + [c];
      NamesBlank(s[1..], c);
    } else {
      var w := WordRun(s);
      var n := Min(16, w);
      assert s == s[..w] + s[w..] && all == s[..w] + (s[w..] + [c]);
      WordRunOf(s[..w], s[w..] + [c]);
      assert all[..n] == s[..n] && all[n..] == s[n..] + [c];
      NamesBlank(s[n..], c);
    }
  }

  lemma {:induction false} ScanTrimRight(s: string)
    ensures Scan(TrimRight(s)) == Scan(s)
  {
    if s != [] && IsSpace(s[|s| - 1]) {
      var front, c := s[..|s| - 1], s[|s| - 1];
      assert s == front + [c];
      StripTagsBlank(front, c);
      PlainBlank(StripTags(front), c);
      NamesBlank(Plain(StripTags(front)), c);
      ScanTrimRight(front);
    }
  }

  lemma {:induction false} ScanTrimLeft(s: string)
    ensures Scan(TrimLeft(s)) == Scan(s)
  {
    if s != [] && IsSpace(s[0]) {
      assert s == [s[0]] + s[1..];
      ScanSkips(s[0], s[1..]);
      ScanTrimLeft(s[1..]);
    }
  }

  // ----- a whole line

  function Collapsed(t: Token, rest: string): string {
    match t
    case Name(text) => text + Collapse(rest)
    case Tag(inside) => "[" + Collapse(inside) + "]" + Collapse(rest)
    case Dot(glyph) => [glyph] + Collapse(rest)
    case Gap(c) => if c == ',' then "," + Collapse(rest)
                   else if rest != [] && IsSpace(rest[0]) then Collapse(rest)
                   else " " + Collapse(rest)
  }

  /** Collapsing acts token by token. */
  lemma CollapseToken(t: Token, rest: string)
    requires WellFormed(t)
    ensures Collapse(TokenText(t) + rest) == Collapsed(t, rest)
  {
    match t
    case Name(text) =>
      assert IsWordChar(text[|text| - 1]);
      forall i | 0 <= i < |text| ensures !IsSpace(text[i]) {
        assert text[i] in text;
      }
      CollapseAppend(text, rest);
      CollapseTidy(text);
    case Tag(inside) =>
      CollapseAppend("[" + inside + "]", rest);
      CollapseAppend("[" + inside, "]");
      CollapseAppend("[", inside);
      assert Collapse("[") == "[" && Collapse("]") == "]";
    case Dot(glyph) =>
      assert !IsSpace(glyph);
      assert ([glyph] + rest)[1..] == rest;
    case Gap(c) =>
      assert ([c] + rest)[1..] == rest;
      assert rest != [] ==> ([c] + rest)[1] == rest[0];
  }

  lemma SpaceAhead(s: string)
    requires s != [] && IsSpace(s[0])
    ensures NoNameAhead(Collapse(s))
  {
  }

  lemma {:induction false} ScanTokens(tokens: seq<Token>, mayName: bool)
    requires MemberLine(tokens, mayName)
    ensures Scan(Collapse(Text(tokens))) == NamesIn(tokens)
    ensures !mayName ==> NoNameAhead(Collapse(Text(tokens)))
  {
    if tokens != [] {
      var t, rest := tokens[0], Text(tokens[1..]);
      ScanTokens(tokens[1..], if t.Name? then false else t.Gap? || mayName);
      CollapseToken(t, rest);
      ScanToken(t, rest);
    }
  }

  lemma ScanToken(t: Token, rest: string)
    requires WellFormed(t) && (t.Name? ==> NoNameAhead(Collapse(rest)))
    ensures Scan(Collapse(TokenText(t) + rest)) == (if t.Name? then [t.text] else []) + Scan(Collapse(rest))
    ensures t.Tag? || t.Dot? ==> (NoNameAhead(Collapse(TokenText(t) + rest)) <==> NoNameAhead(Collapse(rest)))
    ensures t.Gap? ==> NoNameAhead(Collapse(TokenText(t) + rest))
  {
    CollapseToken(t, rest);
    var y := Collapse(rest);
    hide Collapse, StripTags, Plain, Names;
    match t
    case Name(text) =>
      ScanName(text, y);
    case Tag(inside) =>
      if ']' in Collapse(inside) {
        CollapseChars(inside, ']');
      }
      ScanTag(Collapse(inside), y);
    case Dot(glyph) =>
      ScanSkips(glyph, y);
    case Gap(c) =>
      if c == ',' {
        ScanSkips(',', y);
      } else if rest != [] && IsSpace(rest[0]) {
        SpaceAhead(rest);
      } else {
        ScanSkips(' ', y);
      }
  }

  lemma {:induction false} TextChars(tokens: seq<Token>, mayName: bool)
    requires MemberLine(tokens, mayName)
    ensures forall c :: c in Text(tokens) ==> c != ':' && c != '<' && c != '>' && c != SECTION_SIGN
  {
    if tokens != [] {
      TextChars(tokens[1..], if tokens[0].Name? then false else tokens[0].Gap? || mayName);
    }
  }

  lemma {:induction false} TrimLeftChars(s: string, c: char)
    requires c in TrimLeft(s)
    ensures c in s
  {
    if s != [] && IsSpace(s[0]) {
      TrimLeftChars(s[1..], c);
    }
  }

  /** Nothing in a printed member line makes it look like talk, a title, a divider or a header. */
  lemma CleanChars(tokens: seq<Token>)
    requires MemberLine(tokens, true)
    ensures forall c :: c in Clean(Text(tokens)) ==> c != ':' && c != '<' && c != '>'
  {
    TextChars(tokens, true);
    StripColorsNone(Text(tokens));
    var y := Collapse(Text(tokens));
    forall c | c in Trim(y) ensures c != ':' && c != '<' && c != '>' {
      assert c in TrimLeft(y);
      TrimLeftChars(y, c);
      CollapseChars(Text(tokens), c);
    }
  }

  lemma {:induction false} FirstVisible(tokens: seq<Token>, mayName: bool)
    requires MemberLine(tokens, mayName)
    ensures var y := TrimLeft(Collapse(Text(tokens))); y == [] || y[0] != '-'
  {
    if tokens != [] {
      var t, rest := tokens[0], Text(tokens[1..]);
      FirstVisible(tokens[1..], if t.Name? then false else t.Gap? || mayName);
      CollapseToken(t, rest);
      var y := Collapse(rest);
      hide Collapse;
      match t
      case Name(text) => assert (text + y)[0] == text[0] && IsWordChar(text[0]);
      case Tag(inside) => assert ("[" + Collapse(inside) + "]" + y)[0] == '[';
      case Dot(glyph) => assert ([glyph] + y)[0] == glyph;
      case Gap(c) => assert (" " + y)[1..] == y && ("," + y)[0] == ',';
    }
  }

  lemma CleanHead(tokens: seq<Token>)
    requires MemberLine(tokens, true)
    ensures Clean(Text(tokens)) == [] || Clean(Text(tokens))[0] != '-'
  {
    TextChars(tokens, true);
    StripColorsNone(Text(tokens));
    FirstVisible(tokens, true);
  }

  /** The names of a printed member line, in order, whatever decorates them. */
  lemma MembersRead(tokens: seq<Token>)
    requires MemberLine(tokens, true)
    ensures MembersOf(Clean(Text(tokens))) == NamesIn(tokens)
  {
    CleanChars(tokens);
    TextChars(tokens, true);
    StripColorsNone(Text(tokens));
    var y := Collapse(Text(tokens));
    ScanTokens(tokens, true);
    ScanTrimLeft(y);
    ScanTrimRight(TrimLeft(y));
  }
}
