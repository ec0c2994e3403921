/** Printed lines of a `/g online` reply, and what the recognisers read back from each
    (apps/bridge-bot/src/roster.ts:34-87, 106-148). */
module RosterLines {
  import opened Prelude
  import opened ChatText
  import opened RosterText

  predicate AllSpace(s: string) {
    forall c :: c in s ==> IsSpace(c)
  }

  /** White space occurs only as single blanks. */
  predicate Tidy(s: string) {
    forall i :: 0 <= i < |s| && IsSpace(s[i]) ==> s[i] == ' ' && (i + 1 < |s| ==> !IsSpace(s[i + 1]))
  }

  /** Not empty, and no white space at either end. */
  predicate Bare(s: string) {
    s != [] && !IsSpace(s[0]) && !IsSpace(s[|s| - 1])
  }

  // ----- collapsing

  lemma {:induction false} CollapseAppend(a: string, b: string)
    requires a == [] || b == [] || !IsSpace(a[|a| - 1]) || !IsSpace(b[0])
    ensures Collapse(a + b) == Collapse(a) + Collapse(b)
  {
    if a == [] {
      assert a + b == b;
    } else if b == [] {
      assert a + b == a;
    } else {
      assert (a + b)[0] == a[0] && (a + b)[1..] == a[1..] + b;
      CollapseAppend(a[1..], b);
      if |a| > 1 {
        assert (a + b)[1] == a[1];
      } else {
        assert (a + b)[1] == b[0];
      }
    }
  }

  lemma {:induction false} CollapseSpace(s: string)
    requires AllSpace(s)
    ensures Collapse(s) == if s == [] then [] else " "
  {
    if |s| > 1 {
      CollapseSpace(s[1..]);
    }
  }

  lemma {:induction false} CollapseTidy(s: string)
    requires Tidy(s)
    ensures Collapse(s) == s
  {
    if s != [] {
      assert Tidy(s[1..]) by {
        forall i | 0 <= i < |s[1..]| && IsSpace(s[1..][i])
          ensures s[1..][i] == ' ' && (i + 1 < |s[1..]| ==> !IsSpace(s[1..][i + 1]))
        {
          assert s[1..][i] == s[i + 1];
        }
      }
      CollapseTidy(s[1..]);
    }
  }

  lemma {:induction false} CollapseChars(s: string, c: char)
    requires c in Collapse(s)
    ensures c == ' ' || c in s
  {
    if s != [] && c in Collapse(s[1..]) {
      CollapseChars(s[1..], c);
    }
  }

  lemma {:induction false} CollapseHead(s: string)
    requires s != []
    ensures Collapse(s) != [] && Collapse(s)[0] == if IsSpace(s[0]) then ' ' else s[0]
  {
    if |s| > 1 && IsSpace(s[0]) && IsSpace(s[1]) {
      CollapseHead(s[1..]);
    }
  }

  lemma {:induction false} CollapseBare(s: string)
    requires Bare(s)
    ensures Bare(Collapse(s)) && Collapse(s)[0] == s[0]
  {
    CollapseHead(s);
    var n := |s| - 1;
    assert s == s[..n] + [s[n]];
    CollapseAppend(s[..n], [s[n]]);
    assert Collapse([s[n]]) == [s[n]];
  }

  lemma {:induction false} StripColorsNone(s: string)
    requires SECTION_SIGN !in s
    ensures StripColors(s) == s
  {
    if s != [] {
      StripColorsNone(s[1..]);
    }
  }

  lemma {:induction false} StripColorsAppend(a: string, b: string)
    requires SECTION_SIGN !in a
    ensures StripColors(a + b) == a + StripColors(b)
  {
    if a == [] {
      assert a + b == b;
    } else {
      assert (a + b)[0] == a[0] && (a + b)[1..] == a[1..] + b;
      StripColorsAppend(a[1..], b);
    }
  }

  lemma TrimBare(left: string, s: string, right: string)
    requires AllSpace(left) && AllSpace(right) && Bare(s)
    ensures Trim(left + s + right) == s
  {
    TrimLeftOf(left, s + right);
    assert left + s + right == left + (s + right);
    TrimRightAppend(s, right);
    TrimRightSpace(right);
    assert s + [] == s;
  }

  lemma {:induction false} TrimLeftOf(left: string, s: string)
    requires AllSpace(left) && s != [] && !IsSpace(s[0])
    ensures TrimLeft(left + s) == s
  {
    if left == [] {
      assert left + s == s;
    } else {
      assert (left + s)[0] == left[0] && (left + s)[1..] == left[1..] + s;
      TrimLeftOf(left[1..], s);
    }
  }

  lemma {:induction false} TrimRightSpace(s: string)
    requires AllSpace(s)
    ensures TrimRight(s) == []
  {
  }

  lemma CollapsePadded(left: string, x: string, right: string)
    requires Bare(x)
    ensures Collapse(left + x + right) == Collapse(left) + Collapse(x) + Collapse(right)
  {
    hide Collapse;
    assert left + x + right == left + (x + right);
    CollapseAppend(left, x + right);
    CollapseAppend(x, right);
  }

  /** Padding is invisible: a bare text keeps only its collapsed self. */
  lemma CleanPadded(left: string, x: string, right: string)
    requires AllSpace(left) && AllSpace(right) && Bare(x) && SECTION_SIGN !in x
    ensures Clean(left + x + right) == Collapse(x)
  {
    assert SECTION_SIGN !in left + x + right;
    StripColorsNone(left + x + right);
    hide Collapse, Trim, StripColors;
    CollapsePadded(left, x, right);
    CollapseSpace(left);
    CollapseSpace(right);
    CollapseBare(x);
    TrimBare(Collapse(left), Collapse(x), Collapse(right));
  }

  lemma CleanSpace(s: string)
    requires AllSpace(s)
    ensures Clean(s) == []
  {
    assert SECTION_SIGN !in s;
    StripColorsNone(s);
    CollapseSpace(s);
    assert TrimLeft(" ") == TrimLeft(" "[1..]) == [];
  }

  // ----- decimal numbers

  function Decimal(n: nat): (r: string)
    ensures r != [] && forall c :: c in r ==> IsDigit(c)
  {
    var digit := '0' + (n % 10) as char;
    if n < 10 then [digit] else Decimal(n / 10) + [digit]
  }

  lemma {:induction false} DecimalRoundTrip(n: nat)
    ensures DigitsValue(Decimal(n)) == n
  {
    var d := Decimal(n);
    assert IsDigit(d[|d| - 1]);
    if n >= 10 {
      DecimalRoundTrip(n / 10);
      assert d[..|d| - 1] == Decimal(n / 10);
    } else {
      assert d[..|d| - 1] == [];
    }
  }

  lemma {:induction false} DigitRunAll(s: string)
    requires forall c :: c in s ==> IsDigit(c)
    ensures DigitRun(s) == |s|
  {
  }

  // ----- titles: the guild name and the two counts

  /** Some casing of a title. */
  predicate Cases(text: string, title: Title) {
    |text| == |TitleText(title)| && Lower(text) == TitleText(title)
  }

  lemma TitleTexts(title: Title, i: nat)
    requires i < |TitleText(title)|
    ensures var c := TitleText(title)[i]; 'a' <= c <= 'z' || c == ':' || c == ' '
    ensures TitleText(title)[i] == ' ' ==> 0 < i < |TitleText(title)| - 1 && TitleText(title)[i + 1] != ' '
  {
  }

  lemma TitleShape(title: Title)
    ensures var t := TitleText(title);
            Tidy(t) && Bare(t) && SECTION_SIGN !in t && t[0] != '-' && t[|t| - 1] == ':'
  {
    var t := TitleText(title);
    assert t != [] && t[|t| - 1] == ':';
    hide TitleText;
    forall i | 0 <= i < |t|
      ensures t[i] != SECTION_SIGN && t[i] != '-'
      ensures IsSpace(t[i]) ==> t[i] == ' ' && 0 < i < |t| - 1 && !IsSpace(t[i + 1])
    {
      TitleTexts(title, i);
      if i < |t| - 1 {
        TitleTexts(title, i + 1);
      }
    }
  }

  lemma CasesShape(text: string, t: string)
    requires |text| == |t| && Lower(text) == t && Tidy(t) && Bare(t) && SECTION_SIGN !in t
    ensures Tidy(text) && Bare(text) && SECTION_SIGN !in text
    ensures t[0] != '-' ==> text[0] != '-'
    ensures t[|t| - 1] == ':' ==> text[|text| - 1] == ':'
  {
  }

  lemma TitleTidy(text: string, title: Title)
    requires Cases(text, title)
    ensures Tidy(text) && Bare(text) && SECTION_SIGN !in text && text[0] != '-' && text[|text| - 1] == ':'
  {
    TitleShape(title);
    hide TitleText, Tidy;
    CasesShape(text, TitleText(title));
  }

  /** A title, any gap, and a text: the cleaned line is the title, at most a blank, and the text. */
  lemma CleanTitled(left: string, text: string, gap: string, x: string, right: string, title: Title)
    requires AllSpace(left) && AllSpace(gap) && AllSpace(right)
    requires Cases(text, title) && Bare(x) && Tidy(x) && SECTION_SIGN !in x
    ensures Clean(left + (text + gap + x) + right) == text + Collapse(gap) + x
  {
    TitleTidy(text, title);
    var all := text + gap + x;
    assert SECTION_SIGN !in all && Bare(all);
    assert !IsSpace(text[|text| - 1]) && !IsSpace(x[0]);
    hide Clean, Collapse, Tidy, Bare, Cases;
    CleanPadded(left, all, right);
    CollapseAppend(text + gap, x);
    CollapseAppend(text, gap);
    CollapseTidy(text);
    CollapseTidy(x);
  }

  lemma LabelledBy(text: string, rest: string, title: Title, other: Title)
    requires Cases(text, title)
    ensures Labelled(other, text + rest) <==> other == title
  {
    var line := text + rest;
    assert line[..|TitleText(title)|] == text;
    if other != title {
      assert LowerChar(line[0]) == Lower(text)[0] == TitleText(title)[0] != TitleText(other)[0];
      assert |line| >= |TitleText(other)| ==> Lower(line[..|TitleText(other)|])[0] == LowerChar(line[0]);
    }
  }

  lemma GuildNameRead(text: string, sep: string, name: string)
    requires Cases(text, GuildName) && AllSpace(sep) && Bare(name)
    ensures GuildNameOf(text + sep + name) == Some(name)
  {
    var line := text + sep + name;
    assert line == text + (sep + name);
    LabelledBy(text, sep + name, GuildName, GuildName);
    hide TitleText, Labelled, Trim, Bare;
    assert line[|TitleText(GuildName)|..] == sep + name;
    TrimBare(sep, name, []);
    assert sep + name + [] == sep + name;
  }

  lemma CountRead(text: string, sep: string, n: nat, title: Title)
    requires Cases(text, title) && AllSpace(sep)
    ensures CountOf(title, text + sep + Decimal(n)) == Some(n)
  {
    var d := Decimal(n);
    var line := text + sep + d;
    assert line == text + (sep + d);
    LabelledBy(text, sep + d, title, title);
    hide TitleText, Labelled, DigitRun, Decimal;
    assert line[|TitleText(title)|..] == sep + d;
    assert d[0] in d;
    TrimLeftOf(sep, d);
    DigitRunAll(d);
    assert d[..|d|] == d;
    DecimalRoundTrip(n);
  }

  lemma DecimalBare(n: nat)
    ensures Bare(Decimal(n)) && Tidy(Decimal(n)) && SECTION_SIGN !in Decimal(n)
  {
    var d := Decimal(n);
    assert forall i :: 0 <= i < |d| ==> d[i] in d && IsDigit(d[i]);
  }

  // ----- titles without a value, and chat

  /** A title with nothing behind it says nothing: it is no name, no count and no header, and names nobody. */
  lemma NothingTitled(text: string, title: Title, other: Title)
    requires Cases(text, title)
    ensures CountOf(other, text) == None && GuildNameOf(text) == None
  {
    assert text == text + "";
    LabelledBy(text, "", title, other);
    LabelledBy(text, "", title, GuildName);
  }

  predicate IsChannel(channel: string) {
    channel != [] && forall c :: c in channel ==> IsWordChar(c)
  }

  /** A word and an angle bracket open no title. */
  lemma ChatIsNotTitled(channel: string, line: string, title: Title)
    requires IsChannel(channel) && channel + " >" <= line
    ensures !Labelled(title, line)
  {
    var n, t := |channel|, TitleText(title);
    assert line[n] == ' ' && line[n + 1] == '>';
    assert forall i :: 0 <= i < n ==> line[i] in channel;
    assert forall i :: 0 <= i <= n ==> line[i] != ':';
    TitleShape(title);
    if n + 1 < |t| {
      TitleTexts(title, n + 1);
      assert |line| >= |t| ==> Lower(line[..|t|])[n + 1] == '>';
    } else {
      assert Lower(line[..|t|])[|t| - 1] != ':';
    }
  }

  /** Neither colours nor white space touch the front of a chat line. */
  lemma ChatHead(channel: string, said: string)
    requires IsChannel(channel)
    ensures channel + " >" <= Clean(channel + " > " + said)
    ensures channel + " >" <= Trim(StripColors(channel + " > " + said))
  {
    var head := channel + " >";
    assert head[0] == channel[0] && head[|head| - 1] == '>' && channel[0] in channel;
    assert Tidy(head) && SECTION_SIGN !in head by {
      assert forall i :: 0 <= i < |channel| ==> head[i] in channel;
    }
    var rest := StripColors(" " + said);
    assert channel + " > " + said == head + (" " + said);
    StripColorsAppend(head, " " + said);
    TrimRightAppend(head, rest);
    assert TrimLeft(head + rest) == head + rest;
    CollapseAppend(head, rest);
    CollapseTidy(head);
    TrimRightAppend(head, Collapse(rest));
    assert TrimLeft(head + Collapse(rest)) == head + Collapse(rest);
  }

  // ----- dividers and rank headers

  function Dashes(n: nat): (r: string)
    ensures |r| == n && forall c :: c in r ==> c == '-'
  {
    seq(n, i => '-')
  }

  lemma DashesTidy(n: nat)
    ensures Collapse(Dashes(n)) == Dashes(n)
  {
    CollapseTidy(Dashes(n));
  }

  /** A rank name as Hypixel prints it. */
  predicate IsRankName(s: string) {
    Bare(s) && Tidy(s) && SECTION_SIGN !in s && s[0] != '-' && s[|s| - 1] != '-'
  }

  lemma DashesBeforeIs(n: nat, rest: string)
    requires rest == [] || rest[0] != '-'
    ensures DashesBefore(Dashes(n) + rest) == n
  {
    var line := Dashes(n) + rest;
    assert forall i :: 0 <= i < n ==> line[i] == Dashes(n)[i];
    assert rest != [] ==> line[n] == rest[0];
  }

  lemma DashesAfterIs(front: string, n: nat)
    requires front == [] || front[|front| - 1] != '-'
    ensures DashesAfter(front + Dashes(n)) == n
  {
    var line := front + Dashes(n);
    assert forall i :: |front| <= i < |line| ==> line[i] == Dashes(n)[i - |front|];
    assert front != [] ==> line[|line| - 1 - n] == front[|front| - 1];
  }

  lemma MidShape(g1: string, rank: string, g2: string)
    requires AllSpace(g1) && AllSpace(g2) && IsRankName(rank)
    ensures var mid := g1 + rank + g2; mid != [] && mid[0] != '-' && mid[|mid| - 1] != '-' && Bare(rank)
  {
    assert g1 != [] ==> g1[0] in g1;
    assert g2 != [] ==> g2[|g2| - 1] in g2;
  }

  lemma NoDivider(before: string, mid: string, after: string)
    requires mid != [] && mid[0] != '-'
    ensures !IsDivider(before + mid + after)
  {
    var line := before + mid + after;
    assert line[|before|] == mid[0] && line[|before|] in line;
  }

  lemma HeaderRead(a: nat, g1: string, rank: string, g2: string, b: nat)
    requires a >= 2 && b >= 2 && AllSpace(g1) && AllSpace(g2) && IsRankName(rank)
    ensures var line := Dashes(a) + (g1 + rank + g2) + Dashes(b);
            RankHeaderOf(line) == Some(rank) && !IsDivider(line)
  {
    hide Trim, IsRankName, Bare, IsDivider, AllSpace, Dashes;
    var mid := g1 + rank + g2;
    var line := Dashes(a) + mid + Dashes(b);
    MidShape(g1, rank, g2);
    NoDivider(Dashes(a), mid, Dashes(b));
    assert line == Dashes(a) + (mid + Dashes(b));
    DashesBeforeIs(a, mid + Dashes(b));
    DashesAfterIs(Dashes(a) + mid, b);
    assert line[a..|line| - b] == mid;
    TrimBare(g1, rank, g2);
  }

  /** Two runs of dashes with one blank between them are a header too, of a rank without a name, or named by a dash
      when the second run can spare one. */
  lemma HeaderOfDashes(a: nat, b: nat)
    requires a >= 2 && b >= 2
    ensures RankHeaderOf(Dashes(a) + " " + Dashes(b)) == Some(if b == 2 then "" else "-")
  {
    hide DashesBefore, DashesAfter, Dashes;
    var line := Dashes(a) + " " + Dashes(b);
    assert line == Dashes(a) + (" " + Dashes(b));
    DashesBeforeIs(a, " " + Dashes(b));
    DashesAfterIs(Dashes(a) + " ", b);
    assert line[a..|line| - b] == " ";
    assert Trim(" ") == "" by {
      assert TrimLeft(" ") == "";
    }
  }

  lemma CleanHeader(left: string, a: nat, g1: string, rank: string, g2: string, b: nat, right: string)
    requires AllSpace(left) && AllSpace(right) && AllSpace(g1) && AllSpace(g2)
    requires a >= 2 && b >= 2 && IsRankName(rank)
    ensures Clean(left + (Dashes(a) + (g1 + rank + g2) + Dashes(b)) + right)
         == Dashes(a) + (Collapse(g1) + rank + Collapse(g2)) + Dashes(b)
  {
    var mid := g1 + rank + g2;
    var all := Dashes(a) + mid + Dashes(b);
    assert all[0] == Dashes(a)[0] && all[|all| - 1] == Dashes(b)[b - 1];
    assert SECTION_SIGN !in all && Bare(all);
    CleanPadded(left, all, right);
    CollapseAppend(Dashes(a) + mid, Dashes(b));
    CollapseAppend(Dashes(a), mid);
    CollapseAppend(g1 + rank, g2);
    CollapseAppend(g1, rank);
    CollapseTidy(rank);
    DashesTidy(a);
    DashesTidy(b);
  }
}
