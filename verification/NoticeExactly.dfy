/** What a line must look like to be read as a moderation notice, and who it then names
    (apps/bridge-bot/src/mod-notice.ts:43-62, 72-133). */
module NoticeExactly {
  import opened Prelude
  import opened ChatText
  import opened ModNotice
  import L = RosterLines

  // ----- a member as a notice writes it

  /** White space, or a rank tag and white space. */
  ghost predicate Front(s: string) {
    L.AllSpace(s) || exists c :: TagEnds(s, c)
  }

  predicate TagEnds(s: string, c: int) {
    2 <= c < |s| && s[0] == '[' && s[c] == ']' && ']' !in s[..c] && L.AllSpace(s[c + 1..])
  }

  ghost predicate SaysAt(text: string, name: string, i: int) {
    0 <= i <= i + |name| <= |text| && text[i..i + |name|] == name && L.AllSpace(text[i + |name|..]) && Front(text[..i])
  }

  /** The text is this name, padded at will and with at most one rank tag before it. */
  ghost predicate Says(text: string, name: string) {
    exists i :: SaysAt(text, name, i)
  }

  lemma {:induction false} TrimLeftTakes(s: string)
    ensures var k := |s| - |TrimLeft(s)|; 0 <= k && TrimLeft(s) == s[k..] && L.AllSpace(s[..k])
  {
    hide IsSpace;
    if s != [] && IsSpace(s[0]) {
      TrimLeftTakes(s[1..]);
      var k := |s| - |TrimLeft(s)|;
      assert s[1..][k - 1..] == s[k..] && s[..k] == [s[0]] + s[1..][..k - 1];
    }
  }

  lemma TrimTakes(s: string)
    ensures var k := |s| - |TrimLeft(s)|;
            && 0 <= k <= k + |Trim(s)| <= |s| && s[k..k + |Trim(s)|] == Trim(s)
            && L.AllSpace(s[..k]) && L.AllSpace(s[k + |Trim(s)|..])
  {
    hide IsSpace, TrimLeft, TrimRight;
    TrimLeftTakes(s);
    var k, t := |s| - |TrimLeft(s)|, Trim(s);
    assert t <= s[k..];
    forall c | c in s[k + |t|..] ensures IsSpace(c) {
      var i :| 0 <= i < |s[k + |t|..]| && s[k + |t|..][i] == c;
      assert s[k..][|t| + i] == c;
    }
  }

  lemma NameEnds(name: string)
    requires IsName(name)
    ensures L.Bare(name) && '[' !in name && ']' !in name
  {
    assert name[0] in name && name[|name| - 1] in name;
  }

  /** The tag that a text opens with, if any: where it ends. */
  predicate TagAt(text: string, c: int) {
    2 <= c < |text| && text[0] == '[' && text[c] == ']' && ']' !in text[..c]
  }

  lemma TagFound(text: string, c: int)
    ensures TagAt(text, c) <==> text != [] && text[0] == '[' && c >= 2 && Find(text, "]", 0) == Some(c)
  {
    if TagAt(text, c) {
      assert OccursAt(text, "]", c);
      assert forall j :: 0 <= j < c ==> text[j] in text[..c];
    } else if c >= 2 && Find(text, "]", 0) == Some(c) {
      forall j | 0 <= j < c ensures text[j] != ']' {
        assert !OccursAt(text, "]", j);
        assert text[j..j + 1] == [text[j]];
      }
    }
  }

  /** Where the name of a tagged text starts. */
  lemma TaggedIsSaid(text: string, c: int, name: string)
    requires TagAt(text, c) && Trim(text[c + 1..]) == name
    ensures Says(text, name)
  {
    hide Trim, TrimLeft;
    var rest := text[c + 1..];
    TrimTakes(rest);
    var k := |rest| - |TrimLeft(rest)|;
    var i := c + 1 + k;
    assert text[i..i + |name|] == rest[k..k + |name|] && text[i + |name|..] == rest[k + |name|..];
    assert text[..i][c + 1..] == rest[..k] && text[..i][..c] == text[..c];
    if i == c + 1 {
      assert text[..i][c + 1..] == [];
    }
    assert TagEnds(text[..i], c);
    assert SaysAt(text, name, i);
  }

  lemma BareNameIsSaid(text: string)
    requires IsName(BareName(text))
    ensures Says(text, BareName(text))
  {
    hide Trim, TrimLeft, IsName, Says, TagAt;
    var close := Find(text, "]", 0);
    if text != [] && text[0] == '[' && close.Some? && close.value >= 2 {
      TagFound(text, close.value);
      NoSecondTrim(text[close.value + 1..]);
      TaggedIsSaid(text, close.value, BareName(text));
    } else {
      TrimTakes(text);
      PlainIsSaid(text, |text| - |TrimLeft(text)|);
    }
  }

  lemma PlainIsSaid(text: string, k: int)
    requires 0 <= k <= k + |Trim(text)| <= |text| && text[k..k + |Trim(text)|] == Trim(text)
    requires L.AllSpace(text[..k]) && L.AllSpace(text[k + |Trim(text)|..])
    ensures Says(text, Trim(text))
  {
    hide Trim;
    assert SaysAt(text, Trim(text), k);
  }

  lemma {:induction false} NoSecondTrim(s: string)
    ensures TrimLeft(TrimLeft(s)) == TrimLeft(s) && Trim(TrimLeft(s)) == Trim(s)
  {
    if s != [] && IsSpace(s[0]) {
      NoSecondTrim(s[1..]);
    }
  }

  lemma PlainIsRead(left: string, name: string, right: string)
    requires IsName(name) && L.AllSpace(left) && L.AllSpace(right)
    ensures BareName(left + name + right) == name
  {
    hide Trim, IsName;
    NameEnds(name);
    L.TrimBare(left, name, right);
    var text := left + name + right;
    assert text[0] == (if left == [] then name[0] else left[0]);
    assert left != [] ==> left[0] in left;
  }

  lemma TaggedIsRead(left: string, name: string, right: string, c: int)
    requires IsName(name) && TagEnds(left, c) && L.AllSpace(right)
    ensures BareName(left + name + right) == name
  {
    hide Trim, TrimLeft, IsName;
    NameEnds(name);
    var text := left + name + right;
    assert text[..c] == left[..c];
    TagFound(text, c);
    NoSecondTrim(text[c + 1..]);
    assert text[c + 1..] == left[c + 1..] + name + right;
    L.TrimBare(left[c + 1..], name, right);
  }

  lemma SaidIsBareName(text: string, name: string, i: int)
    requires IsName(name) && SaysAt(text, name, i)
    ensures BareName(text) == name
  {
    hide BareName, IsName, TagEnds;
    var left, right := text[..i], text[i + |name|..];
    assert text == left + name + right;
    if L.AllSpace(left) {
      PlainIsRead(left, name, right);
    } else {
      var c :| TagEnds(left, c);
      TaggedIsRead(left, name, right, c);
    }
  }

  /** A name is read off a text exactly when the text says it. */
  lemma BareNameExactly(text: string, name: string)
    requires IsName(name)
    ensures BareName(text) == name <==> Says(text, name)
  {
    hide BareName, SaysAt, IsName;
    if BareName(text) == name {
      BareNameIsSaid(text);
    }
    if Says(text, name) {
      var i :| SaysAt(text, name, i);
      SaidIsBareName(text, name, i);
    }
  }

  // ----- how long a mute is

  lemma WrittenLength(n: nat, unit: char)
    requires unit in "smhd"
    ensures var s := L.Decimal(n) + [unit];
            IsDuration(s) && Trim(s) == s && s[..|s| - 1] == L.Decimal(n) && s[|s| - 1] == unit
  {
    var d := L.Decimal(n);
    var s := d + [unit];
    assert forall i :: 0 <= i < |d| ==> s[i] == d[i] && d[i] in d;
    assert IsDigit(s[0]);
    assert TrimLeft(s) == s && TrimRight(s) == s;
  }

  /** "30d" is thirty days: a whole number and one of four units, in seconds; zero says nothing. */
  lemma LengthsRead(n: nat)
    ensures NoticeDuration(L.Decimal(n) + "s") == (if n == 0 then None else Some(n))
    ensures NoticeDuration(L.Decimal(n) + "m") == (if n == 0 then None else Some(60 * n))
    ensures NoticeDuration(L.Decimal(n) + "h") == (if n == 0 then None else Some(3_600 * n))
    ensures NoticeDuration(L.Decimal(n) + "d") == (if n == 0 then None else Some(86_400 * n))
  {
    hide NoticeDuration;
    OneLength(n, 's', 1);
    OneLength(n, 'm', 60);
    OneLength(n, 'h', 3_600);
    OneLength(n, 'd', 86_400);
    assert ['s'] == "s" && ['m'] == "m" && ['h'] == "h" && ['d'] == "d";
  }

  lemma OneLength(n: nat, unit: char, seconds: nat)
    requires unit in "smhd" && UnitSeconds(unit) == seconds
    ensures NoticeDuration(L.Decimal(n) + [unit]) == (if n == 0 then None else Some(seconds * n))
  {
    hide IsDuration, Trim, L.Decimal, DigitsValue, UnitSeconds;
    L.DecimalRoundTrip(n);
    WrittenLength(n, unit);
  }

  // ----- kicks

  /** One token, or two with one blank between them. */
  predicate Tokens(s: string) {
    && s != [] && !IsSpace(s[0]) && !IsSpace(s[|s| - 1])
    && (forall i :: 0 <= i < |s| && IsSpace(s[i]) ==> s[i] == ' ')
    && (forall i, j :: 0 <= i < j < |s| && IsSpace(s[i]) ==> !IsSpace(s[j]))
  }

  /** A kick line is split exactly where its marker stands behind one or two tokens. */
  lemma KickSubjectExactly(text: string, marker: string, ends: string -> bool, who: string, rest: string)
    requires " was kicked" <= marker && (text == "" || !IsSpace(text[0]))
    ensures KickSubject(text, marker, ends) == Some((who, rest)) <==>
            text == who + marker + rest && ends(rest) && Tokens(who)
  {
    if text == who + marker + rest && ends(rest) && Tokens(who) {
      TokensStand(who, marker + rest);
      assert text == who + (marker + rest) && text[..|who|] == who;
      KickSubjectAt(text, |who|, marker, rest, ends);
    }
    if KickSubject(text, marker, ends) == Some((who, rest)) {
      KickSubjectSound(text, marker, ends);
    }
  }

  lemma TokensStand(who: string, after: string)
    requires Tokens(who) && after != [] && after[0] == ' '
    ensures var text, n := who + after, |who|;
            var e1 := TokenEnd(text, 0); e1 == n || (e1 < n - 1 && text[e1] == ' ' && TokenEnd(text, e1 + 1) == n)
  {
    var text, n := who + after, |who|;
    assert text[n] == ' ' && forall i :: 0 <= i < n ==> text[i] == who[i];
    if k :| 0 <= k < n && IsSpace(who[k]) {
      TokenEndIs(text, 0, k);
      TokenEndIs(text, k + 1, n);
    } else {
      TokenEndIs(text, 0, n);
    }
  }

  lemma FitsCut(text: string, e: int, marker: string, ends: string -> bool)
    requires Fits(text, e, marker, ends)
    ensures 0 < e <= |text| && |marker| <= |text[e..]| && ends(text[e..][|marker|..])
    ensures text == text[..e] + marker + text[e..][|marker|..]
  {
    assert text[e..] == marker + text[e..][|marker|..];
  }

  lemma TokensCut(text: string, e: nat, n: nat)
    requires 0 < e <= n <= |text| && (e == n || (text[e] == ' ' && e + 1 < n))
    requires forall i :: 0 <= i < n && i != e ==> !IsSpace(text[i])
    ensures Tokens(text[..n])
  {
    hide IsSpace;
    var s := text[..n];
    assert forall i :: 0 <= i < n ==> s[i] == text[i];
  }

  lemma KickSubjectSound(text: string, marker: string, ends: string -> bool)
    requires KickSubject(text, marker, ends).Some? && marker != [] && !IsSpace(text[0])
    ensures var (who, rest) := KickSubject(text, marker, ends).value;
            text == who + marker + rest && ends(rest) && Tokens(who)
  {
    hide TokenEnd, IsSpace, Fits, Tokens;
    var e1 := TokenEnd(text, 0);
    var e2 := if e1 < |text| && text[e1] == ' ' then TokenEnd(text, e1 + 1) else e1;
    if e2 > e1 + 1 && Fits(text, e2, marker, ends) {
      FitsCut(text, e2, marker, ends);
      TokensCut(text, e1, e2);
    } else {
      FitsCut(text, e1, marker, ends);
      TokensCut(text, e1, e1);
    }
  }

  // ----- who is named

  /** The target is a name and the text says it. */
  ghost predicate Names(text: string, target: string) {
    IsName(target) && Says(text, target)
  }

  /** The one who acted, and nobody only when the text says no name. */
  ghost predicate Acted(text: string, actor: Option<string>) {
    if actor.Some? then Names(text, actor.value) else forall name :: IsName(name) ==> !Says(text, name)
  }

  lemma ActorExactly(raw: string, actor: Option<string>)
    ensures ActorOf(raw) == actor <==> Acted(raw, actor)
  {
    hide BareName, IsName, Says;
    if IsName(BareName(raw)) {
      BareNameExactly(raw, BareName(raw));
    }
    forall name | IsName(name) ensures BareName(raw) == name <==> Says(raw, name) {
      BareNameExactly(raw, name);
    }
  }

  lemma NamedExactly(kind: Kind, raw: string, actor: Option<string>, duration: Option<nat>, n: Notice)
    ensures Named(kind, raw, actor, duration) == Some(n) <==>
            n == Notice(kind, n.target, actor, duration) && Names(raw, n.target)
  {
    hide BareName, IsName, Says;
    if IsName(BareName(raw)) {
      BareNameExactly(raw, BareName(raw));
    }
    if IsName(n.target) {
      BareNameExactly(raw, n.target);
    }
  }

  // ----- the four forms

  ghost predicate KickedBy(text: string, n: Notice, who: string, doer: string, bang: string) {
    && text == who + " was kicked from the guild by " + doer + bang
    && doer != "" && OneLine(doer) && (bang == "!" || (bang == "" && (|doer| == 1 || doer[|doer| - 1] != '!')))
    && Tokens(who) && n == Notice(KICK, n.target, n.actor, None) && Names(who, n.target) && Acted(doer, n.actor)
  }

  ghost predicate Kicked(text: string, n: Notice, who: string, bang: string) {
    && text == who + " was kicked from the guild" + bang && (bang == "!" || bang == "")
    && Tokens(who) && n == Notice(KICK, n.target, None, None) && Names(who, n.target)
  }

  ghost predicate Muted(text: string, n: Notice, who: string, whom: string, length: string) {
    var said := who + " has muted " + whom;
    && text == said + " for " + length && IsDuration(length) && who != "" && whom != "" && OneLine(said)
    && (forall i :: 1 <= i < |who| ==> !OccursAt(said, " has muted ", i))
    && n == Notice(MUTE, n.target, n.actor, NoticeDuration(length)) && Names(whom, n.target) && Acted(who, n.actor)
  }

  ghost predicate Unmuted(text: string, n: Notice, who: string, whom: string) {
    && text == who + " has unmuted " + whom && who != "" && whom != "" && OneLine(text)
    && (forall i :: 1 <= i < |who| ==> !OccursAt(text, " has unmuted ", i))
    && n == Notice(UNMUTE, n.target, n.actor, None) && Names(whom, n.target) && Acted(who, n.actor)
  }

  lemma KickByExactly(text: string, n: Notice)
    requires text == "" || !IsSpace(text[0])
    ensures KickBy(text) == Some(n) <==> exists who, doer, bang :: KickedBy(text, n, who, doer, bang)
  {
    hide KickSubject, Named, ActorOf, Names, Acted, Tokens;
    var ends := rest => rest != [] && OneLine(rest);
    var m := KickSubject(text, KICKED_BY, ends);
    if KickBy(text) == Some(n) {
      var (who, rest) := m.value;
      KickSubjectExactly(text, KICKED_BY, ends, who, rest);
      var doer := WithoutBang(rest);
      var bang := rest[|doer|..];
      assert rest == doer + bang && text == who + KICKED_BY + doer + bang;
      NamedExactly(KICK, who, ActorOf(doer), None, n);
      ActorExactly(doer, ActorOf(doer));
      assert KickedBy(text, n, who, doer, bang);
    }
    if who, doer, bang :| KickedBy(text, n, who, doer, bang) {
      KickedByIsRead(text, n, who, doer, bang);
    }
  }

  lemma KickedByIsRead(text: string, n: Notice, who: string, doer: string, bang: string)
    requires KickedBy(text, n, who, doer, bang) && !IsSpace(text[0])
    ensures KickBy(text) == Some(n)
  {
    hide KickSubject, Named, ActorOf, Names, Acted, Tokens;
    var rest := doer + bang;
    assert text == who + KICKED_BY + rest;
    assert WithoutBang(rest) == doer;
    KickSubjectExactly(text, KICKED_BY, rest => rest != [] && OneLine(rest), who, rest);
    ActorExactly(doer, n.actor);
    NamedExactly(KICK, who, n.actor, None, n);
  }

  lemma KickPassiveExactly(text: string, n: Notice)
    requires text == "" || !IsSpace(text[0])
    ensures KickPassive(text) == Some(n) <==> exists who, bang :: Kicked(text, n, who, bang)
  {
    hide KickSubject, Named, Names, Tokens;
    var ends := rest => rest == "" || rest == "!";
    var m := KickSubject(text, KICKED, ends);
    if KickPassive(text) == Some(n) {
      var (who, bang) := m.value;
      KickSubjectExactly(text, KICKED, ends, who, bang);
      NamedExactly(KICK, who, None, None, n);
      assert Kicked(text, n, who, bang);
    }
    if who, bang :| Kicked(text, n, who, bang) {
      KickSubjectExactly(text, KICKED, ends, who, bang);
      NamedExactly(KICK, who, None, None, n);
    }
  }

  /** The first marker from the second character on splits the text. */
  lemma FirstMarker(text: string, marker: string, who: string, whom: string)
    requires text == who + marker + whom && who != "" && marker != ""
    requires forall i :: 1 <= i < |who| ==> !OccursAt(text, marker, i)
    ensures Find(text, marker, 1) == Some(|who|)
  {
    assert text[|who|..|who| + |marker|] == marker;
    assert OccursAt(text, marker, |who|);
  }

  lemma UnmuteExactly(text: string, n: Notice)
    ensures Unmute(text) == Some(n) <==> exists who, whom :: Unmuted(text, n, who, whom)
  {
    hide Named, ActorOf, Names, Acted, Find;
    if Unmute(text) == Some(n) {
      var i := Find(text, HAS_UNMUTED, 1).value;
      var who, whom := text[..i], text[i + |HAS_UNMUTED|..];
      assert text == who + HAS_UNMUTED + whom;
      NamedExactly(UNMUTE, whom, ActorOf(who), None, n);
      ActorExactly(who, ActorOf(who));
      assert Unmuted(text, n, who, whom);
    }
    if who, whom :| Unmuted(text, n, who, whom) {
      FirstMarker(text, HAS_UNMUTED, who, whom);
      assert text[..|who|] == who && text[|who| + |HAS_UNMUTED|..] == whom;
      ActorExactly(who, n.actor);
      NamedExactly(UNMUTE, whom, n.actor, None, n);
    }
  }

  lemma NoBlankInLength(length: string)
    requires IsDuration(length)
    ensures ' ' !in length
  {
  }

  lemma LengthStandsLast(said: string, length: string)
    requires IsDuration(length)
    ensures SplitFor(said + " for " + length) == Some((said, length))
  {
    NoBlankInLength(length);
    hide IsDuration;
    var text, p := said + " for " + length, |said| + 4;
    assert text[p] == ' ' && text[p + 1..] == length;
    assert forall i :: p < i < |text| ==> text[i] == length[i - p - 1] && text[i] != ' ';
    assert LastBlank(text) == p;
    assert text[p - 4..p + 1] == " for " && text[..p - 4] == said;
  }

  lemma SplitForExactly(text: string, said: string, length: string)
    ensures SplitFor(text) == Some((said, length)) <==> text == said + " for " + length && IsDuration(length)
  {
    hide IsDuration;
    if SplitFor(text) == Some((said, length)) {
      var p := LastBlank(text);
      assert text == text[..p - 4] + text[p - 4..p + 1] + text[p + 1..];
    } else if text == said + " for " + length && IsDuration(length) {
      LengthStandsLast(said, length);
    }
  }

  lemma MuteExactly(text: string, n: Notice)
    ensures Mute(text) == Some(n) <==> exists who, whom, length :: Muted(text, n, who, whom, length)
  {
    hide Named, ActorOf, Names, Acted, Find, SplitFor, IsDuration, NoticeDuration;
    if Mute(text) == Some(n) {
      var (said, length) := SplitFor(text).value;
      SplitForExactly(text, said, length);
      var i := Find(said, HAS_MUTED, 1).value;
      var who, whom := said[..i], said[i + |HAS_MUTED|..];
      assert said == who + HAS_MUTED + whom;
      NamedExactly(MUTE, whom, ActorOf(who), NoticeDuration(length), n);
      ActorExactly(who, ActorOf(who));
      assert Muted(text, n, who, whom, length);
    }
    if who, whom, length :| Muted(text, n, who, whom, length) {
      var said := who + HAS_MUTED + whom;
      SplitForExactly(text, said, length);
      FirstMarker(said, HAS_MUTED, who, whom);
      assert said[..|who|] == who && said[|who| + |HAS_MUTED|..] == whom;
      ActorExactly(who, n.actor);
      NamedExactly(MUTE, whom, n.actor, NoticeDuration(length), n);
    }
  }

  // ----- the line

  ghost predicate IsKickedBy(text: string, n: Notice) {
    exists who, doer, bang :: KickedBy(text, n, who, doer, bang)
  }

  ghost predicate IsKicked(text: string, n: Notice) {
    exists who, bang :: Kicked(text, n, who, bang)
  }

  ghost predicate IsMuted(text: string, n: Notice) {
    exists who, whom, length :: Muted(text, n, who, whom, length)
  }

  ghost predicate IsUnmuted(text: string, n: Notice) {
    exists who, whom :: Unmuted(text, n, who, whom)
  }

  /** A line is read as a notice exactly when it is no chat and, trimmed, has one of the four forms with names where
      names belong; a form counts only if the more specific ones before it do not apply. */
  lemma NoticeReadExactly(line: string, n: Notice)
    ensures var text := Trim(line);
            ParsePunitive(line) == Some(n) <==>
            && !("Guild >" <= text) && !("Officer >" <= text)
            && (IsKickedBy(text, n)
                || (!(exists m :: IsKickedBy(text, m))
                    && (IsKicked(text, n)
                        || (!(exists m :: IsKicked(text, m))
                            && (IsMuted(text, n)
                                || (!(exists m :: IsMuted(text, m)) && IsUnmuted(text, n)))))))
  {
    var text := Trim(line);
    hide KickBy, KickPassive, Mute, Unmute, KickedBy, Kicked, Muted, Unmuted;
    TrimHead(line);
    forall m ensures KickBy(text) == Some(m) <==> IsKickedBy(text, m) {
      KickByExactly(text, m);
    }
    forall m ensures KickPassive(text) == Some(m) <==> IsKicked(text, m) {
      KickPassiveExactly(text, m);
    }
    forall m ensures Mute(text) == Some(m) <==> IsMuted(text, m) {
      MuteExactly(text, m);
    }
    forall m ensures Unmute(text) == Some(m) <==> IsUnmuted(text, m) {
      UnmuteExactly(text, m);
    }
    NothingInNothing();
  }

  lemma {:induction false} TrimHead(s: string)
    ensures Trim(s) == "" || !IsSpace(Trim(s)[0])
  {
    if s != [] && IsSpace(s[0]) {
      TrimHead(s[1..]);
    }
  }

  lemma NothingInNothing()
    ensures KickBy("").None? && KickPassive("").None? && Mute("").None? && Unmute("").None?
  {
  }
}
