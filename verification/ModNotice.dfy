/** Guild moderation notices (apps/bridge-bot/src/mod-notice.ts), and the command lines that cause them
    (apps/bridge-bot/src/command-echo.ts:71-81, apps/bridge-bot/src/transport.ts:643). Lines carry no colour codes. */
module ModNotice {
  import opened Prelude
  import opened ChatText

  datatype Kind = KICK | MUTE | UNMUTE | PROMOTE | DEMOTE

  datatype Notice = Notice(kind: Kind, target: string, actor: Option<string>, durationSeconds: Option<nat>)

  datatype Intent = Intent(kind: Kind, target: string)

  // ----- what a typed command asks for

  /** What follows `literal`, read without regard to case. */
  function After(s: string, literal: string): Option<string> {
    if |literal| <= |s| && Lower(s[..|literal|]) == literal then Some(s[|literal|..]) else None
  }

  function AfterGuildWord(s: string): Option<string> {
    if After(s, "/guild ").Some? then After(s, "/guild ") else After(s, "/g ")
  }

  function VerbWord(kind: Kind): string {
    match kind
    case KICK => "kick "
    case MUTE => "mute "
    case UNMUTE => "unmute "
    case PROMOTE => "promote "
    case DEMOTE => "demote "
  }

  function IntentOf(kind: Kind, afterVerb: string): Option<Intent> {
    var n := WordRun(afterVerb);
    if 1 <= n <= 16 then Some(Intent(kind, Lower(afterVerb[..n]))) else None
  }

  function IntentAfterGuild(rest: string): Option<Intent> {
    if After(rest, "kick ").Some? then IntentOf(KICK, After(rest, "kick ").value)
    else if After(rest, "mute ").Some? then IntentOf(MUTE, After(rest, "mute ").value)
    else if After(rest, "unmute ").Some? then IntentOf(UNMUTE, After(rest, "unmute ").value)
    else if After(rest, "promote ").Some? then IntentOf(PROMOTE, After(rest, "promote ").value)
    else if After(rest, "demote ").Some? then IntentOf(DEMOTE, After(rest, "demote ").value)
    else None
  }

  function ParseCommandIntent(command: string): Option<Intent> {
    var rest := AfterGuildWord(Trim(command));
    if rest.None? then None else IntentAfterGuild(rest.value)
  }

  /** An answer to a join request. Not trimmed first, unlike the intent. */
  predicate IsJoinAnswer(command: string) {
    var rest := AfterGuildWord(command);
    rest.Some? &&
    ((After(rest.value, "accept ").Some? && IsName(After(rest.value, "accept ").value)) ||
     (After(rest.value, "deny ").Some? && IsName(After(rest.value, "deny ").value)))
  }

  // ----- the notices

  function BareName(raw: string): string {
    var close := Find(raw, "]", 0);
    if raw != [] && raw[0] == '[' && close.Some? && close.value >= 2
    then Trim(TrimLeft(raw[close.value + 1..]))
    else Trim(raw)
  }

  /** `marker` stands at `e`, and what follows it is an ending. */
  predicate Fits(text: string, e: int, marker: string, ends: string -> bool) {
    0 < e <= |text| && marker <= text[e..] && ends(text[e..][|marker|..])
  }

  /** One or two tokens followed by `marker`; two are tried first. */
  function KickSubject(text: string, marker: string, ends: string -> bool): Option<(string, string)> {
    var e1 := TokenEnd(text, 0);
    var e2 := if e1 < |text| && text[e1] == ' ' then TokenEnd(text, e1 + 1) else e1;
    if e2 > e1 + 1 && Fits(text, e2, marker, ends) then Some((text[..e2], text[e2..][|marker|..]))
    else if Fits(text, e1, marker, ends) then Some((text[..e1], text[e1..][|marker|..]))
    else None
  }

  const KICKED_BY := " was kicked from the guild by "
  const KICKED := " was kicked from the guild"
  const HAS_MUTED := " has muted "
  const HAS_UNMUTED := " has unmuted "

  function WithoutBang(s: string): string {
    if |s| >= 2 && s[|s| - 1] == '!' then s[..|s| - 1] else s
  }

  function ActorOf(raw: string): Option<string> {
    if IsName(BareName(raw)) then Some(BareName(raw)) else None
  }

  function Named(kind: Kind, rawTarget: string, actor: Option<string>, duration: Option<nat>): Option<Notice> {
    if IsName(BareName(rawTarget)) then Some(Notice(kind, BareName(rawTarget), actor, duration)) else None
  }

  function KickBy(text: string): Option<Notice> {
    var m := KickSubject(text, KICKED_BY, rest => rest != [] && OneLine(rest));
    if m.None? then None else Named(KICK, m.value.0, ActorOf(WithoutBang(m.value.1)), None)
  }

  function KickPassive(text: string): Option<Notice> {
    var m := KickSubject(text, KICKED, rest => rest == "" || rest == "!");
    if m.None? then None else Named(KICK, m.value.0, None, None)
  }

  predicate IsDuration(s: string) {
    |s| >= 2 && (forall i :: 0 <= i < |s| - 1 ==> IsDigit(s[i])) && s[|s| - 1] in "smhd"
  }

  function UnitSeconds(c: char): nat {
    if c == 's' then 1 else if c == 'm' then 60 else if c == 'h' then 3_600 else 86_400
  }

  function NoticeDuration(raw: string): Option<nat> {
    var s := Trim(raw);
    if !IsDuration(s) || DigitsValue(s[..|s| - 1]) == 0 then None
    else Some(DigitsValue(s[..|s| - 1]) * UnitSeconds(s[|s| - 1]))
  }

  /** The last blank, or the length when there is none. */
  function LastBlank(s: string): (p: nat)
    ensures p <= |s|
    ensures p < |s| ==> s[p] == ' ' && forall i :: p < i < |s| ==> s[i] != ' '
    ensures p == |s| ==> ' ' !in s
  {
    if s == [] then 0
    else if s[|s| - 1] == ' ' then |s| - 1
    else
      var p := LastBlank(s[..|s| - 1]);
      if p == |s| - 1 then |s| else p
  }

  /** What stands before and behind a " for " that a duration follows to the end. */
  function SplitFor(text: string): Option<(string, string)> {
    var p := LastBlank(text);
    if p == |text| || p < 4 || text[p - 4..p + 1] != " for " || !IsDuration(text[p + 1..]) then None
    else Some((text[..p - 4], text[p + 1..]))
  }

  function Mute(text: string): Option<Notice> {
    var split := SplitFor(text);
    if split.None? then None
    else
      var (body, duration) := split.value;
      var i := Find(body, HAS_MUTED, 1);
      if i.None? || i.value + |HAS_MUTED| == |body| || !OneLine(body) then None
      else Named(MUTE, body[i.value + |HAS_MUTED|..], ActorOf(body[..i.value]), NoticeDuration(duration))
  }

  function Unmute(text: string): Option<Notice> {
    var i := Find(text, HAS_UNMUTED, 1);
    if i.None? || i.value + |HAS_UNMUTED| == |text| || !OneLine(text) then None
    else Named(UNMUTE, text[i.value + |HAS_UNMUTED|..], ActorOf(text[..i.value]), None)
  }

  /** The punitive part of `parseModNotice`: the forms are tried in order, and a form whose target is not a
      name is passed over. The promotion and demotion forms come last, so they never hide one of these. */
  function ParsePunitive(line: string): Option<Notice> {
    var text := Trim(line);
    if text == [] || "Guild >" <= text || "Officer >" <= text then None
    else if KickBy(text).Some? then KickBy(text)
    else if KickPassive(text).Some? then KickPassive(text)
    else if Mute(text).Some? then Mute(text)
    else Unmute(text)
  }

  // ----- round trips: what the platform types, and what Hypixel prints about it

  lemma AfterLiteral(literal: string, rest: string)
    requires Lower(literal) == literal
    ensures After(literal + rest, literal) == Some(rest)
  {
    assert (literal + rest)[..|literal|] == literal;
  }

  lemma TrimCommand(head: string, tail: string)
    requires head != [] && !IsSpace(head[0]) && !IsSpace(head[|head| - 1])
    ensures Trim(head + tail) == head + TrimRight(tail)
  {
    assert TrimLeft(head + tail) == head + tail;
    TrimRightAppend(head, tail);
  }

  lemma AfterMismatch(s: string, literal: string, i: nat)
    requires i < |literal| && (i < |s| ==> LowerChar(s[i]) != literal[i])
    ensures After(s, literal).None?
  {
    if |literal| <= |s| {
      assert Lower(s[..|literal|])[i] == LowerChar(s[i]);
    }
  }

  lemma VerbRecognised(kind: Kind, rest: string)
    ensures IntentAfterGuild(VerbWord(kind) + rest) == IntentOf(kind, rest)
  {
    var s := VerbWord(kind) + rest;
    AfterLiteral(VerbWord(kind), rest);
    match kind
    case KICK =>
    case MUTE => AfterMismatch(s, "kick ", 0);
    case UNMUTE => AfterMismatch(s, "kick ", 0); AfterMismatch(s, "mute ", 0);
    case PROMOTE => AfterMismatch(s, "kick ", 0); AfterMismatch(s, "mute ", 0); AfterMismatch(s, "unmute ", 0);
    case DEMOTE => AfterMismatch(s, "kick ", 0); AfterMismatch(s, "mute ", 0); AfterMismatch(s, "unmute ", 0);
                   AfterMismatch(s, "promote ", 0);
  }

  /** Every moderation line the platform types is recognised, whatever reason follows the name. */
  lemma IntentRoundTrip(kind: Kind, name: string, tail: string)
    requires IsName(name) && (tail == [] || !IsWordChar(tail[0]))
    ensures ParseCommandIntent("/g " + VerbWord(kind) + name + tail) == Some(Intent(kind, Lower(name)))
  {
    var verb := VerbWord(kind);
    var head := "/g " + verb + name;
    assert head[|head| - 1] == name[|name| - 1] && name[|name| - 1] in name;
    TrimCommand(head, tail);
    var kept := TrimRight(tail);
    var rest := verb + (name + kept);
    assert head + kept == "/g " + rest;
    hide VerbWord, IntentAfterGuild, After, TrimRight, Trim, TrimLeft, IntentOf, AfterGuildWord;
    GuildWordTyped(rest);
    VerbRecognised(kind, name + kept);
    IntentOfName(kind, name, kept);
  }

  lemma GuildWordTyped(rest: string)
    ensures AfterGuildWord("/g " + rest) == Some(rest)
  {
    AfterLiteral("/g ", rest);
    AfterMismatch("/g " + rest, "/guild ", 2);
    hide After;
  }

  lemma IntentOfName(kind: Kind, name: string, tail: string)
    requires IsName(name) && (tail == [] || !IsWordChar(tail[0]))
    ensures IntentOf(kind, name + tail) == Some(Intent(kind, Lower(name)))
  {
    WordRunOf(name, tail);
    assert (name + tail)[..|name|] == name;
  }

  lemma AfterParts(s: string, literal: string)
    requires After(s, literal).Some?
    ensures |literal| <= |s| && After(s, literal).value == s[|literal|..]
    ensures forall i :: 0 <= i < |literal| ==> LowerChar(s[i]) == literal[i]
  {
    assert forall i :: 0 <= i < |literal| ==> Lower(s[..|literal|])[i] == LowerChar(s[i]);
  }

  /** A join answer starts with a slash, ends with a name, and its verb is none of the five. */
  lemma JoinAnswerShape(command: string)
    requires IsJoinAnswer(command)
    ensures Trim(command) == command
    ensures IntentAfterGuild(AfterGuildWord(command).value).None?
  {
    var word := if After(command, "/guild ").Some? then "/guild " else "/g ";
    AfterParts(command, word);
    var rest := command[|word|..];
    var verb := if After(rest, "accept ").Some? && IsName(After(rest, "accept ").value) then "accept " else "deny ";
    AfterParts(rest, verb);
    assert IsName(rest[|verb|..]);
    hide After, AfterGuildWord, IsJoinAnswer, IntentAfterGuild;
    assert command[|command| - 1] in rest[|verb|..];
    assert LowerChar(command[0]) == word[0];
    assert LowerChar(rest[0]) == verb[0] && LowerChar(rest[2]) == verb[2];
    assert TrimLeft(command) == command && TrimRight(command) == command;
    NotAVerb(rest);
  }

  lemma NotAVerb(rest: string)
    requires |rest| >= 3
    requires LowerChar(rest[0]) == 'a' || (LowerChar(rest[0]) == 'd' && LowerChar(rest[2]) == 'n')
    ensures IntentAfterGuild(rest).None?
  {
    AfterMismatch(rest, "kick ", 0);
    AfterMismatch(rest, "mute ", 0);
    AfterMismatch(rest, "unmute ", 0);
    AfterMismatch(rest, "promote ", 0);
    AfterMismatch(rest, "demote ", if LowerChar(rest[0]) == 'a' then 0 else 2);
  }

  /** No command is both a join answer, which jumps the queue, and a watched punishment. */
  lemma JoinAnswerIsNotWatched(command: string)
    requires IsJoinAnswer(command)
    ensures ParseCommandIntent(command).None?
  {
    JoinAnswerShape(command);
  }

  // ----- printed notices

  /** How Hypixel prints a member: an optional rank tag, then the name. */
  function Printed(tag: string, name: string): string {
    if tag == "" then name else "[" + tag + "] " + name
  }

  predicate IsTag(tag: string) {
    forall c :: c in tag ==> c != ']' && !IsSpace(c)
  }

  lemma {:induction false} NoSpaceInName(name: string)
    requires IsName(name)
    ensures forall c :: c in name ==> !IsSpace(c)
    ensures Trim(name) == name
  {
    assert name[0] in name && name[|name| - 1] in name;
  }

  lemma {:induction false} FindLeftmost(s: string, needle: string, from: nat, i: nat)
    requires from <= i && OccursAt(s, needle, i) && forall j :: from <= j < i ==> !OccursAt(s, needle, j)
    ensures Find(s, needle, from) == Some(i)
    decreases i - from
  {
    if from < i {
      FindLeftmost(s, needle, from + 1, i);
    }
  }

  lemma BareNameOfPrinted(tag: string, name: string)
    requires IsTag(tag) && IsName(name)
    ensures BareName(Printed(tag, name)) == name
  {
    NoSpaceInName(name);
    var raw := Printed(tag, name);
    if tag == "" {
      assert raw[0] in name;
    } else {
      var close := |tag| + 1;
      assert raw[close..close + 1] == "]";
      forall j | 0 <= j < close ensures !OccursAt(raw, "]", j) {
        assert raw[j..j + 1][0] == raw[j];
        assert j > 0 ==> raw[j] == tag[j - 1] && tag[j - 1] in tag;
      }
      FindLeftmost(raw, "]", 0, close);
      assert raw[close + 1..] == " " + name;
      assert (" " + name)[1..] == name;
      assert name[0] in name;
      assert TrimLeft(" " + name) == name;
    }
  }

  lemma PrintedShape(tag: string, name: string)
    requires IsTag(tag) && IsName(name)
    ensures var p := Printed(tag, name);
            && p != [] && !IsSpace(p[0]) && !IsSpace(p[|p| - 1]) && OneLine(p)
            && forall i :: 0 <= i < |p| && IsSpace(p[i]) ==> tag != "" && i == |tag| + 2
  {
    NoSpaceInName(name);
    var p := Printed(tag, name);
    assert p[|p| - 1] in name && name[0] in name;
    forall i | 0 <= i < |p| ensures IsSpace(p[i]) ==> tag != "" && i == |tag| + 2 {
      if tag == "" {
        assert p[i] in name;
      } else if 1 <= i <= |tag| {
        assert p[i] == tag[i - 1] && tag[i - 1] in tag;
      } else if i > |tag| + 2 {
        assert p[i] == name[i - |tag| - 3] && name[i - |tag| - 3] in name;
      }
    }
  }

  lemma TokenEndIs(s: string, from: nat, e: nat)
    requires from <= e < |s| && IsSpace(s[e]) && forall i :: from <= i < e ==> !IsSpace(s[i])
    ensures TokenEnd(s, from) == e
  {
  }

  /** The tokens at the start of a line that begins with a printed member and a blank. */
  lemma SubjectTokens(tag: string, name: string, after: string)
    requires IsTag(tag) && IsName(name) && after != [] && after[0] == ' '
    ensures var p := Printed(tag, name);
            var e1 := TokenEnd(p + after, 0);
            if tag == "" then e1 == |p|
            else e1 == |p| - |name| - 1 && (p + after)[e1] == ' ' && TokenEnd(p + after, e1 + 1) == |p|
  {
    var p := Printed(tag, name);
    var text := p + after;
    PrintedShape(tag, name);
    assert forall i :: 0 <= i < |p| ==> text[i] == p[i];
    assert text[|p|] == ' ';
    if tag == "" {
      TokenEndIs(text, 0, |p|);
    } else {
      TokenEndIs(text, 0, |tag| + 2);
      TokenEndIs(text, |tag| + 3, |p|);
    }
  }

  lemma NameUnbroken(tag: string, name: string, after: string)
    requires IsTag(tag) && IsName(name) && tag != ""
    ensures var p := Printed(tag, name);
            |p| > |name| + 1 && forall i :: |p| - |name| - 1 < i < |p| ==> !IsSpace((p + after)[i])
  {
    PrintedShape(tag, name);
    var p := Printed(tag, name);
    assert forall i :: 0 <= i < |p| ==> (p + after)[i] == p[i];
    hide IsSpace;
  }

  /** The marker does not match from its own second word. */
  lemma MarkerNotLater(text: string, n: nat, marker: string)
    requires n + 11 <= |text| && text[n..n + 11] == " was kicked" && " was kicked" <= marker
    ensures TokenEnd(text, n + 1) == n + 4 && !(marker <= text[n + 4..])
  {
    assert text[n + 1] == " was kicked"[1] && text[n + 2] == " was kicked"[2] && text[n + 3] == " was kicked"[3] &&
           text[n + 4] == " was kicked"[4] && text[n + 5] == " was kicked"[5] by {
      assert text[n..n + 11][1] == text[n + 1] && text[n..n + 11][2] == text[n + 2] && text[n..n + 11][3] == text[n + 3] &&
             text[n..n + 11][4] == text[n + 4] && text[n..n + 11][5] == text[n + 5];
    }
    TokenEndIs(text, n + 1, n + 4);
    assert marker[1] == 'w' && text[n + 4..][1] == text[n + 5] == 'k';
  }

  /** The match, once the tokens are known. */
  lemma KickSubjectAt(text: string, n: nat, marker: string, rest: string, ends: string -> bool)
    requires 0 < n <= |text| && text[n..] == marker + rest && ends(rest) && " was kicked" <= marker
    requires var e1 := TokenEnd(text, 0); e1 == n || (e1 < n - 1 && text[e1] == ' ' && TokenEnd(text, e1 + 1) == n)
    ensures KickSubject(text, marker, ends) == Some((text[..n], rest))
  {
    MarkerFits(text, n, marker, rest, ends);
    hide TokenEnd, Fits;
  }

  /** The marker fits where it stands, and not from its own second word. */
  lemma MarkerFits(text: string, n: nat, marker: string, rest: string, ends: string -> bool)
    requires 0 < n <= |text| && text[n..] == marker + rest && ends(rest) && " was kicked" <= marker
    ensures text[n..][|marker|..] == rest && n < |text| && text[n] == ' '
    ensures Fits(text, n, marker, ends)
    ensures TokenEnd(text, n + 1) == n + 4 && !Fits(text, n + 4, marker, ends)
  {
    assert text[n..][|marker|..] == rest;
    assert text[n] == text[n..][0] == marker[0] == ' ';
    assert text[n..n + 11] == text[n..][..11] == marker[..11] == " was kicked";
    MarkerNotLater(text, n, marker);
    hide TokenEnd;
  }

  /** A printed subject is one or two tokens, and the marker after it starts with " was kicked". */
  lemma KickSubjectOf(tag: string, name: string, marker: string, rest: string, ends: string -> bool)
    requires IsTag(tag) && IsName(name) && " was kicked" <= marker && ends(rest)
    ensures KickSubject(Printed(tag, name) + (marker + rest), marker, ends) == Some((Printed(tag, name), rest))
  {
    var p := Printed(tag, name);
    var text := p + (marker + rest);
    assert marker[0] == ' ';
    SubjectTokens(tag, name, marker + rest);
    assert text[|p|..] == marker + rest && text[..|p|] == p && |p| > 0;
    hide Printed, IsTag;
    KickSubjectAt(text, |p|, marker, rest, ends);
  }

  /** A text whose first blank is not followed by '>' is not a chat line of the channel `prefix`. */
  lemma NotChannel(text: string, n: nat, prefix: string)
    requires n + 1 < |text| && text[n] == ' ' && text[n + 1] != '>' && forall i :: 0 <= i < n ==> text[i] != ' '
    requires |prefix| >= 2 && prefix[|prefix| - 2] == ' ' && prefix[|prefix| - 1] == '>'
    requires forall i :: 0 <= i < |prefix| - 2 ==> prefix[i] != ' '
    ensures !(prefix <= text)
  {
    var blank := |prefix| - 2;
    assert n < blank ==> text[n] != prefix[n];
    assert blank < n ==> text[blank] != prefix[blank];
    assert n == blank ==> text[n + 1] != prefix[n + 1];
  }

  lemma NotGuildChat(text: string, tag: string, name: string)
    requires IsTag(tag) && IsName(name)
    requires |text| > |Printed(tag, name)| + 1 && Printed(tag, name) <= text
    requires text[|Printed(tag, name)|] == ' ' && text[|Printed(tag, name)| + 1] != '>'
    ensures !("Guild >" <= text) && !("Officer >" <= text)
  {
    var p := Printed(tag, name);
    PrintedShape(tag, name);
    assert forall i :: 0 <= i < |p| ==> text[i] == p[i];
    if tag == "" {
      NotChannel(text, |p|, "Guild >");
      NotChannel(text, |p|, "Officer >");
    } else {
      assert text[0] == '[';
    }
  }

  lemma TrimUnchanged(text: string)
    requires text != [] && !IsSpace(text[0]) && !IsSpace(text[|text| - 1])
    ensures Trim(text) == text
  {
  }

  /** "[MVP+] Steve was kicked from the guild by [ADMIN] Alex!" is read back as what it says. */
  lemma KickNoticeRoundTrip(tag: string, target: string, actorTag: string, actor: string)
    requires IsTag(tag) && IsName(target) && IsTag(actorTag) && IsName(actor)
    ensures ParsePunitive(Printed(tag, target) + (KICKED_BY + (Printed(actorTag, actor) + "!")))
            == Some(Notice(KICK, target, Some(actor), None))
  {
    hide KickBy, Trim, Printed, KickPassive, Mute, Unmute, IsTag;
    NoticeLine(tag, target, KICKED_BY + (Printed(actorTag, actor) + "!"));
    KickByPrinted(tag, target, actorTag, actor);
  }

  /** A line that starts with a printed member is no channel line, and trimming leaves it alone. */
  lemma NoticeLine(tag: string, target: string, rest: string)
    requires IsTag(tag) && IsName(target)
    requires |rest| >= 2 && rest[0] == ' ' && rest[1] != '>' && !IsSpace(rest[|rest| - 1])
    ensures var text := Printed(tag, target) + rest;
            text != [] && Trim(text) == text && !("Guild >" <= text) && !("Officer >" <= text)
  {
    var text := Printed(tag, target) + rest;
    PrintedShape(tag, target);
    TrimUnchanged(text);
    hide Trim;
    NotGuildChat(text, tag, target);
  }

  lemma KickByPrinted(tag: string, target: string, actorTag: string, actor: string)
    requires IsTag(tag) && IsName(target) && IsTag(actorTag) && IsName(actor)
    ensures KickBy(Printed(tag, target) + (KICKED_BY + (Printed(actorTag, actor) + "!")))
            == Some(Notice(KICK, target, Some(actor), None))
  {
    var rest := Printed(actorTag, actor) + "!";
    var ends := (r: string) => r != [] && OneLine(r);
    PrintedShape(actorTag, actor);
    assert OneLine(rest);
    assert WithoutBang(rest) == Printed(actorTag, actor);
    hide KickSubject, BareName, Printed, OneLine, IsTag, WithoutBang;
    KickSubjectOf(tag, target, KICKED_BY, rest, ends);
    BareNameOfPrinted(tag, target);
    BareNameOfPrinted(actorTag, actor);
  }

  /** The form that names the actor does not match a line that ends after the shorter marker. */
  lemma NotKickedBy(tag: string, name: string, bang: string)
    requires IsTag(tag) && IsName(name) && |bang| <= 1
    ensures KickBy(Printed(tag, name) + (KICKED + bang)).None?
  {
    var p := Printed(tag, name);
    var text := p + (KICKED + bang);
    KickedBehind(p, bang);
    assert p != [] && |name| >= 1 && " was kicked" <= KICKED_BY && (KICKED + bang)[0] == ' ';
    hide KickSubject, KICKED_BY, KICKED, TokenEnd, Printed, IsTag, IsSpace, IsName;
    SubjectTokens(tag, name, KICKED + bang);
    if tag != "" {
      NameUnbroken(tag, name, KICKED + bang);
    }
    NoKickHere(text, |p|, tag != "", |name|, KICKED_BY, rest => rest != [] && OneLine(rest));
  }

  /** A subject that ends at `n`, one token or two, before a word of three letters that starts no marker. */
  lemma NoKickHere(text: string, n: nat, tagged: bool, k: nat, marker: string, ends: string -> bool)
    requires " was kicked" <= marker && 0 < n && n + 7 <= |text| && !(marker <= text[n..])
    requires text[n] == ' ' && text[n + 1] != 'k' && text[n + 5] != 'w' && IsSpace(text[n + 4])
    requires !IsSpace(text[n + 1]) && !IsSpace(text[n + 2]) && !IsSpace(text[n + 3])
    requires !tagged ==> TokenEnd(text, 0) == n
    requires tagged ==> 1 <= k < n - 1 && TokenEnd(text, 0) == n - k - 1 && TokenEnd(text, n - k) == n
    requires tagged ==> forall i :: n - k - 1 < i < n ==> !IsSpace(text[i])
    ensures KickSubject(text, marker, ends).None?
  {
    hide KickSubject, TokenEnd, IsSpace;
    MarkerNotFits(text, n, marker, ends);
    if tagged {
      MarkerNotInside(text, n - k - 1, k, marker);
      MarkerNotFits(text, n - k - 1, marker, ends);
    } else {
      assert forall i :: n + 1 <= i < n + 4 ==> !IsSpace(text[i]);
      TokenEndIs(text, n + 1, n + 4);
      NotKickedAt(text, n + 4, marker, ends);
    }
    hide Fits;
    NeitherFits(text, marker, ends);
  }

  lemma KickedBehind(p: string, bang: string)
    requires |bang| <= 1
    ensures var text, n := p + (KICKED + bang), |p|;
            && |text| >= n + 7 && text[n] == ' ' && text[n + 4] == ' ' && text[n + 5] == 'k'
            && !IsSpace(text[n + 1]) && !IsSpace(text[n + 2]) && !IsSpace(text[n + 3]) && IsSpace(text[n + 4])
            && text[n + 1] != 'k' && !(KICKED_BY <= text[n..])
  {
    var text, n := p + (KICKED + bang), |p|;
    assert text[n..] == KICKED + bang;
    assert |KICKED_BY| > |KICKED| + 1;
    assert forall i :: 0 <= i < |KICKED| ==> text[n + i] == KICKED[i];
  }

  /** A marker cannot start at the blank between a rank tag and the name it decorates. */
  lemma MarkerNotInside(text: string, e1: nat, n: nat, marker: string)
    requires e1 + n + 6 < |text| && 1 <= n && text[e1 + 1 + n] == ' ' && text[e1 + 2 + n] != 'k'
    requires forall i :: e1 < i < e1 + 1 + n ==> !IsSpace(text[i])
    requires " was kicked" <= marker
    ensures !(marker <= text[e1..])
  {
    assert marker[1] == 'w' && marker[2] == 'a' && marker[3] == 's' && marker[4] == ' ' && marker[5] == 'k';
    assert n == 3 ==> text[e1..][5] != marker[5];
    assert n < 3 ==> text[e1..][1 + n] == ' ' != marker[1 + n];
    assert n > 3 ==> text[e1..][4] != ' ' == marker[4];
  }

  /** "Steve was kicked from the guild!" names nobody. */
  lemma PassiveKickRoundTrip(tag: string, target: string, bang: string)
    requires IsTag(tag) && IsName(target) && (bang == "" || bang == "!")
    ensures ParsePunitive(Printed(tag, target) + (KICKED + bang)) == Some(Notice(KICK, target, None, None))
  {
    var rest := KICKED + bang;
    assert rest[0] == ' ' && rest[1] != '>' && !IsSpace(rest[|rest| - 1]);
    hide KickBy, Trim, Mute, Unmute, KickSubject, BareName, Printed, IsTag, KICKED;
    NoticeLine(tag, target, rest);
    NotKickedBy(tag, target, bang);
    KickPassiveOf(tag, target, bang);
  }

  lemma KickPassiveOf(tag: string, target: string, bang: string)
    requires IsTag(tag) && IsName(target) && (bang == "" || bang == "!")
    ensures KickPassive(Printed(tag, target) + (KICKED + bang)) == Some(Notice(KICK, target, None, None))
  {
    assert " was kicked" <= KICKED;
    hide KickSubject, BareName, Printed, IsTag, KICKED;
    KickSubjectOf(tag, target, KICKED, bang, rest => rest == "" || rest == "!");
    BareNameOfPrinted(tag, target);
  }

  // ----- mutes

  lemma NamedPrinted(kind: Kind, tag: string, target: string, actorTag: string, actor: string, duration: Option<nat>)
    requires IsTag(tag) && IsName(target) && IsTag(actorTag) && IsName(actor)
    ensures Named(kind, Printed(tag, target), ActorOf(Printed(actorTag, actor)), duration)
            == Some(Notice(kind, target, Some(actor), duration))
  {
    hide BareName, Printed;
    BareNameOfPrinted(tag, target);
    BareNameOfPrinted(actorTag, actor);
  }

  /** How every line that says what somebody "has" done goes on. */
  predicate SaysHas(s: string) {
    |s| >= 7 && s[0] == ' ' && s[1] == 'h' && s[2] == 'a' && s[3] == 's' && s[4] == ' ' && s[5] != 'h' && s[5] != 'w' &&
    !IsSpace(s[5])
  }

  lemma NotKickedAt(text: string, e: nat, marker: string, ends: string -> bool)
    requires " was kicked" <= marker && e + 1 < |text| && text[e + 1] != 'w'
    ensures !Fits(text, e, marker, ends)
  {
    assert marker[1] == 'w';
    assert text[e..][1] == text[e + 1];
  }

  lemma NeitherFits(text: string, marker: string, ends: string -> bool)
    requires var e1 := TokenEnd(text, 0);
             && !Fits(text, e1, marker, ends)
             && (e1 < |text| && text[e1] == ' ' ==> !Fits(text, TokenEnd(text, e1 + 1), marker, ends))
    ensures KickSubject(text, marker, ends).None?
  {
    hide Fits, TokenEnd;
  }

  /** A line that says what somebody "has" done is no kick. */
  lemma NotAKick(tag: string, name: string, after: string, marker: string, ends: string -> bool)
    requires IsTag(tag) && IsName(name) && " was kicked" <= marker && SaysHas(after)
    ensures KickSubject(Printed(tag, name) + after, marker, ends).None?
  {
    var p := Printed(tag, name);
    var text := p + after;
    assert p != [] && |name| >= 1 && after[0] == ' ';
    hide KickSubject, TokenEnd, Printed, IsTag, IsSpace, IsName;
    HasBehind(p, after);
    hide SaysHas;
    SubjectTokens(tag, name, after);
    assert marker[1] == 'w' && text[|p|..][1] == text[|p| + 1];
    if tag != "" {
      NameUnbroken(tag, name, after);
    }
    NoKickHere(text, |p|, tag != "", |name|, marker, ends);
  }

  lemma HasBehind(p: string, after: string)
    requires SaysHas(after)
    ensures var text, n := p + after, |p|;
            && |text| >= n + 7 && text[n] == ' ' && text[n + 1] == 'h' && text[n + 4] == ' '
            && !IsSpace(text[n + 1]) && !IsSpace(text[n + 2]) && !IsSpace(text[n + 3])
            && !IsSpace(text[n + 5]) && text[n + 5] != 'w' && IsSpace(text[n + 4])
  {
    assert forall i :: 0 <= i < |after| ==> (p + after)[|p| + i] == after[i];
  }

  lemma MarkerNotFits(text: string, e: nat, marker: string, ends: string -> bool)
    requires e <= |text| && !(marker <= text[e..])
    ensures !Fits(text, e, marker, ends)
  {
  }

  lemma OccursChar(text: string, needle: string, at: nat, k: nat)
    requires k < |needle|
    ensures OccursAt(text, needle, at) ==> at + k < |text| && text[at + k] == needle[k]
  {
    if OccursAt(text, needle, at) {
      assert text[at..at + |needle|][k] == text[at + k];
    }
  }

  /** " has …" cannot start at the blank between a rank tag and the name it decorates. */
  lemma VerbNotInside(text: string, e: nat, n: nat, needle: string)
    requires e + n + 7 < |text| && 1 <= n && SaysHas(needle) && text[e + 1 + n] == ' ' && text[e + 2 + n] == 'h'
    requires forall i :: e < i < e + 1 + n ==> !IsSpace(text[i])
    ensures !OccursAt(text, needle, e)
  {
    OccursChar(text, needle, e, if n <= 3 then 1 + n else 4);
    OccursChar(text, needle, e, 5);
    hide OccursAt;
  }

  lemma HasNotInside(tag: string, name: string, after: string, needle: string, j: nat)
    requires IsTag(tag) && IsName(name) && SaysHas(needle) && needle <= after
    requires j < |Printed(tag, name)|
    ensures !OccursAt(Printed(tag, name) + after, needle, j)
  {
    var p := Printed(tag, name);
    var text := p + after;
    PrintedShape(tag, name);
    assert forall i :: 0 <= i < |p| ==> text[i] == p[i];
    assert text[|p|] == ' ' && text[|p| + 1] == 'h';
    assert tag != "" ==> |p| == |tag| + 3 + |name|;
    assert needle[0] == ' ' && IsSpace(needle[0]);
    hide Printed, IsTag, SaysHas, OccursAt, IsSpace;
    OccursChar(text, needle, j, 0);
    if IsSpace(p[j]) {
      VerbNotInside(text, j, |name|, needle);
    }
  }

  lemma {:induction false} LastBlankIs(s: string, tail: string)
    requires ' ' !in tail
    ensures LastBlank(s + " " + tail) == |s|
  {
    var all := s + " " + tail;
    assert all[|s|] == ' ' && all[|s|] in all;
    assert forall i :: |s| < i < |all| ==> all[i] == tail[i - |s| - 1] && all[i] in tail;
  }

  /** " for 30d", after the target. */
  lemma SplitForAt(body: string, duration: string)
    requires IsDuration(duration)
    ensures SplitFor(body + " for " + duration) == Some((body, duration))
  {
    var text := body + " for " + duration;
    var front := body + " for";
    var p := |front|;
    forall i | 0 <= i < |duration| ensures duration[i] != ' ' {
    }
    assert ' ' !in duration;
    assert text == front + " " + duration;
    assert text[p - 4..p + 1] == " for " && text[p + 1..] == duration && text[..p - 4] == body;
    hide LastBlank, IsDuration;
    LastBlankIs(front, duration);
  }

  lemma OneLineJoin(a: string, b: string)
    requires OneLine(a) && OneLine(b)
    ensures OneLine(a + b)
  {
    hide IsLineEnd;
  }

  lemma HasMuted(rest: string)
    ensures SaysHas(HAS_MUTED) && SaysHas(HAS_MUTED + rest) && OneLine(HAS_MUTED)
  {
  }

  lemma HasUnmuted(rest: string)
    ensures SaysHas(HAS_UNMUTED) && SaysHas(HAS_UNMUTED + rest)
  {
  }

  /** "[ADMIN] Alex has muted [MVP+] Steve for 30d" is read back as what it says. */
  lemma MuteNoticeRoundTrip(actorTag: string, actor: string, tag: string, target: string, duration: string)
    requires IsTag(actorTag) && IsName(actor) && IsTag(tag) && IsName(target) && IsDuration(duration)
    ensures ParsePunitive(Printed(actorTag, actor) + (HAS_MUTED + (Printed(tag, target) + " for " + duration)))
            == Some(Notice(MUTE, target, Some(actor), NoticeDuration(duration)))
  {
    var rest := Printed(tag, target) + " for " + duration;
    var after := HAS_MUTED + rest;
    HasMuted(rest);
    assert after[|after| - 1] == duration[|duration| - 1];
    assert after[0] == ' ' && after[1] != '>' && !IsSpace(after[|after| - 1]);
    assert " was kicked" <= KICKED_BY && " was kicked" <= KICKED;
    Regroup(Printed(actorTag, actor), HAS_MUTED, Printed(tag, target), " for ", duration);
    MuteOf(actorTag, actor, tag, target, duration);
    hide Printed, IsTag, ParsePunitive, Mute, Trim, KickSubject, NoticeDuration, IsDuration, SaysHas, HAS_MUTED;
    NoticeLine(actorTag, actor, after);
    NotAKick(actorTag, actor, after, KICKED_BY, rest => rest != [] && OneLine(rest));
    NotAKick(actorTag, actor, after, KICKED, rest => rest == "" || rest == "!");
    ThirdForm(Printed(actorTag, actor) + after);
  }

  /** A line that is no kick is a mute if it can be, else an unmute. */
  lemma ThirdForm(text: string)
    requires text != [] && Trim(text) == text && !("Guild >" <= text) && !("Officer >" <= text)
    requires KickSubject(text, KICKED_BY, rest => rest != [] && OneLine(rest)).None?
    requires KickSubject(text, KICKED, rest => rest == "" || rest == "!").None?
    ensures ParsePunitive(text) == if Mute(text).Some? then Mute(text) else Unmute(text)
  {
    hide KickSubject, Mute, Unmute, Trim, Named, KICKED, KICKED_BY;
  }

  lemma Regroup(a: string, b: string, c: string, d: string, e: string)
    ensures a + (b + (c + d + e)) == (a + (b + c)) + d + e
  {
  }

  lemma MuteOf(actorTag: string, actor: string, tag: string, target: string, duration: string)
    requires IsTag(actorTag) && IsName(actor) && IsTag(tag) && IsName(target) && IsDuration(duration)
    ensures Mute(Printed(actorTag, actor) + (HAS_MUTED + Printed(tag, target)) + " for " + duration)
            == Some(Notice(MUTE, target, Some(actor), NoticeDuration(duration)))
  {
    var a, t := Printed(actorTag, actor), Printed(tag, target);
    var body := a + (HAS_MUTED + t);
    PrintedShape(actorTag, actor);
    PrintedShape(tag, target);
    HasMuted("");
    assert OneLine(a) && OneLine(t) && |body| > |a| + |HAS_MUTED|;
    OneLineJoin(HAS_MUTED, t);
    OneLineJoin(a, HAS_MUTED + t);
    hide Mute, Printed, IsTag, Find, Named, ActorOf, NoticeDuration, IsDuration, OneLine, SaysHas, HAS_MUTED;
    HasAt(actorTag, actor, HAS_MUTED, t);
    MuteAt(body, |a|, duration);
    NamedPrinted(MUTE, tag, target, actorTag, actor, NoticeDuration(duration));
  }

  lemma MuteAt(body: string, i: nat, duration: string)
    requires Find(body, HAS_MUTED, 1) == Some(i) && i + |HAS_MUTED| < |body| && OneLine(body) && IsDuration(duration)
    ensures Mute(body + " for " + duration)
            == Named(MUTE, body[i + |HAS_MUTED|..], ActorOf(body[..i]), NoticeDuration(duration))
  {
    hide SplitFor, Find, Named, ActorOf, NoticeDuration, IsDuration, OneLine, HAS_MUTED;
    SplitForAt(body, duration);
  }

  lemma PartsAt(a: string, needle: string, rest: string)
    ensures var text := a + (needle + rest);
            OccursAt(text, needle, |a|) && text[..|a|] == a && text[|a| + |needle|..] == rest
  {
    assert (a + (needle + rest))[|a|..|a| + |needle|] == needle;
  }

  /** The verb of a printed line is found where it was printed. */
  lemma HasAt(tag: string, name: string, needle: string, rest: string)
    requires IsTag(tag) && IsName(name) && SaysHas(needle)
    ensures var a := Printed(tag, name);
            var text := a + (needle + rest);
            a != [] && Find(text, needle, 1) == Some(|a|) && text[..|a|] == a && text[|a| + |needle|..] == rest
  {
    var a := Printed(tag, name);
    var text := a + (needle + rest);
    PrintedShape(tag, name);
    hide Printed, SaysHas, IsTag, Find;
    PartsAt(a, needle, rest);
    forall j | 1 <= j < |a| ensures !OccursAt(text, needle, j) {
      HasNotInside(tag, name, needle + rest, needle, j);
    }
    hide OccursAt;
    FindLeftmost(text, needle, 1, |a|);
  }

  /** "[ADMIN] Alex has unmuted [MVP+] Steve" is read back as what it says. */
  lemma UnmuteNoticeRoundTrip(actorTag: string, actor: string, tag: string, target: string)
    requires IsTag(actorTag) && IsName(actor) && IsTag(tag) && IsName(target)
    ensures ParsePunitive(Printed(actorTag, actor) + (HAS_UNMUTED + Printed(tag, target)))
            == Some(Notice(UNMUTE, target, Some(actor), None))
  {
    var a, t := Printed(actorTag, actor), Printed(tag, target);
    var after := HAS_UNMUTED + t;
    PrintedShape(actorTag, actor);
    PrintedShape(tag, target);
    HasUnmuted(t);
    assert after[|after| - 1] == t[|t| - 1];
    assert after[0] == ' ' && after[1] != '>' && !IsSpace(after[|after| - 1]);
    assert OneLine(a + after);
    assert " was kicked" <= KICKED_BY && " was kicked" <= KICKED;
    hide Printed, IsTag, Mute, Unmute, Trim, KickSubject, OneLine, SaysHas, ParsePunitive, HAS_UNMUTED;
    NoticeLine(actorTag, actor, after);
    NotAKick(actorTag, actor, after, KICKED_BY, rest => rest != [] && OneLine(rest));
    NotAKick(actorTag, actor, after, KICKED, rest => rest == "" || rest == "!");
    NotAMute(actorTag, actor, tag, target);
    UnmuteOf(actorTag, actor, tag, target);
    ThirdForm(a + after);
  }

  lemma UnmuteOf(actorTag: string, actor: string, tag: string, target: string)
    requires IsTag(actorTag) && IsName(actor) && IsTag(tag) && IsName(target)
    ensures Unmute(Printed(actorTag, actor) + (HAS_UNMUTED + Printed(tag, target)))
            == Some(Notice(UNMUTE, target, Some(actor), None))
  {
    var a, t := Printed(actorTag, actor), Printed(tag, target);
    PrintedShape(actorTag, actor);
    PrintedShape(tag, target);
    assert OneLine(a + (HAS_UNMUTED + t));
    HasUnmuted("");
    hide Printed, IsTag, Named, ActorOf, Find, OneLine, SaysHas, HAS_UNMUTED;
    HasAt(actorTag, actor, HAS_UNMUTED, t);
    NamedPrinted(UNMUTE, tag, target, actorTag, actor, None);
  }

  /** Whatever stands before the last blank of the line, it is not " for". */
  lemma NotAMute(actorTag: string, actor: string, tag: string, target: string)
    requires IsTag(tag) && IsName(target)
    ensures Mute(Printed(actorTag, actor) + (HAS_UNMUTED + Printed(tag, target))).None?
  {
    var a, t := Printed(actorTag, actor), Printed(tag, target);
    var text := a + (HAS_UNMUTED + t);
    NoSpaceInName(target);
    assert ' ' !in target;
    var head := if tag == "" then a + HAS_UNMUTED[..12] else a + HAS_UNMUTED + "[" + tag + "]";
    assert HAS_UNMUTED == HAS_UNMUTED[..12] + " ";
    assert text == head + " " + target;
    LastBlankIs(head, target);
    var p := |head|;
    assert text[p - 1] == head[p - 1] != 'r';
    hide LastBlank, HAS_UNMUTED, HAS_MUTED, IsDuration, Printed;
    if p >= 4 {
      assert text[p - 4..p + 1][3] == text[p - 1] != " for "[3];
    }
    assert SplitFor(text).None?;
  }
}
