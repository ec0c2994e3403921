/** How one line of a `/g online` reply is read (apps/bridge-bot/src/roster.ts:34-87, 111). Each recogniser does what
    its regular expression does on a cleaned line: one blank wherever there was white space, none at the ends. */
module RosterText {
  import opened Prelude
  import opened ChatText

  // ----- cleaning a line

  const SECTION_SIGN := '\U{00A7}'

  /** Drop the section sign and the colour letter behind it. */
  function StripColors(s: string): string {
    if s == [] then []
    else if s[0] == SECTION_SIGN && |s| > 1 && !IsLineEnd(s[1]) then StripColors(s[2..])
    else [s[0]] + StripColors(s[1..])
  }

  /** Every run of white space becomes one blank. */
  function Collapse(s: string): string {
    if s == [] then []
    else if !IsSpace(s[0]) then [s[0]] + Collapse(s[1..])
    else if |s| > 1 && IsSpace(s[1]) then Collapse(s[1..])
    else " " + Collapse(s[1..])
  }

  function Clean(raw: string): string {
    Trim(Collapse(StripColors(raw)))
  }

  // ----- the lines around the members

  predicate IsDivider(line: string) {
    |line| >= 5 && forall c :: c in line ==> c == '-'
  }

  datatype Title = GuildName | TotalMembers | OnlineMembers

  function TitleText(title: Title): string {
    match title
    case GuildName => "guild name:"
    case TotalMembers => "total members:"
    case OnlineMembers => "online members:"
  }

  /** The line starts with the title, in any case. */
  predicate Labelled(title: Title, line: string) {
    |line| >= |TitleText(title)| && Lower(line[..|TitleText(title)|]) == TitleText(title)
  }

  function GuildNameOf(line: string): Option<string> {
    if Labelled(GuildName, line) && |line| > |TitleText(GuildName)| then Some(Trim(line[|TitleText(GuildName)|..]))
    else None
  }

  /** Length of the run of digits at the front. */
  function DigitRun(s: string): (n: nat)
    ensures n <= |s|
    ensures forall i :: 0 <= i < n ==> IsDigit(s[i])
    ensures n < |s| ==> !IsDigit(s[n])
  {
    if s == [] || !IsDigit(s[0]) then 0 else 1 + DigitRun(s[1..])
  }

  function CountOf(title: Title, line: string): Option<nat> {
    if !Labelled(title, line) then None
    else
      var rest := TrimLeft(line[|TitleText(title)|..]);
      var n := DigitRun(rest);
      if n == 0 then None else Some(DigitsValue(rest[..n]))
  }

  /** The line that closes the block: the collector stops there. White space inside the title is not collapsed. */
  predicate IsRosterEnd(raw: string) {
    CountOf(OnlineMembers, Trim(StripColors(raw))).Some?
  }

  function DashesBefore(line: string): (n: nat)
    ensures n <= |line|
    ensures forall i :: 0 <= i < n ==> line[i] == '-'
    ensures n < |line| ==> line[n] != '-'
  {
    if line == [] || line[0] != '-' then 0 else 1 + DashesBefore(line[1..])
  }

  function DashesAfter(line: string): (n: nat)
    ensures n <= |line|
    ensures forall i :: |line| - n <= i < |line| ==> line[i] == '-'
    ensures n < |line| ==> line[|line| - 1 - n] != '-'
  {
    if line == [] || line[|line| - 1] != '-' then 0 else 1 + DashesAfter(line[..|line| - 1])
  }

  /** What stands between two runs of two or more dashes. With nothing but a blank between them the name is what
      backtracking leaves: the first dash of a long enough second run, or the blank itself, trimmed away. */
  function RankHeaderOf(line: string): Option<string> {
    var a, b := DashesBefore(line), DashesAfter(line);
    if a == |line| || a < 2 || b < 2 then None
    else
      var name := Trim(line[a..|line| - b]);
      Some(if name == [] && b >= 3 then "-" else name)
  }

  /** Apart from dividers, a line opens a section exactly when two dashes open and close it and something fits
      between them. */
  lemma HeaderExactly(line: string)
    requires !IsDivider(line)
    ensures RankHeaderOf(line).Some? <==>
            |line| >= 5 && line[0] == line[1] == line[|line| - 2] == line[|line| - 1] == '-'
  {
    var a, b := DashesBefore(line), DashesAfter(line);
    if a == |line| {
      assert forall c :: c in line ==> c == '-';
    } else if a >= 2 && b >= 2 {
      assert a + b < |line|;
      assert line[0] == '-' && line[1] == '-' && line[|line| - 1] == '-' && line[|line| - 2] == '-';
    }
  }

  // ----- a line of members

  /** The first position of `c`, or the length. */
  function IndexOf(s: string, c: char): (i: nat)
    ensures i <= |s|
    ensures forall k :: 0 <= k < i ==> s[k] != c
    ensures i < |s| ==> s[i] == c
  {
    if s == [] || s[0] == c then 0 else 1 + IndexOf(s[1..], c)
  }

  /** Remove everything from each `[` to the next `]`. */
  function StripTags(s: string): string
    decreases |s|
  {
    if s == [] then []
    else if s[0] == '[' && IndexOf(s, ']') < |s| then StripTags(s[IndexOf(s, ']') + 1..])
    else [s[0]] + StripTags(s[1..])
  }

  const DOTS: string := "\U{25CF}\U{23FA}\U{2022}\U{00B7}*"

  /** Presence dots vanish, commas become blanks. */
  function Plain(s: string): string {
    if s == [] then []
    else (if s[0] in DOTS then [] else if s[0] == ',' then " " else [s[0]]) + Plain(s[1..])
  }

  /** Every name-shaped token, at most 16 characters at a time. */
  function Names(s: string): (r: seq<string>)
    ensures forall n :: n in r ==> IsName(n)
    decreases |s|
  {
    if s == [] then []
    else if !IsWordChar(s[0]) then Names(s[1..])
    else
      var n := Min(16, WordRun(s));
      assert s[..n][0] == s[0];
      [s[..n]] + Names(s[n..])
  }

  predicate IsTalk(line: string) {
    exists c :: c in line && c in ":<>"
  }

  function MembersOf(line: string): (r: seq<string>)
    ensures forall n :: n in r ==> IsName(n)
  {
    if IsTalk(line) then [] else Names(Plain(StripTags(line)))
  }
}
