/** What a typed line asks for: an answer to a join request, or moderation
    (apps/bridge-bot/src/transport.ts:643; apps/bridge-bot/src/command-echo.ts:71-81). */
module TypedLines {
  import opened Prelude
  import opened ChatText
  import opened ModNotice

  /** Behind this word, read without regard to case, there is nothing but a name. */
  predicate NamedAfter(command: string, word: string) {
    |word| <= |command| && Lower(command[..|word|]) == word && IsName(command[|word|..])
  }

  /** Reading two words one after the other is reading them together. */
  lemma AfterBoth(command: string, first: string, second: string)
    ensures After(command, first + second) ==
            if After(command, first).None? then None else After(After(command, first).value, second)
  {
    hide Lower;
    var n, m := |first|, |second|;
    if n + m <= |command| {
      assert command[n..][m..] == command[n + m..] && command[n..][..m] == command[n..n + m];
      LowerSplit(command[..n + m], n, first, second);
      assert command[..n + m][..n] == command[..n] && command[..n + m][n..] == command[n..n + m];
    }
  }

  lemma AfterTwice(command: string, first: string, second: string)
    ensures After(command, first).Some? && After(After(command, first).value, second).Some? &&
            IsName(After(After(command, first).value, second).value)
            <==> NamedAfter(command, first + second)
  {
    AfterBoth(command, first, second);
  }

  lemma LowerSplit(s: string, n: nat, first: string, second: string)
    requires n <= |s| && |first| == n && |first| + |second| == |s|
    ensures Lower(s) == first + second <==> Lower(s[..n]) == first && Lower(s[n..]) == second
  {
    assert Lower(s) == Lower(s[..n]) + Lower(s[n..]);
    assert (first + second)[..n] == first && (first + second)[n..] == second;
    assert Lower(s)[..n] == Lower(s[..n]) && Lower(s)[n..] == Lower(s[n..]);
  }

  /** A join answer is one of four words and a name, and nothing else is. */
  lemma JoinAnswersExactly(command: string)
    ensures IsJoinAnswer(command) <==>
            || NamedAfter(command, "/g accept ") || NamedAfter(command, "/g deny ")
            || NamedAfter(command, "/guild accept ") || NamedAfter(command, "/guild deny ")
  {
    FourWords();
    AfterTwice(command, "/g ", "accept ");
    AfterTwice(command, "/g ", "deny ");
    AfterTwice(command, "/guild ", "accept ");
    AfterTwice(command, "/guild ", "deny ");
    OneGuildWord(command);
    hide After, NamedAfter, IsName;
  }

  lemma FourWords()
    ensures "/g " + "accept " == "/g accept " && "/g " + "deny " == "/g deny "
    ensures "/guild " + "accept " == "/guild accept " && "/guild " + "deny " == "/guild deny "
  {
  }

  lemma OneGuildWord(command: string)
    ensures After(command, "/guild ").Some? ==> After(command, "/g ").None?
  {
    if After(command, "/guild ").Some? {
      AfterParts(command, "/guild ");
      AfterMismatch(command, "/g ", 2);
    }
  }

  // ----- what a typed line asks for

  /** The line opens with this word, in any case, and a whole name, the target in lower case. */
  ghost predicate Orders(line: string, word: string, target: string) {
    |word| <= |line| && Lower(line[..|word|]) == word && exists n :: NamesFirst(line[|word|..], target, n)
  }

  predicate NamesFirst(rest: string, target: string, n: int) {
    && 1 <= n <= 16 && n <= |rest| && IsName(rest[..n]) && Lower(rest[..n]) == target
    && (n < |rest| ==> !IsWordChar(rest[n]))
  }

  ghost predicate OrdersEither(line: string, verb: string, target: string) {
    Orders(line, "/g " + verb, target) || Orders(line, "/guild " + verb, target)
  }

  lemma IntentOfExactly(kind: Kind, rest: string, target: string)
    ensures IntentOf(kind, rest) == Some(Intent(kind, target)) <==> exists n :: NamesFirst(rest, target, n)
  {
    var n := WordRun(rest);
    if 1 <= n <= 16 && Lower(rest[..n]) == target {
      assert NamesFirst(rest, target, n);
    }
    if k :| NamesFirst(rest, target, k) {
      assert forall i :: 0 <= i < k ==> rest[i] == rest[..k][i] && rest[..k][i] in rest[..k];
      assert k == n;
    }
  }

  function TypedVerb(kind: Kind): string {
    match kind
    case KICK => "kick "
    case MUTE => "mute "
    case UNMUTE => "unmute "
    case PROMOTE => "promote "
    case DEMOTE => "demote "
  }

  /** Behind the guild word, one verb and no other. */
  lemma VerbExactly(rest: string, kind: Kind, verb: string, target: string)
    requires verb == TypedVerb(kind)
    ensures IntentAfterGuild(rest) == Some(Intent(kind, target)) <==>
            After(rest, verb).Some? && exists n :: NamesFirst(After(rest, verb).value, target, n)
  {
    if After(rest, verb).Some? {
      AfterParts(rest, verb);
      OtherVerbs(rest, verb);
      IntentOfExactly(kind, After(rest, verb).value, target);
    }
    hide After, NamesFirst, IsName;
  }

  lemma OtherVerbs(rest: string, verb: string)
    requires After(rest, verb).Some? && verb in VERBS
    ensures forall other :: other in VERBS && other != verb ==> After(rest, other).None?
  {
    forall other | other in VERBS && other != verb ensures After(rest, other).None? {
      assert LowerChar(rest[0]) == Lower(rest[..|verb|])[0] == verb[0] != other[0];
      AfterMismatch(rest, other, 0);
    }
  }

  const VERBS := ["kick ", "mute ", "unmute ", "promote ", "demote "]

  /** A typed line is watched exactly when it is one of five verbs behind one of two words, in any case, and a name. */
  lemma IntentExactly(command: string, kind: Kind, target: string)
    ensures var line := Trim(command);
            ParseCommandIntent(command) == Some(Intent(kind, target)) <==>
            match kind
            case KICK => OrdersEither(line, "kick ", target)
            case MUTE => OrdersEither(line, "mute ", target)
            case UNMUTE => OrdersEither(line, "unmute ", target)
            case PROMOTE => OrdersEither(line, "promote ", target)
            case DEMOTE => OrdersEither(line, "demote ", target)
  {
    hide IntentAfterGuild, NamesFirst, After;
    match kind
    case KICK => OneVerb(command, KICK, "kick ", target);
    case MUTE => OneVerb(command, MUTE, "mute ", target);
    case UNMUTE => OneVerb(command, UNMUTE, "unmute ", target);
    case PROMOTE => OneVerb(command, PROMOTE, "promote ", target);
    case DEMOTE => OneVerb(command, DEMOTE, "demote ", target);
  }

  lemma OneVerb(command: string, kind: Kind, verb: string, target: string)
    requires verb == TypedVerb(kind)
    ensures ParseCommandIntent(command) == Some(Intent(kind, target)) <==> OrdersEither(Trim(command), verb, target)
  {
    hide IntentAfterGuild, NamesFirst, Trim;
    var line := Trim(command);
    OneGuildWord(line);
    AfterBoth(line, "/g ", verb);
    AfterBoth(line, "/guild ", verb);
    var rest := AfterGuildWord(line);
    if rest.Some? {
      VerbExactly(rest.value, kind, verb, target);
    }
    hide After;
  }
}
