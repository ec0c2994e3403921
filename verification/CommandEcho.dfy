/** Watching chat for the answer to a command just typed (apps/bridge-bot/src/command-echo.ts). */
module CommandEcho {
  import opened Prelude
  import opened ChatText
  import opened ModNotice

  /** A chat line, and whether the table of refusals matches it. */
  datatype Line = Line(text: string, refusal: bool)

  datatype Watch = Watch(guildId: string, correlationId: string, intent: Intent, at: int)

  datatype Verdict = Confirmed(watch: Watch) | Refused(watch: Watch)

  /** `confirmed` is history: for each name, when a kick of it was last confirmed. */
  datatype State = State(
    windowMs: int,
    memoryMs: int,
    watches: seq<Watch>,
    ourKicks: map<string, int>,
    confirmed: map<string, int>)

  function Initial(windowMs: int, memoryMs: int): State {
    State(windowMs, memoryMs, [], map[], map[])
  }

  function Younger(cutoff: int): Watch -> bool {
    (w: Watch) => w.at > cutoff
  }

  function Remembered(kicks: map<string, int>, cutoff: int): map<string, int> {
    map ign | ign in kicks && kicks[ign] > cutoff :: kicks[ign]
  }

  function Expired(s: State, now: int): State {
    s.(watches := Filter(s.watches, Younger(now - s.windowMs)), ourKicks := Remembered(s.ourKicks, now - s.memoryMs))
  }

  function Watched(s: State, guildId: string, correlationId: string, command: string, now: int): State {
    var intent := ParseCommandIntent(command);
    if intent.None? then s
    else
      var s' := Expired(s, now);
      s'.(watches := s'.watches + [Watch(guildId, correlationId, intent.value, now)])
  }

  /** Position of the oldest watch for this kind and target, or the number of watches. */
  function FirstFor(ws: seq<Watch>, intent: Intent): (i: nat)
    ensures i <= |ws|
    ensures i < |ws| ==> ws[i].intent == intent
    ensures forall j :: 0 <= j < i ==> ws[j].intent != intent
  {
    if ws == [] || ws[0].intent == intent then 0 else 1 + FirstFor(ws[1..], intent)
  }

  lemma {:induction false} FirstForIs(ws: seq<Watch>, intent: Intent, i: nat)
    requires i <= |ws| && (i < |ws| ==> ws[i].intent == intent)
    requires forall j :: 0 <= j < i ==> ws[j].intent != intent
    ensures FirstFor(ws, intent) == i
  {
  }

  predicate IsPunitive(n: Notice) {
    n.kind.KICK? || n.kind.MUTE? || n.kind.UNMUTE?
  }

  function Settled(s: State, i: nat): State
    requires i < |s.watches|
  {
    s.(watches := s.watches[..i] + s.watches[i + 1..])
  }

  function Kicked(s: State, name: string, now: int): State {
    s.(ourKicks := s.ourKicks[name := now], confirmed := s.confirmed[name := now])
  }

  /** What a line is about: the command it answers, when it is a punitive notice. */
  function AnsweredIntent(line: Line): Option<Intent> {
    var notice := ParsePunitive(Trim(line.text));
    if notice.None? || !IsPunitive(notice.value) then None
    else Some(Intent(notice.value.kind, Lower(notice.value.target)))
  }

  /** Which watch a line settles, and how: a refusal the oldest one, a notice the oldest one it names. */
  function Answer(s: State, line: Line): Option<(nat, Verdict)> {
    if s.watches == [] || Trim(line.text) == [] then None
    else if line.refusal then Some((0, Refused(s.watches[0])))
    else
      var intent := AnsweredIntent(line);
      if intent.None? || FirstFor(s.watches, intent.value) == |s.watches| then None
      else
        var i := FirstFor(s.watches, intent.value);
        Some((i, Confirmed(s.watches[i])))
  }

  function Observed(s: State, line: Line, now: int): (State, Option<Verdict>) {
    var s1 := Expired(s, now);
    var answer := Answer(s1, line);
    if answer.None? then (s1, None)
    else
      var s2 := Settled(s1, answer.value.0);
      var verdict := answer.value.1;
      (if verdict.Confirmed? && verdict.watch.intent.kind.KICK? then Kicked(s2, verdict.watch.intent.target, now) else s2,
       Some(verdict))
  }

  predicate Claims(s: State, ign: string, now: int) {
    Lower(ign) in s.ourKicks && now - s.ourKicks[Lower(ign)] <= s.memoryMs
  }

  function Claimed(s: State, ign: string, now: int): State {
    if Lower(ign) in s.ourKicks && now - s.ourKicks[Lower(ign)] > s.memoryMs
    then s.(ourKicks := s.ourKicks - {Lower(ign)}) else s
  }

  class CommandEcho {
    const windowMs: int
    const memoryMs: int
    var watches: seq<Watch>
    /** Lower-cased name, and when we kicked them. */
    var ourKicks: map<string, int>
    ghost var confirmed: map<string, int>

    ghost function View(): State
      reads this
    {
      State(windowMs, memoryMs, watches, ourKicks, confirmed)
    }

    constructor (windowMs: int, memoryMs: int)
      ensures View() == Initial(windowMs, memoryMs)
    {
      this.windowMs, this.memoryMs := windowMs, memoryMs;
      watches, ourKicks, confirmed := [], map[], map[];
    }

    /** Watches past their window, and kicks past living memory. */
    method Expire(now: int)
      modifies `watches, `ourKicks
      ensures View() == Expired(old(View()), now)
    {
      var cutoff := now - windowMs;
      watches := Filter(watches, Younger(cutoff));
      var forget := now - memoryMs;
      var names := ourKicks.Keys;
      while names != {}
        invariant names <= old(ourKicks).Keys
        invariant watches == Filter(old(watches), Younger(cutoff))
        invariant ourKicks ==
                  map ign | ign in old(ourKicks) && (ign in names || old(ourKicks)[ign] > forget) :: old(ourKicks)[ign]
        decreases |names|
      {
        var ign :| ign in names;
        if ourKicks[ign] <= forget {
          ourKicks := ourKicks - {ign};
        }
        names := names - {ign};
      }
      assert ourKicks == Remembered(old(ourKicks), forget);
    }

    method StartWatch(guildId: string, correlationId: string, command: string, now: int)
      modifies this
      ensures View() == Watched(old(View()), guildId, correlationId, command, now)
    {
      var intent := ParseCommandIntent(command);
      if intent.None? {
        return;
      }
      Expire(now);
      watches := watches + [Watch(guildId, correlationId, intent.value, now)];
    }

    /** Offer one chat line. Returns the verdict when it was the answer to something we sent. */
    method Observe(line: Line, now: int) returns (verdict: Option<Verdict>)
      modifies this
      ensures (View(), verdict) == Observed(old(View()), line, now)
    {
      hide ParsePunitive, Trim, Expired;
      Expire(now);
      ghost var s1 := View();
      if |watches| == 0 {
        return None;
      }
      var text := Trim(line.text);
      if |text| == 0 {
        return None;
      }
      if line.refusal {
        var watch := watches[0];
        assert watches[1..] == watches[..0] + watches[0 + 1..];
        watches := watches[1..];
        return Some(Refused(watch));
      }
      var notice := ParsePunitive(text);
      if notice.None? || !IsPunitive(notice.value) {
        return None;
      }
      var wanted := Intent(notice.value.kind, Lower(notice.value.target));
      assert AnsweredIntent(line) == Some(wanted);
      hide AnsweredIntent;
      verdict := Confirm(wanted, now);
    }

    /** Settle the oldest watch for what the notice says, if there is one. */
    method Confirm(wanted: Intent, now: int) returns (verdict: Option<Verdict>)
      modifies this
      ensures var s := old(View());
              var i := FirstFor(s.watches, wanted);
              if i == |s.watches| then View() == s && verdict == None
              else
                && verdict == Some(Confirmed(s.watches[i]))
                && View() == if wanted.kind.KICK? then Kicked(Settled(s, i), wanted.target, now) else Settled(s, i)
    {
      var i := 0;
      while i < |watches| && watches[i].intent != wanted
        invariant 0 <= i <= |watches|
        invariant forall j :: 0 <= j < i ==> watches[j].intent != wanted
      {
        i := i + 1;
      }
      FirstForIs(watches, wanted, i);
      if i == |watches| {
        return None;
      }
      var watch := watches[i];
      watches := watches[..i] + watches[i + 1..];
      if wanted.kind.KICK? {
        ourKicks := ourKicks[wanted.target := now];
        confirmed := confirmed[wanted.target := now];
      }
      return Some(Confirmed(watch));
    }

    /** Did this bridge kick that player recently? */
    method ClaimedKick(ign: string, now: int) returns (ours: bool)
      modifies this
      ensures ours == Claims(old(View()), ign, now)
      ensures View() == Claimed(old(View()), ign, now)
    {
      var key := Lower(ign);
      if key !in ourKicks {
        return false;
      }
      if now - ourKicks[key] > memoryMs {
        ourKicks := ourKicks - {key};
        return false;
      }
      return true;
    }
  }
}
