/** What flood control answers, read off what happened before instead of off its keys
    (apps/bridge-bot/src/adapters.ts:264-311). */
module FloodHistory {
  import opened Prelude
  import opened FloodHash
  import opened FloodControl

  /** What duplicate suppression tells messages apart by: the guild, and the hash polynomial of the author's id, a colon
      and the text, modulo 2^32. */
  predicate Alike(a: Call, b: Call) {
    a.user.guildId == b.user.guildId && Hashed(a) == Hashed(b)
  }

  function Hashed(c: Call): nat {
    Polynomial(c.user.authorId + [58] + c.content) % 0x1_0000_0000
  }

  /** A message like this one was counted less than eight seconds ago. */
  predicate Repeated(h: seq<Answer>, c: Call) {
    exists a :: a in h && Counts(a) && Alike(a.call, c) && c.at < a.call.at + 8_000
  }

  /** The message got past duplicate suppression. */
  predicate Counts(a: Answer) {
    !a.verdict.Duplicate?
  }

  function Key(c: Call): (string, string) {
    DedupKey(c.user, c.content)
  }

  lemma KeyTellsApart(a: Call, b: Call)
    ensures Key(a) == Key(b) <==> Alike(a, b)
  {
    hide HashOf, Polynomial;
    SameKey(a.user.authorId + [COLON] + a.content, b.user.authorId + [COLON] + b.content);
  }

  /** When the author's messages got past duplicate suppression. */
  function Times(h: seq<Answer>, u: User): seq<int> {
    if h == [] then []
    else
      var a := h[|h| - 1];
      Times(h[..|h| - 1], u) + if Counts(a) && a.call.user == u then [a.call.at] else []
  }

  /** The message that opened the window the last one falls into: a window lasts ten seconds, and the next message
      after it opens another. */
  function Opening(times: seq<int>): int
    requires times != []
  {
    var last := times[|times| - 1];
    if |times| == 1 then last
    else
      var before := Opening(times[..|times| - 1]);
      if last < before + 10_000 then before else last
  }

  function Since(from: int): int -> bool {
    (t: int) => t >= from
  }

  /** How many messages share the window that `now` falls into. */
  function Crowd(times: seq<int>, now: int): nat {
    if times == [] || now >= Opening(times) + 10_000 then 0 else Count(times, Since(Opening(times)))
  }

  /** A message let through with a cooldown is still cooling down. */
  predicate Cooling(h: seq<Answer>, c: Call) {
    exists a :: a in h && Cools(a) && a.call.user == c.user && c.at < CooledAt(a)
  }

  predicate Cools(a: Answer) {
    a.verdict.Allowed? && a.call.cooldownSeconds > 0
  }

  function CooledAt(a: Answer): int {
    a.call.at + a.call.cooldownSeconds * 1000
  }

  function VerdictOf(h: seq<Answer>, c: Call): Verdict {
    if Repeated(h, c) then Duplicate
    else if Crowd(Times(h, c.user), c.at) >= 6 then Rate
    else if c.cooldownSeconds > 0 && Cooling(h, c) then Rate
    else Allowed
  }

  // ----- the keys are the history

  predicate DedupIsHistory(dedup: map<(string, string), int>, h: seq<Answer>) {
    && (forall a :: a in h && Counts(a) ==> Key(a.call) in dedup && dedup[Key(a.call)] >= a.call.at + DEDUP_WINDOW_MS)
    && (forall k :: k in dedup ==>
          exists a :: a in h && Counts(a) && Key(a.call) == k && dedup[k] == a.call.at + DEDUP_WINDOW_MS)
  }

  predicate CooldownIsHistory(cooldown: map<User, int>, h: seq<Answer>) {
    && (forall a :: a in h && Cools(a) ==> a.call.user in cooldown && cooldown[a.call.user] >= CooledAt(a))
    && (forall u :: u in cooldown ==> exists a :: a in h && Cools(a) && a.call.user == u && cooldown[u] == CooledAt(a))
  }

  ghost predicate RateIsHistory(rate: map<User, Window>, h: seq<Answer>) {
    forall u :: WindowIs(rate, u, Times(h, u))
  }

  predicate WindowIs(rate: map<User, Window>, u: User, times: seq<int>) {
    if times == [] then u !in rate
    else u in rate && rate[u] == Window(Count(times, Since(Opening(times))), Opening(times) + FLOOD_WINDOW_MS)
  }

  ghost predicate IsHistory(s: State, h: seq<Answer>) {
    DedupIsHistory(s.dedup, h) && RateIsHistory(s.rate, h) && CooldownIsHistory(s.cooldown, h)
  }

  lemma {:induction false} BeforeWindowEnds(times: seq<int>)
    requires times != []
    ensures Opening(times) in times && forall t :: t in times ==> t < Opening(times) + FLOOD_WINDOW_MS
  {
    var n := |times| - 1;
    assert times == times[..n] + [times[n]];
    if n > 0 {
      BeforeWindowEnds(times[..n]);
    }
  }

  /** Counting one more message. */
  lemma CountedNext(rate: map<User, Window>, u: User, times: seq<int>, now: int)
    requires WindowIs(rate, u, times) && forall t :: t in times ==> t <= now
    ensures var times' := times + [now];
            Counted(rate, u, now) == Window(Count(times', Since(Opening(times'))), Opening(times') + FLOOD_WINDOW_MS)
    ensures Counted(rate, u, now).count == Crowd(times, now) + 1
  {
    hide Count, Opening;
    var times' := times + [now];
    OpeningNext(times, now);
    CountOne(times, now, Since(Opening(times')));
    if times == [] {
      CountPositive(times, Since(now));
    } else {
      BeforeWindowEnds(times);
      CountPositive(times, Since(now));
    }
  }

  lemma OpeningNext(times: seq<int>, now: int)
    ensures Opening(times + [now]) ==
            if times != [] && now < Opening(times) + FLOOD_WINDOW_MS then Opening(times) else now
  {
    assert (times + [now])[..|times + [now]| - 1] == times;
  }

  lemma TimesNext(h: seq<Answer>, a: Answer, u: User)
    ensures Times(h + [a], u) == Times(h, u) + if Counts(a) && a.call.user == u then [a.call.at] else []
  {
    assert (h + [a])[..|h|] == h;
  }

  lemma {:induction false} TimesPast(h: seq<Answer>, u: User, now: int)
    requires forall a :: a in h ==> a.call.at <= now
    ensures forall t :: t in Times(h, u) ==> t <= now
  {
    if h != [] {
      TimesPast(h[..|h| - 1], u, now);
    }
  }

  lemma RateNext(rate: map<User, Window>, h: seq<Answer>, a: Answer)
    requires RateIsHistory(rate, h) && forall x :: x in h ==> x.call.at <= a.call.at
    ensures RateIsHistory(if Counts(a) then rate[a.call.user := Counted(rate, a.call.user, a.call.at)] else rate, h + [a])
  {
    hide WindowIs, Times, Counted;
    forall u
      ensures WindowIs(if Counts(a) then rate[a.call.user := Counted(rate, a.call.user, a.call.at)] else rate,
                       u, Times(h + [a], u))
    {
      assert WindowIs(rate, u, Times(h, u));
      TimesNext(h, a, u);
      TimesPast(h, u, a.call.at);
      WindowNext(rate, u, Times(h, u), a);
    }
  }

  lemma WindowNext(rate: map<User, Window>, u: User, times: seq<int>, a: Answer)
    requires WindowIs(rate, u, times) && forall t :: t in times ==> t <= a.call.at
    ensures WindowIs(if Counts(a) then rate[a.call.user := Counted(rate, a.call.user, a.call.at)] else rate,
                     u, times + if Counts(a) && a.call.user == u then [a.call.at] else [])
  {
    if Counts(a) && a.call.user == u {
      CountedNext(rate, u, times, a.call.at);
    } else {
      assert times + [] == times;
    }
  }

  lemma DedupNext(dedup: map<(string, string), int>, h: seq<Answer>, a: Answer)
    requires DedupIsHistory(dedup, h) && forall x :: x in h ==> x.call.at <= a.call.at
    ensures DedupIsHistory(if Counts(a) then dedup[Key(a.call) := a.call.at + DEDUP_WINDOW_MS] else dedup, h + [a])
  {
    hide Key;
    assert forall x :: x in h + [a] <==> x in h || x == a;
  }

  lemma CooldownNext(cooldown: map<User, int>, h: seq<Answer>, a: Answer)
    requires CooldownIsHistory(cooldown, h)
    requires Cools(a) ==> !Alive(cooldown, a.call.user, a.call.at)
    ensures CooldownIsHistory(if Cools(a) then cooldown[a.call.user := CooledAt(a)] else cooldown, h + [a])
  {
    assert forall x :: x in h + [a] <==> x in h || x == a;
  }

  lemma KeysSay(s: State, h: seq<Answer>, c: Call)
    requires IsHistory(s, h)
    ensures Alive(s.dedup, Key(c), c.at) <==> Repeated(h, c)
    ensures Alive(s.cooldown, c.user, c.at) <==> Cooling(h, c)
  {
    forall a | a in h ensures Key(a.call) == Key(c) <==> Alike(a.call, c) {
      KeyTellsApart(a.call, c);
    }
    hide Key, Alike;
  }

  lemma VerdictSays(s: State, h: seq<Answer>, c: Call)
    requires IsHistory(s, h) && forall a :: a in h ==> a.call.at <= c.at
    ensures Allow(s, c.user, c.content, c.cooldownSeconds, c.at).1 == VerdictOf(h, c)
  {
    KeysSay(s, h, c);
    TimesPast(h, c.user, c.at);
    assert WindowIs(s.rate, c.user, Times(h, c.user));
    hide Counted, Times, WindowIs, Crowd, RateIsHistory, DedupIsHistory, CooldownIsHistory, DedupKey, Repeated, Cooling;
    CountedNext(s.rate, c.user, Times(h, c.user), c.at);
  }

  /** Which keys a call sets. */
  lemma AllowSets(s: State, c: Call)
    ensures var (s', v) := Allow(s, c.user, c.content, c.cooldownSeconds, c.at);
            var a := Answer(c, v);
            && s'.dedup == (if Counts(a) then s.dedup[Key(c) := c.at + DEDUP_WINDOW_MS] else s.dedup)
            && s'.rate == (if Counts(a) then s.rate[c.user := Counted(s.rate, c.user, c.at)] else s.rate)
            && s'.cooldown == (if Cools(a) then s.cooldown[c.user := CooledAt(a)] else s.cooldown)
            && (Cools(a) ==> !Alive(s.cooldown, c.user, c.at))
  {
    hide DedupKey, Counted;
  }

  /** One call: the verdict is the history's, and the keys go on being the history. */
  lemma AllowSays(s: State, h: seq<Answer>, c: Call)
    requires IsHistory(s, h) && forall a :: a in h ==> a.call.at <= c.at
    ensures var (s', v) := Allow(s, c.user, c.content, c.cooldownSeconds, c.at);
            v == VerdictOf(h, c) && IsHistory(s', h + [Answer(c, v)])
  {
    hide Allow, Counted, RateIsHistory, DedupIsHistory, CooldownIsHistory, Key, Cools, Counts, CooledAt, VerdictOf;
    var a := Answer(c, Allow(s, c.user, c.content, c.cooldownSeconds, c.at).1);
    VerdictSays(s, h, c);
    AllowSets(s, c);
    RateNext(s.rate, h, a);
    DedupNext(s.dedup, h, a);
    CooldownNext(s.cooldown, h, a);
  }

  lemma {:induction false} RunSays(s: State, h: seq<Answer>, calls: seq<Call>, i: nat)
    requires IsHistory(s, h) && Chronological(calls) && i < |calls|
    requires forall a :: a in h ==> a.call.at <= calls[0].at
    ensures |Run(s, calls)| == |calls| && Run(s, calls)[i].call == calls[i]
    ensures Run(s, calls)[i].verdict == VerdictOf(h + Run(s, calls)[..i], calls[i])
    decreases |calls|
  {
    hide IsHistory, Allow, VerdictOf;
    var c := calls[0];
    var (s', v) := Allow(s, c.user, c.content, c.cooldownSeconds, c.at);
    var a := Answer(c, v);
    var rest := Run(s', calls[1..]);
    AllowSays(s, h, c);
    RunLength(s', calls[1..]);
    assert Run(s, calls) == [a] + rest;
    if i == 0 {
      assert h + Run(s, calls)[..0] == h;
    } else {
      LaterThan(h, a, calls);
      RunSays(s', h + [a], calls[1..], i - 1);
      assert Run(s, calls)[..i] == [a] + rest[..i - 1];
      assert (h + [a]) + rest[..i - 1] == h + ([a] + rest[..i - 1]);
    }
  }

  lemma LaterThan(h: seq<Answer>, a: Answer, calls: seq<Call>)
    requires Chronological(calls) && |calls| > 1 && a.call == calls[0] && forall x :: x in h ==> x.call.at <= calls[0].at
    ensures Chronological(calls[1..]) && forall x :: x in h + [a] ==> x.call.at <= calls[1..][0].at
  {
    assert forall x :: x in h + [a] ==> x in h || x == a;
  }

  lemma {:induction false} RunLength(s: State, calls: seq<Call>)
    ensures |Run(s, calls)| == |calls|
    decreases |calls|
  {
    if calls != [] {
      var c := calls[0];
      RunLength(Allow(s, c.user, c.content, c.cooldownSeconds, c.at).0, calls[1..]);
    }
  }

  // ----- what a verdict depends on

  /** An earlier call can matter to `c`: the same author's, or one of the guild whose hash collides. */
  function Concerns(c: Call): Answer -> bool {
    (a: Answer) => a.call.user == c.user || Alike(a.call, c)
  }

  lemma {:induction false} TimesOfConcerned(h: seq<Answer>, c: Call)
    ensures Times(Filter(h, Concerns(c)), c.user) == Times(h, c.user)
  {
    if h != [] {
      var n := |h| - 1;
      assert h == h[..n] + [h[n]];
      TimesOfConcerned(h[..n], c);
      FilterOne(h[..n], h[n], Concerns(c));
      TimesNext(h[..n], h[n], c.user);
      TimesNext(Filter(h[..n], Concerns(c)), h[n], c.user);
      hide Times, Alike, Filter;
      assert Times(h[..n], c.user) + [] == Times(h[..n], c.user);
    }
  }

  /** Nobody else's messages have a say. */
  lemma VerdictIsLocal(h: seq<Answer>, c: Call)
    ensures VerdictOf(h, c) == VerdictOf(Filter(h, Concerns(c)), c)
  {
    TimesOfConcerned(h, c);
    forall a ensures a in Filter(h, Concerns(c)) <==> a in h && Concerns(c)(a) {
      FilterMember(h, Concerns(c), a);
    }
    hide Times, Crowd, Filter, Alike;
  }

  /** In particular two authors may say the same, unless their ids and texts collide. */
  lemma SameTextTwice(h: seq<Answer>, first: Answer, c: Call)
    requires !Alike(first.call, c) && first.call.user != c.user
    ensures VerdictOf(h + [first], c) == VerdictOf(h, c)
  {
    VerdictIsLocal(h, c);
    VerdictIsLocal(h + [first], c);
    FilterOne(h, first, Concerns(c));
  }

  /** Over any run, with the clock never going back, every verdict follows from the history alone: a message is refused
      exactly when one like it was counted in the last eight seconds, its window already holds six, or both it and a message
      let through before meet a cooldown that has not run out. */
  lemma VerdictIsHistory(calls: seq<Call>, i: nat)
    requires Chronological(calls) && i < |calls|
    ensures var h := Run(State(map[], map[], map[]), calls);
            |h| == |calls| && h[i] == Answer(calls[i], VerdictOf(h[..i], calls[i]))
  {
    var s := State(map[], map[], map[]);
    assert forall u :: Times([], u) == [];
    RunSays(s, [], calls, i);
    assert [] + Run(s, calls)[..i] == Run(s, calls)[..i];
  }
}
