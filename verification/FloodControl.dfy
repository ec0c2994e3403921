/** Duplicate suppression, the hard flood window and the relay cooldown (apps/bridge-bot/src/adapters.ts:264-311),
    over keys that expire. Each call is one step with one reading of the clock. */
module FloodControl {
  import opened Prelude
  import opened FloodHash

  const FLOOD_LIMIT: nat := 6
  const FLOOD_WINDOW_MS: int := 10_000
  const DEDUP_WINDOW_MS: int := 8_000

  type Text = seq<CodeUnit>

  datatype User = User(guildId: string, authorId: Text)

  datatype Verdict = Allowed | Duplicate | Rate

  datatype Window = Window(count: nat, expiry: int)

  datatype State = State(dedup: map<(string, string), int>, rate: map<User, Window>, cooldown: map<User, int>)

  const COLON: CodeUnit := 58

  function DedupKey(u: User, content: Text): (string, string) {
    (u.guildId, HashOf(u.authorId + [COLON] + content))
  }

  /** A key is there until its expiry. */
  predicate Alive<K>(keys: map<K, int>, k: K, now: int) {
    k in keys && now < keys[k]
  }

  /** `INCR`, with the expiry set by whoever finds the key gone. */
  function Counted(rate: map<User, Window>, u: User, now: int): Window {
    if u in rate && now < rate[u].expiry then Window(rate[u].count + 1, rate[u].expiry)
    else Window(1, now + FLOOD_WINDOW_MS)
  }

  function Allow(s: State, u: User, content: Text, cooldownSeconds: nat, now: int): (State, Verdict) {
    var key := DedupKey(u, content);
    if Alive(s.dedup, key, now) then (s, Duplicate)
    else
      var window := Counted(s.rate, u, now);
      var s1 := s.(dedup := s.dedup[key := now + DEDUP_WINDOW_MS], rate := s.rate[u := window]);
      if window.count > FLOOD_LIMIT then (s1, Rate)
      else if cooldownSeconds == 0 then (s1, Allowed)
      else if Alive(s.cooldown, u, now) then (s1, Rate)
      else (s1.(cooldown := s.cooldown[u := now + cooldownSeconds * 1000]), Allowed)
  }

  class FloodControlImpl {
    var dedup: map<(string, string), int>
    var rate: map<User, Window>
    var cooldown: map<User, int>

    ghost function View(): State
      reads this
    {
      State(dedup, rate, cooldown)
    }

    constructor ()
      ensures View() == State(map[], map[], map[])
    {
      dedup, rate, cooldown := map[], map[], map[];
    }

    /** `SET key 1 NX EX`, over one of the key families. */
    static method SetNx<K>(keys: map<K, int>, k: K, now: int, ttl: int) returns (keys': map<K, int>, set_: bool)
      ensures set_ == !Alive(keys, k, now)
      ensures keys' == if set_ then keys[k := now + ttl] else keys
    {
      if k in keys && now < keys[k] {
        return keys, false;
      }
      return keys[k := now + ttl], true;
    }

    method AllowMessage(u: User, content: Text, cooldownSeconds: nat, now: int) returns (v: Verdict)
      modifies this
      ensures (View(), v) == Allow(old(View()), u, content, cooldownSeconds, now)
    {
      var hash := SimpleHash(u.authorId + [COLON] + content);
      var fresh_;
      dedup, fresh_ := SetNx(dedup, (u.guildId, hash), now, DEDUP_WINDOW_MS);
      if !fresh_ {
        return Duplicate;
      }
      var window := Counted(rate, u, now);
      rate := rate[u := window];
      if window.count > FLOOD_LIMIT {
        return Rate;
      }
      if cooldownSeconds > 0 {
        cooldown, fresh_ := SetNx(cooldown, u, now, cooldownSeconds * 1000);
        if !fresh_ {
          return Rate;
        }
      }
      return Allowed;
    }
  }

  // ----- runs

  datatype Call = Call(user: User, content: Text, cooldownSeconds: nat, at: int)

  /** A call and how it was answered. */
  datatype Answer = Answer(call: Call, verdict: Verdict)

  function Run(s: State, calls: seq<Call>): seq<Answer>
    decreases |calls|
  {
    if calls == [] then []
    else
      var c := calls[0];
      var (s', v) := Allow(s, c.user, c.content, c.cooldownSeconds, c.at);
      [Answer(c, v)] + Run(s', calls[1..])
  }

  predicate Chronological(calls: seq<Call>) {
    forall i, j :: 0 <= i < j < |calls| ==> calls[i].at <= calls[j].at
  }

  function AllowedIn(u: User, from: int, until: int): Answer -> bool {
    (a: Answer) => a.verdict.Allowed? && a.call.user == u && from <= a.call.at <= until
  }

  /** How many messages of `u` were let through between two moments, both included. */
  function Passed(h: seq<Answer>, u: User, from: int, until: int): nat {
    Count(h, AllowedIn(u, from, until))
  }

  /** Every key remembers the answers that set it. */
  predicate KeysRemember(s: State, h: seq<Answer>) {
    && (forall a :: a in h && a.verdict.Allowed? ==>
          var key := DedupKey(a.call.user, a.call.content);
          key in s.dedup && s.dedup[key] >= a.call.at + DEDUP_WINDOW_MS)
    && (forall a :: a in h && a.verdict.Allowed? && a.call.cooldownSeconds > 0 ==>
          a.call.user in s.cooldown && s.cooldown[a.call.user] >= a.call.at + a.call.cooldownSeconds * 1000)
  }

  /** The current window has let through at most its count, the stretch before it at most one window's worth. */
  predicate WindowsRemember(s: State, h: seq<Answer>, u: User, clock: int) {
    && (forall a :: a in h ==> a.call.at <= clock)
    && (u !in s.rate ==> forall a :: a in h && a.call.user == u ==> !a.verdict.Allowed?)
    && (u in s.rate ==>
          var start := s.rate[u].expiry - FLOOD_WINDOW_MS;
          && start <= clock
          && (forall a :: a in h && a.call.user == u && a.verdict.Allowed? ==> a.call.at < s.rate[u].expiry)
          && Passed(h, u, start, clock) <= Min(s.rate[u].count, FLOOD_LIMIT)
          && Passed(h, u, start - FLOOD_WINDOW_MS, start - 1) <= FLOOD_LIMIT)
  }

  lemma {:induction false} CountWeaker<T>(s: seq<T>, p: T -> bool, q: T -> bool)
    requires forall x :: x in s && p(x) ==> q(x)
    ensures Count(s, p) <= Count(s, q)
  {
    if s != [] {
      CountWeaker(s[1..], p, q);
    }
  }

  lemma {:induction false} CountCovered<T>(s: seq<T>, p: T -> bool, q: T -> bool, r: T -> bool)
    requires forall x :: x in s && p(x) ==> q(x) || r(x)
    ensures Count(s, p) <= Count(s, q) + Count(s, r)
  {
    if s != [] {
      CountCovered(s[1..], p, q, r);
    }
  }

  /** Any stretch of one window's length that reaches the present is covered by the current window and the
      stretch before it. */
  lemma StretchCovered(h: seq<Answer>, u: User, start: int, clock: int, t: int)
    requires start <= clock <= t + FLOOD_WINDOW_MS
    requires forall a :: a in h ==> a.call.at <= clock
    ensures Passed(h, u, t, t + FLOOD_WINDOW_MS)
            <= Passed(h, u, start, clock) + Passed(h, u, start - FLOOD_WINDOW_MS, start - 1)
  {
    CountCovered(h, AllowedIn(u, t, t + FLOOD_WINDOW_MS), AllowedIn(u, start, clock),
                 AllowedIn(u, start - FLOOD_WINDOW_MS, start - 1));
  }

  lemma LaterWindows(s: State, h: seq<Answer>, u: User, clock: int, now: int)
    requires WindowsRemember(s, h, u, clock) && clock <= now
    ensures WindowsRemember(s, h, u, now)
  {
    if u in s.rate {
      var start := s.rate[u].expiry - FLOOD_WINDOW_MS;
      CountWeaker(h, AllowedIn(u, start, now), AllowedIn(u, start, clock));
    }
  }

  /** An answer that lets nothing of `u` through leaves every stretch as it was. */
  lemma PassedUnchanged(h: seq<Answer>, a: Answer, u: User, from: int, until: int)
    ensures Passed(h + [a], u, from, until) == Passed(h, u, from, until) + if AllowedIn(u, from, until)(a) then 1 else 0
  {
    CountOne(h, a, AllowedIn(u, from, until));
  }

  /** The window the call is counted in, before its answer is recorded. */
  lemma CountedKeeps(s: State, h: seq<Answer>, u: User, now: int)
    requires WindowsRemember(s, h, u, now)
    ensures var w := Counted(s.rate, u, now);
            var start := w.expiry - FLOOD_WINDOW_MS;
            && start <= now < w.expiry
            && (forall a :: a in h && a.call.user == u && a.verdict.Allowed? ==> a.call.at < w.expiry)
            && Passed(h, u, start, now) <= Min(w.count - 1, FLOOD_LIMIT)
            && Passed(h, u, start - FLOOD_WINDOW_MS, start - 1) <= FLOOD_LIMIT
  {
    if u !in s.rate {
      CountPositive(h, AllowedIn(u, now, now));
      CountPositive(h, AllowedIn(u, now - FLOOD_WINDOW_MS, now - 1));
    } else if now >= s.rate[u].expiry {
      CountPositive(h, AllowedIn(u, now, now));
      var start := s.rate[u].expiry - FLOOD_WINDOW_MS;
      CountWeaker(h, AllowedIn(u, now - FLOOD_WINDOW_MS, now - 1), AllowedIn(u, start, now));
    }
  }

  lemma WindowsStep(s: State, h: seq<Answer>, c: Call, u: User)
    requires WindowsRemember(s, h, u, c.at)
    ensures var (s', v) := Allow(s, c.user, c.content, c.cooldownSeconds, c.at);
            WindowsRemember(s', h + [Answer(c, v)], u, c.at)
  {
    var (s', v) := Allow(s, c.user, c.content, c.cooldownSeconds, c.at);
    var a := Answer(c, v);
    var h' := h + [a];
    if c.user == u && !v.Duplicate? {
      CountedKeeps(s, h, u, c.at);
      var start := s'.rate[u].expiry - FLOOD_WINDOW_MS;
      PassedUnchanged(h, a, u, start, c.at);
      PassedUnchanged(h, a, u, start - FLOOD_WINDOW_MS, start - 1);
    } else if u in s.rate {
      var start := s.rate[u].expiry - FLOOD_WINDOW_MS;
      PassedUnchanged(h, a, u, start, c.at);
      PassedUnchanged(h, a, u, start - FLOOD_WINDOW_MS, start - 1);
    }
    assert forall x :: x in h' <==> x in h || x == a;
  }

  /** The stretch that starts at `t` never lets more than two windows' worth through. */
  lemma StretchStep(s: State, h: seq<Answer>, c: Call, u: User, t: int)
    requires WindowsRemember(s, h, u, c.at) && Passed(h, u, t, t + FLOOD_WINDOW_MS) <= 2 * FLOOD_LIMIT
    ensures var (s', v) := Allow(s, c.user, c.content, c.cooldownSeconds, c.at);
            Passed(h + [Answer(c, v)], u, t, t + FLOOD_WINDOW_MS) <= 2 * FLOOD_LIMIT
  {
    var (s', v) := Allow(s, c.user, c.content, c.cooldownSeconds, c.at);
    var a := Answer(c, v);
    PassedUnchanged(h, a, u, t, t + FLOOD_WINDOW_MS);
    if AllowedIn(u, t, t + FLOOD_WINDOW_MS)(a) {
      CountedKeeps(s, h, u, c.at);
      StretchCovered(h, u, Counted(s.rate, u, c.at).expiry - FLOOD_WINDOW_MS, c.at, t);
    }
  }

  lemma KeysStep(s: State, h: seq<Answer>, c: Call)
    requires KeysRemember(s, h) && forall a :: a in h ==> a.call.at <= c.at
    ensures var (s', v) := Allow(s, c.user, c.content, c.cooldownSeconds, c.at);
            KeysRemember(s', h + [Answer(c, v)])
  {
    var (s', v) := Allow(s, c.user, c.content, c.cooldownSeconds, c.at);
    assert forall x :: x in h + [Answer(c, v)] <==> x in h || x == Answer(c, v);
  }

  /** What two answers to the same user say about each other. */
  predicate Apart(earlier: Answer, later: Answer) {
    earlier.verdict.Allowed? && later.verdict.Allowed? && earlier.call.user == later.call.user ==>
      && (earlier.call.content == later.call.content ==> later.call.at - earlier.call.at >= DEDUP_WINDOW_MS)
      && (earlier.call.cooldownSeconds > 0 && later.call.cooldownSeconds > 0 ==>
            later.call.at - earlier.call.at >= earlier.call.cooldownSeconds * 1000)
  }

  predicate AllApart(h: seq<Answer>) {
    forall i, j :: 0 <= i < j < |h| ==> Apart(h[i], h[j])
  }

  lemma HistoryApart(s: State, h: seq<Answer>, c: Call)
    requires KeysRemember(s, h) && AllApart(h)
    ensures AllApart(h + [Answer(c, Allow(s, c.user, c.content, c.cooldownSeconds, c.at).1)])
  {
  }

  lemma {:induction false} RunKeeps(s: State, h: seq<Answer>, calls: seq<Call>, u: User, clock: int, t: int)
    requires Chronological(calls) && (calls != [] ==> clock <= calls[0].at)
    requires KeysRemember(s, h) && WindowsRemember(s, h, u, clock) && AllApart(h)
    requires Passed(h, u, t, t + FLOOD_WINDOW_MS) <= 2 * FLOOD_LIMIT
    ensures AllApart(h + Run(s, calls))
    ensures Passed(h + Run(s, calls), u, t, t + FLOOD_WINDOW_MS) <= 2 * FLOOD_LIMIT
    decreases |calls|
  {
    if calls == [] {
      assert h + Run(s, calls) == h;
    } else {
      var c := calls[0];
      var (s', v) := Allow(s, c.user, c.content, c.cooldownSeconds, c.at);
      var a := Answer(c, v);
      assert forall x :: x in h ==> x.call.at <= c.at;
      assert h + Run(s, calls) == (h + [a]) + Run(s', calls[1..]);
      hide Allow, KeysRemember, WindowsRemember, Passed, Run;
      LaterWindows(s, h, u, clock, c.at);
      WindowsStep(s, h, c, u);
      StretchStep(s, h, c, u, t);
      KeysStep(s, h, c);
      HistoryApart(s, h, c);
      hide AllApart;
      RunKeeps(s', h + [a], calls[1..], u, c.at, t);
    }
  }

  /** Over any run, with the clock never going back: of one author's messages at most twelve get through in any ten
      seconds; the same message gets through again only eight seconds later; and two messages that both met a
      cooldown are as far apart as the first one's. */
  lemma FloodIsLimited(calls: seq<Call>, u: User, t: int)
    requires Chronological(calls)
    ensures var h := Run(State(map[], map[], map[]), calls);
            && Passed(h, u, t, t + FLOOD_WINDOW_MS) <= 12
            && forall i, j :: 0 <= i < j < |h| ==> Apart(h[i], h[j])
  {
    var s := State(map[], map[], map[]);
    var h := Run(s, calls);
    RunKeeps(s, [], calls, u, if calls == [] then 0 else calls[0].at, t);
    assert [] + h == h;
  }
}
