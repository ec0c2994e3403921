/** The fleet's health said out loud (apps/admin-bot/src/watchtower.ts:27-137): one reading of the fleet, and the
    state machine that decides which readings are worth a post. */
module Watchtower {
  import opened Prelude

  const WATCHED_SERVICES: seq<string> := ["bridge-bot", "admin-bot", "workers", "web-panel"]
  const BEAT_STALE_MS := 90_000

  datatype FleetStatus = OK | DEGRADED | DOWN

  /** `at` is the parsed time of the beat, None when it does not parse. */
  datatype Beat = Beat(service: string, at: Option<int>)
  datatype Component = Component(name: string, status: FleetStatus)
  datatype FleetReport = FleetReport(status: FleetStatus, silent: seq<string>, unhealthy: seq<Component>)

  // ----- one reading

  function LatestOf(freshest: map<string, int>, service: string): int {
    if service in freshest then freshest[service] else 0
  }

  /** A parseable beat of the service no older than the limit. */
  predicate Beating(beats: seq<Beat>, service: string, now: int) {
    exists b :: b in beats && b.service == service && b.at.Some? && now - b.at.value <= BEAT_STALE_MS
  }

  function Unwell(c: Component): bool {
    c.status != OK
  }

  function Quiet(freshest: map<string, int>, now: int): string -> bool {
    (s: string) => now - LatestOf(freshest, s) > BEAT_STALE_MS
  }

  function Absent(beats: seq<Beat>, now: int): string -> bool {
    (s: string) => now > BEAT_STALE_MS && !Beating(beats, s, now)
  }

  /** How the status follows from what is silent and what is unwell. */
  predicate Coherent(r: FleetReport) {
    && (r.status == DOWN <==> (exists c :: c in r.unhealthy && c.status == DOWN) || |r.silent| > 1)
    && (r.status == OK <==> r.silent == [] && r.unhealthy == [])
  }

  /** The newest beat of each service, for all the map says about it. */
  predicate Newest(freshest: map<string, int>, heard: seq<Beat>, s: string) {
    var latest := LatestOf(freshest, s);
    && latest >= 0
    && (forall b :: b in heard && b.service == s && b.at.Some? ==> latest >= b.at.value)
    && (latest > 0 ==> exists b :: b in heard && b.service == s && b.at == Some(latest))
  }

  /** Several instances of one service: the newest beat decides. */
  function Heard(freshest: map<string, int>, beat: Beat): map<string, int> {
    if beat.at.None? then freshest
    else freshest[beat.service := Max(LatestOf(freshest, beat.service), beat.at.value)]
  }

  lemma NewestKeeps(freshest: map<string, int>, heard: seq<Beat>, beat: Beat, s: string)
    requires Newest(freshest, heard, s)
    ensures Newest(Heard(freshest, beat), heard + [beat], s)
  {
    var latest := LatestOf(Heard(freshest, beat), s);
    if latest > 0 {
      if latest == LatestOf(freshest, s) {
        var b :| b in heard && b.service == s && b.at == Some(latest);
        assert b in heard + [beat];
      } else {
        assert beat in heard + [beat];
      }
    }
  }

  /** A service is quiet exactly when none of its beats is recent. */
  lemma QuietIsAbsent(freshest: map<string, int>, heard: seq<Beat>, now: int, s: string)
    requires Newest(freshest, heard, s)
    ensures Quiet(freshest, now)(s) <==> Absent(heard, now)(s)
  {
  }

  method Freshest(heard: seq<Beat>) returns (freshest: map<string, int>)
    ensures forall s :: Newest(freshest, heard, s)
  {
    freshest := map[];
    for i := 0 to |heard|
      invariant forall s :: Newest(freshest, heard[..i], s)
    {
      var next, more := Heard(freshest, heard[i]), heard[..i + 1];
      forall s ensures Newest(next, more, s) {
        NewestKeeps(freshest, heard[..i], heard[i], s);
        assert more == heard[..i] + [heard[i]];
      }
      freshest := next;
    }
    assert heard[..|heard|] == heard;
  }

  /** No beat of the service in the last ninety seconds that parses. */
  predicate Missing(beats: seq<Beat>, s: string, now: int) {
    now > 90_000 && forall b :: b in beats && b.service == s && b.at.Some? ==> now - b.at.value > 90_000
  }

  lemma AbsentIsMissing(beats: seq<Beat>, s: string, now: int)
    ensures Absent(beats, now)(s) <==> Missing(beats, s, now)
  {
  }

  lemma UnwellIs(c: Component)
    ensures Unwell(c) <==> c.status != OK
  {
  }

  /** `beats` and `probes` are None when the port rejects. */
  method ReadFleet(beats: Option<seq<Beat>>, probes: Option<seq<Component>>, now: int) returns (report: FleetReport)
    ensures report.silent == Filter(WATCHED_SERVICES, Absent(if beats.Some? then beats.value else [], now))
    ensures report.unhealthy == Filter(if probes.Some? then probes.value else [], Unwell)
    ensures Coherent(report)
    ensures forall s :: s in report.silent <==> s in WATCHED_SERVICES && Missing(if beats.Some? then beats.value else [], s, now)
    ensures forall c :: c in report.unhealthy <==> probes.Some? && c in probes.value && c.status != OK
  {
    hide WATCHED_SERVICES, Filter, Newest, Quiet, Absent, Unwell, Missing;
    var heard := if beats.Some? then beats.value else [];
    var freshest := Freshest(heard);
    forall s ensures Quiet(freshest, now)(s) <==> Absent(heard, now)(s) {
      QuietIsAbsent(freshest, heard, now, s);
    }
    FilterSame(WATCHED_SERVICES, Quiet(freshest, now), Absent(heard, now));
    var silent := Filter(WATCHED_SERVICES, Quiet(freshest, now));
    var unhealthy := Filter(if probes.Some? then probes.value else [], Unwell);
    var status :=
      if (exists c :: c in unhealthy && c.status == DOWN) || |silent| > 1 then DOWN
      else if |silent| > 0 || |unhealthy| > 0 then DEGRADED
      else OK;
    forall s ensures s in silent <==> s in WATCHED_SERVICES && Missing(heard, s, now) {
      FilterMember(WATCHED_SERVICES, Quiet(freshest, now), s);
      AbsentIsMissing(heard, s, now);
    }
    forall c ensures c in unhealthy <==> probes.Some? && c in probes.value && c.status != OK {
      FilterMember(if probes.Some? then probes.value else [], Unwell, c);
      UnwellIs(c);
    }
    return FleetReport(status, silent, unhealthy);
  }

  /** A health probe that rejects counts for nothing: the status is then decided by the silent services alone, so with
      every service beating the fleet reads as well. */
  method FailedProbeIsUnseen(beats: Option<seq<Beat>>, now: int) returns (report: FleetReport)
    ensures var silent := Filter(WATCHED_SERVICES, Absent(if beats.Some? then beats.value else [], now));
            report == FleetReport(if |silent| > 1 then DOWN else if |silent| == 1 then DEGRADED else OK, silent, [])
  {
    hide WATCHED_SERVICES;
    report := ReadFleet(beats, None, now);
  }

  // ----- one pass

  datatype State = State(last: Option<FleetStatus>, strikes: nat)

  /** What a post says: the fleet recovered, or what is wrong with it. */
  datatype Post = Recovered | Outage(report: FleetReport)

  function Pass(s: State, status: FleetStatus): State {
    if status == OK then State(Some(OK), 0)
    else if s.strikes + 1 < 2 then s.(strikes := s.strikes + 1)
    else State(Some(status), s.strikes + 1)
  }

  predicate Speaks(s: State, status: FleetStatus) {
    if status == OK then s.last.Some? && s.last != Some(OK)
    else s.strikes + 1 >= 2 && s.last != Some(status)
  }

  class Watchtower {
    var last: Option<FleetStatus>
    var strikes: nat

    ghost function View(): State
      reads this
    {
      State(last, strikes)
    }

    constructor ()
      ensures View() == State(None, 0)
    {
      last := None;
      strikes := 0;
    }

    /** `channel` says whether an alert channel is configured, `lands` whether the post would succeed. */
    method WatchOnce(report: FleetReport, channel: bool, lands: bool) returns (said: Option<Post>)
      modifies this
      ensures View() == Pass(old(View()), report.status)
      ensures said == if !Speaks(old(View()), report.status) || !channel || !lands then None
                      else if report.status == OK then Some(Recovered)
                      else Some(Outage(report))
    {
      if report.status == OK {
        strikes := 0;
        if last == None || last == Some(OK) {
          last := Some(OK);
          return None;
        }
        last := Some(OK);
        said := Say(channel, lands, Recovered);
        return;
      }
      strikes := strikes + 1;
      if strikes < 2 {
        return None;
      }
      if last == Some(report.status) {
        return None;
      }
      last := Some(report.status);
      said := Say(channel, lands, Outage(report));
    }

    static method Say(channel: bool, lands: bool, text: Post) returns (said: Option<Post>)
      ensures said == if channel && lands then Some(text) else None
    {
      return if channel && lands then Some(text) else None;
    }
  }

  // ----- every run

  function Run(readings: seq<FleetStatus>): State {
    if readings == [] then State(None, 0) else Pass(Run(readings[..|readings| - 1]), readings[|readings| - 1])
  }

  /** How many readings in a row, up to the last, were not ok. */
  function TrailingBad(readings: seq<FleetStatus>): nat {
    if readings == [] || readings[|readings| - 1] == OK then 0
    else 1 + TrailingBad(readings[..|readings| - 1])
  }

  /** The reading survives the grace pass: it is ok, or the one before it was bad too. */
  predicate Confirms(readings: seq<FleetStatus>, i: nat)
    requires i < |readings|
  {
    readings[i] == OK || (i > 0 && readings[i - 1] != OK)
  }

  /** The latest confirmed reading. */
  function Confirmed(readings: seq<FleetStatus>): Option<FleetStatus> {
    if readings == [] then None
    else if Confirms(readings, |readings| - 1) then Some(readings[|readings| - 1])
    else Confirmed(readings[..|readings| - 1])
  }

  /** The whole state is a function of the readings: `strikes` is the length of the bad run in progress, `last`
      the latest reading that was not the first of a bad run. */
  lemma {:induction false} StateIsHistory(readings: seq<FleetStatus>)
    ensures Run(readings) == State(Confirmed(readings), TrailingBad(readings))
  {
    if readings != [] {
      var before := readings[..|readings| - 1];
      StateIsHistory(before);
      assert |before| > 0 ==> readings[|readings| - 2] == before[|before| - 1];
    }
  }

  datatype Announcement = Announcement(at: nat, status: FleetStatus)

  /** The passes that decided to speak, in order. */
  function Announced(readings: seq<FleetStatus>): seq<Announcement> {
    if readings == [] then []
    else
      var n := |readings| - 1;
      Announced(readings[..n]) +
      if Speaks(Run(readings[..n]), readings[n]) then [Announcement(n, readings[n])] else []
  }

  /** The status a reader of the channel believes in: what was announced last, healthy before anything was. */
  function Believed(announced: seq<Announcement>): FleetStatus {
    if announced == [] then OK else announced[|announced| - 1].status
  }

  /** Announcements are exactly the changes of the confirmed status: a reader is always told what is confirmed,
      and never told it twice. */
  lemma {:induction false} BelievedIsConfirmed(readings: seq<FleetStatus>)
    ensures Believed(Announced(readings)) == if Confirmed(readings).Some? then Confirmed(readings).value else OK
  {
    if readings != [] {
      var n := |readings| - 1;
      BelievedIsConfirmed(readings[..n]);
      StateIsHistory(readings[..n]);
      assert n > 0 ==> readings[..n][n - 1] == readings[n - 1];
      assert Announced(readings[..n]) + [] == Announced(readings[..n]);
    }
  }

  /** Neighbouring announcements differ, the first is an outage, so every recovery follows an outage that nothing
      has recovered yet. */
  lemma {:induction false} NeverRepeats(readings: seq<FleetStatus>, i: nat)
    requires i < |Announced(readings)|
    ensures Announced(readings)[i].status != Believed(Announced(readings)[..i])
  {
    var n := |readings| - 1;
    var before := Announced(readings[..n]);
    if i < |before| {
      NeverRepeats(readings[..n], i);
      assert Announced(readings)[..i] == before[..i];
    } else {
      BelievedIsConfirmed(readings[..n]);
      StateIsHistory(readings[..n]);
      assert Announced(readings)[..i] == before;
    }
  }

  /** Every announcement quotes its own reading, and an outage follows two consecutive bad readings. */
  lemma {:induction false} OutagesAreConfirmed(readings: seq<FleetStatus>, i: nat)
    requires i < |Announced(readings)|
    ensures var a := Announced(readings)[i];
            a.at < |readings| && a.status == readings[a.at] && Confirms(readings, a.at)
  {
    var n := |readings| - 1;
    var before := Announced(readings[..n]);
    if i < |before| {
      OutagesAreConfirmed(readings[..n], i);
    } else {
      StateIsHistory(readings[..n]);
      assert n > 0 ==> readings[..n][n - 1] == readings[n - 1];
    }
  }

  // ----- the grace pass, service by service

  function Statuses(reports: seq<FleetReport>): (r: seq<FleetStatus>)
    ensures |r| == |reports| && forall i :: 0 <= i < |r| ==> r[i] == reports[i].status
  {
    seq(|reports|, i requires 0 <= i < |reports| => reports[i].status)
  }

  predicate SaidAt(readings: seq<FleetStatus>, i: nat) {
    exists a :: a in Announced(readings) && a.at == i
  }

  lemma {:induction false} SaidWhenSpoken(readings: seq<FleetStatus>, i: nat)
    requires i < |readings|
    ensures SaidAt(readings, i) <==> Speaks(Run(readings[..i]), readings[i])
  {
    var n := |readings| - 1;
    var before := Announced(readings[..n]);
    forall a | a in before ensures a.at < n {
      var k :| 0 <= k < |before| && before[k] == a;
      OutagesAreConfirmed(readings[..n], k);
    }
    hide Speaks, Run;
    if i < n {
      SaidWhenSpoken(readings[..n], i);
      assert readings[..n][..i] == readings[..i];
    } else if Speaks(Run(readings[..n]), readings[n]) {
      assert Announcement(n, readings[n]) in Announced(readings);
    }
  }

  /** Something other than the silence of `s` was wrong with the fleet. */
  predicate OtherTrouble(r: FleetReport, s: string) {
    (exists t :: t in r.silent && t != s) || r.unhealthy != []
  }

  /** A silence of `s` is announced although `s` answered the check before, exactly when something else was wrong at
      that check and the status is not the one confirmed last. In every other case an announced silence follows two
      misses in a row of that very service. */
  lemma GraceIsPerFleet(reports: seq<FleetReport>, i: nat, s: string)
    requires i < |reports| && (forall r :: r in reports ==> Coherent(r)) && s in reports[i].silent
    ensures SaidAt(Statuses(reports), i) && !(i > 0 && s in reports[i - 1].silent)
            <==> i > 0 && s !in reports[i - 1].silent && OtherTrouble(reports[i - 1], s) &&
                 Confirmed(Statuses(reports)[..i]) != Some(reports[i].status)
  {
    var readings := Statuses(reports);
    SaidWhenSpoken(readings, i);
    StateIsHistory(readings[..i]);
    assert Coherent(reports[i]) && reports[i].status != OK;
    hide Run, Confirmed, SaidAt;
    if i > 0 {
      assert readings[..i][i - 1] == reports[i - 1].status && Coherent(reports[i - 1]);
      if s !in reports[i - 1].silent {
        assert OtherTrouble(reports[i - 1], s) <==> reports[i - 1].status != OK by {
          assert reports[i - 1].silent != [] ==> reports[i - 1].silent[0] in reports[i - 1].silent;
        }
      }
    }
  }

  /** One check each, missed by two different services, is announced as the outage of the second. */
  lemma OneMissEach(a: FleetReport, b: FleetReport, x: string, y: string)
    requires Coherent(a) && Coherent(b) && a.silent == [x] && b.silent == [y] && x != y
    requires a.unhealthy == [] && b.unhealthy == []
    ensures Announced(Statuses([a, b])) == [Announcement(1, DEGRADED)] && y !in a.silent && x !in b.silent
  {
    var readings := Statuses([a, b]);
    assert readings == [DEGRADED] + [DEGRADED] && [] + [DEGRADED] == [DEGRADED];
    AnnouncedSnoc([], DEGRADED);
    AnnouncedSnoc([DEGRADED], DEGRADED);
  }

  /** Every service but `missing` has just beaten. */
  function AllBut(missing: string, now: int): seq<Beat> {
    BeatsOf(Filter(WATCHED_SERVICES, (s: string) => s != missing), now)
  }

  function BeatsOf(services: seq<string>, now: int): (r: seq<Beat>)
    ensures |r| == |services| && forall i :: 0 <= i < |r| ==> r[i] == Beat(services[i], Some(now))
  {
    seq(|services|, i requires 0 <= i < |services| => Beat(services[i], Some(now)))
  }

  lemma OnlyMissing(missing: string, now: int)
    requires missing in WATCHED_SERVICES && now > BEAT_STALE_MS
    ensures Filter(WATCHED_SERVICES, Absent(AllBut(missing, now), now)) == [missing]
  {
    var others := (s: string) => s != missing;
    var present := Filter(WATCHED_SERVICES, others);
    forall s | s in WATCHED_SERVICES ensures Absent(AllBut(missing, now), now)(s) <==> s == missing {
      FilterMember(WATCHED_SERVICES, others, s);
      hide Filter, WATCHED_SERVICES;
      if s != missing {
        var i :| 0 <= i < |present| && present[i] == s;
        assert AllBut(missing, now)[i] == Beat(s, Some(now));
      } else {
        assert s !in present;
      }
    }
    FilterSame(WATCHED_SERVICES, Absent(AllBut(missing, now), now), (s: string) => s == missing);
    FourFiltered(missing);
  }

  lemma FourFiltered(missing: string)
    requires missing in WATCHED_SERVICES
    ensures Filter(WATCHED_SERVICES, (s: string) => s == missing) == [missing]
  {
    var w := WATCHED_SERVICES;
    assert w[0][0] == 'b' && w[1][0] == 'a' && w[2][1] == 'o' && w[3][1] == 'e' && w[2][0] == 'w' && w[3][0] == 'w';
    var k :| 0 <= k < |w| && w[k] == missing;
    assert forall i :: 0 <= i < |w| && w[i] == w[k] ==> i == k;
    hide WATCHED_SERVICES;
    OnlyOne(w, k);
  }

  lemma {:induction false} OnlyOne(w: seq<string>, k: nat)
    requires k < |w| && forall i :: 0 <= i < |w| && w[i] == w[k] ==> i == k
    ensures Filter(w, (s: string) => s == w[k]) == [w[k]]
  {
    var f := (s: string) => s == w[k];
    assert w == w[..k] + ([w[k]] + w[k + 1..]);
    FilterAppend(w[..k], [w[k]] + w[k + 1..], f);
    FilterAppend([w[k]], w[k + 1..], f);
    FilterNone(w[..k], f);
    FilterNone(w[k + 1..], f);
    assert [w[k]][1..] == [];
  }

  /** The input on the watchtower itself: `x` restarts during one check, `y` during the next, and the second pass
      posts an outage. */
  method GraceIsNotPerService(x: string, y: string, first: int, second: int) returns (said: Option<Post>)
    requires x in WATCHED_SERVICES && y in WATCHED_SERVICES && x != y && BEAT_STALE_MS < first <= second
    ensures said == Some(Outage(FleetReport(DEGRADED, [y], [])))
  {
    OnlyMissing(x, first);
    OnlyMissing(y, second);
    var healthy := Some([]);
    var watchtower := new Watchtower();
    var a := ReadFleet(Some(AllBut(x, first)), healthy, first);
    var b := ReadFleet(Some(AllBut(y, second)), healthy, second);
    said := watchtower.WatchOnce(a, true, true);
    said := watchtower.WatchOnce(b, true, true);
  }

  // ----- what the channel shows

  /** The posts that landed: `lands[i]` is the fate of a post made for reading i. */
  function Landed(announced: seq<Announcement>, lands: seq<bool>): seq<FleetStatus> {
    if announced == [] then []
    else
      var a := announced[|announced| - 1];
      Landed(announced[..|announced| - 1], lands) + if a.at < |lands| && lands[a.at] then [a.status] else []
  }

  lemma LandedSnoc(announced: seq<Announcement>, a: Announcement, lands: seq<bool>)
    ensures Landed(announced + [a], lands) ==
            Landed(announced, lands) + if a.at < |lands| && lands[a.at] then [a.status] else []
  {
  }

  lemma AnnouncedSnoc(readings: seq<FleetStatus>, status: FleetStatus)
    ensures Run(readings + [status]) == Pass(Run(readings), status)
    ensures Announced(readings + [status]) ==
            Announced(readings) + if Speaks(Run(readings), status) then [Announcement(|readings|, status)] else []
  {
  }

  predicate Lands(a: Announcement, lands: seq<bool>) {
    a.at < |lands| && lands[a.at]
  }

  predicate Repeats(shown: seq<FleetStatus>) {
    exists k :: 0 < k < |shown| && shown[k - 1] == shown[k]
  }

  /** Two landed posts say the same, and everything between them was lost. */
  predicate LossRepeats(announced: seq<Announcement>, lands: seq<bool>, i: nat, j: nat) {
    && i < j < |announced| && Lands(announced[i], lands) && Lands(announced[j], lands)
    && (forall m :: i < m < j ==> !Lands(announced[m], lands))
    && announced[i].status == announced[j].status
  }

  predicate IsLatest(announced: seq<Announcement>, lands: seq<bool>, i: nat) {
    && i < |announced| && Lands(announced[i], lands)
    && (forall m :: i < m < |announced| ==> !Lands(announced[m], lands))
  }

  /** What the channel shows last is the latest post that landed. */
  lemma {:induction false} LastLanded(announced: seq<Announcement>, lands: seq<bool>)
    requires Landed(announced, lands) != []
    ensures exists i: nat :: IsLatest(announced, lands, i) &&
                        announced[i].status == Landed(announced, lands)[|Landed(announced, lands)| - 1]
  {
    var n := |announced| - 1;
    var before, shown := announced[..n], Landed(announced, lands);
    LandedSnoc(before, announced[n], lands);
    assert announced == before + [announced[n]];
    if Lands(announced[n], lands) {
      assert IsLatest(announced, lands, n);
    } else {
      assert shown == Landed(before, lands) + [];
      LastLanded(before, lands);
      hide Landed, Lands;
      var i: nat :| IsLatest(before, lands, i) && before[i].status == shown[|shown| - 1];
      assert announced[i] == before[i];
      assert forall m :: i < m < n ==> announced[m] == before[m];
      assert IsLatest(announced, lands, i);
    }
  }

  lemma {:induction false} NoneLanded(announced: seq<Announcement>, lands: seq<bool>)
    requires Landed(announced, lands) == []
    ensures forall a :: a in announced ==> !Lands(a, lands)
  {
    if announced != [] {
      NoneLanded(announced[..|announced| - 1], lands);
      assert announced == announced[..|announced| - 1] + [announced[|announced| - 1]];
    }
  }

  lemma {:induction false} RepeatsByLoss(announced: seq<Announcement>, lands: seq<bool>)
    ensures Repeats(Landed(announced, lands)) <==> exists i, j :: LossRepeats(announced, lands, i, j)
  {
    if announced != [] {
      var n := |announced| - 1;
      var before, a := announced[..n], announced[n];
      RepeatsByLoss(before, lands);
      var shown, shown' := Landed(before, lands), Landed(announced, lands);
      LossSnoc(before, a, lands);
      assert announced == before + [a];
      if Lands(a, lands) {
        assert shown' == shown + [a.status];
        RepeatsSnoc(shown, a.status);
      } else {
        assert shown' == shown;
      }
    }
  }

  lemma RepeatsSnoc(shown: seq<FleetStatus>, status: FleetStatus)
    ensures Repeats(shown + [status]) <==> Repeats(shown) || (shown != [] && shown[|shown| - 1] == status)
  {
    var more := shown + [status];
    if Repeats(shown) {
      var k :| 0 < k < |shown| && shown[k - 1] == shown[k];
      assert more[k - 1] == more[k];
    }
    if shown != [] && shown[|shown| - 1] == status {
      assert more[|shown| - 1] == more[|shown|];
    }
  }

  lemma LossSnoc(before: seq<Announcement>, a: Announcement, lands: seq<bool>)
    ensures (exists i, j :: LossRepeats(before + [a], lands, i, j)) <==>
            || (exists i, j :: LossRepeats(before, lands, i, j))
            || (Lands(a, lands) && Landed(before, lands) != [] &&
                Landed(before, lands)[|Landed(before, lands)| - 1] == a.status)
  {
    var shown := Landed(before, lands);
    LossWithin(before, a, lands);
    if shown == [] {
      NoneLanded(before, lands);
    } else {
      LastLanded(before, lands);
      var i: nat :| IsLatest(before, lands, i) && before[i].status == shown[|shown| - 1];
      hide Landed;
      LatestOnly(before, a, lands, i);
    }
    hide Landed;
    if i: nat, j: nat :| LossRepeats(before + [a], lands, i, j) {
      assert j == |before| ==> before[i] in before && before[i] == (before + [a])[i];
    }
  }

  lemma LossWithin(before: seq<Announcement>, a: Announcement, lands: seq<bool>)
    ensures forall i: nat, j: nat :: j < |before| ==>
              (LossRepeats(before + [a], lands, i, j) <==> LossRepeats(before, lands, i, j))
  {
    assert forall m :: 0 <= m < |before| ==> (before + [a])[m] == before[m];
  }

  lemma LatestOnly(before: seq<Announcement>, a: Announcement, lands: seq<bool>, i: nat)
    requires IsLatest(before, lands, i)
    ensures LossRepeats(before + [a], lands, i, |before|) <==> Lands(a, lands) && before[i].status == a.status
    ensures forall k: nat :: LossRepeats(before + [a], lands, k, |before|) ==> k == i
  {
    assert forall m :: 0 <= m < |before| ==> (before + [a])[m] == before[m];
  }

  /** The channel says the same twice running exactly when the posts lost between two that landed leave those two
      alike; and then at least one was lost. */
  lemma ChannelRepeatsExactly(readings: seq<FleetStatus>, lands: seq<bool>)
    ensures var announced := Announced(readings);
            && (Repeats(Landed(announced, lands)) <==> exists i, j :: LossRepeats(announced, lands, i, j))
            && (forall i, j :: LossRepeats(announced, lands, i, j) ==> i + 1 < j && !Lands(announced[i + 1], lands))
  {
    var announced := Announced(readings);
    RepeatsByLoss(announced, lands);
    forall i: nat, j: nat | LossRepeats(announced, lands, i, j)
      ensures i + 1 < j && !Lands(announced[i + 1], lands)
    {
      NeverRepeats(readings, j);
      assert announced[..j][j - 1] == announced[j - 1];
    }
  }

  /** With every post landing, no two neighbours in the channel are alike. */
  lemma NothingLostNothingRepeated(readings: seq<FleetStatus>, lands: seq<bool>)
    requires forall a :: a in Announced(readings) ==> Lands(a, lands)
    ensures !Repeats(Landed(Announced(readings), lands))
  {
    var announced := Announced(readings);
    ChannelRepeatsExactly(readings, lands);
    forall k | 0 <= k < |announced| ensures Lands(announced[k], lands) {
      assert announced[k] in announced;
    }
  }

  /** A post that does not land is not retried, so what the channel shows may repeat itself: from any healthy
      history, an outage whose recovery is lost is announced again by the next outage of the same kind. */
  lemma LostRecoveryRepeats(readings: seq<FleetStatus>, bad: FleetStatus, lands: seq<bool>)
    requires bad != OK && Run(readings).strikes == 0 && Run(readings).last in {None, Some(OK)}
    requires var n := |readings|; |lands| == n + 5 && lands[n + 1] && !lands[n + 2] && lands[n + 4]
    ensures Landed(Announced(readings + [bad] + [bad] + [OK] + [bad] + [bad]), lands)
            == Landed(Announced(readings), lands) + [bad] + [bad]
  {
    hide Run, Announced, Landed;
    var n, a0 := |readings|, Announced(readings);
    var a1 := a0 + [Announcement(n + 1, bad)];
    var a2 := a1 + [Announcement(n + 2, OK)];
    var r1 := readings + [bad];
    AnnouncedSnoc(readings, bad);
    assert Announced(r1) == a0;
    var r2 := r1 + [bad];
    AnnouncedSnoc(r1, bad);
    assert Announced(r2) == a1;
    var r3 := r2 + [OK];
    AnnouncedSnoc(r2, OK);
    assert Announced(r3) == a2 && Run(r3) == State(Some(OK), 0);
    var r4 := r3 + [bad];
    AnnouncedSnoc(r3, bad);
    assert Announced(r4) == a2 && Run(r4) == State(Some(OK), 1);
    AnnouncedSnoc(r4, bad);
    hide Pass, Speaks;
    LandedSnoc(a0, Announcement(n + 1, bad), lands);
    LandedSnoc(a1, Announcement(n + 2, OK), lands);
    LandedSnoc(a2, Announcement(n + 4, bad), lands);
  }
}
