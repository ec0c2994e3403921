/** The canned-reply cooldown (apps/bridge-bot/src/autoresponder.ts:53, 70-93): one answer per tag and channel,
    then quiet. The map of quiet pairs is swept when it grows; the sweep must not be observable. */
module Autoresponder {
  import opened Prelude

  const TAG_COOLDOWN_MS := 60_000
  const MAX_SCANNED_LENGTH := 500
  const SWEEP_ABOVE := 1_000

  datatype Tag = Tag(id: string, content: string)

  type Quiet = map<string, int>

  function Key(channelId: string, tag: Tag): string {
    channelId + ":" + tag.id
  }

  /** The pairs that may not yet fire at `at`. */
  function Live(quiet: Quiet, at: int): Quiet {
    map k | k in quiet && quiet[k] > at :: quiet[k]
  }

  predicate Silenced(quiet: Quiet, key: string, at: int) {
    key in quiet && at < quiet[key]
  }

  function Fired(quiet: Quiet, key: string, at: int): Quiet {
    var more := quiet[key := at + TAG_COOLDOWN_MS];
    if |more| > SWEEP_ABOVE then Live(more, at) else more
  }

  function Step(quiet: Quiet, call: Call): Quiet {
    if Silenced(quiet, call.key, call.at) then quiet else Fired(quiet, call.key, call.at)
  }

  class Autoresponder {
    var quiet: Quiet

    constructor ()
      ensures quiet == map[]
    {
      quiet := map[];
    }

    /** `hit` is the tag the compiled patterns matched, if any; `at` is the clock reading after the match. */
    method Respond(channelId: string, text: string, hit: Option<Tag>, at: int) returns (reply: Option<string>)
      modifies this
      ensures |text| == 0 || |text| > MAX_SCANNED_LENGTH || hit.None? ==> reply == None && quiet == old(quiet)
      ensures 0 < |text| <= MAX_SCANNED_LENGTH && hit.Some? ==>
                var call := Call(Key(channelId, hit.value), at);
                && quiet == Step(old(quiet), call)
                && reply == if Silenced(old(quiet), call.key, at) then None else Some(hit.value.content)
    {
      if |text| == 0 || |text| > MAX_SCANNED_LENGTH {
        return None;
      }
      if hit.None? {
        return None;
      }
      var key := Key(channelId, hit.value);
      if key in quiet && at < quiet[key] {
        return None;
      }
      quiet := quiet[key := at + TAG_COOLDOWN_MS];
      if |quiet| > SWEEP_ABOVE {
        Sweep(at);
      }
      return Some(hit.value.content);
    }

    method Sweep(at: int)
      modifies this
      ensures quiet == Live(old(quiet), at)
    {
      var keys := quiet.Keys;
      while keys != {}
        invariant keys <= quiet.Keys <= old(quiet).Keys
        invariant forall k :: k in quiet ==> quiet[k] == old(quiet)[k]
        invariant forall k :: k in old(quiet) && k !in keys ==> (k in quiet <==> old(quiet)[k] > at)
        decreases |keys|
      {
        var k :| k in keys;
        if quiet[k] <= at {
          quiet := quiet - {k};
        }
        keys := keys - {k};
      }
    }
  }

  // ----- runs

  /** A message that matched a tag: the pair it matched for, and when. */
  datatype Call = Call(key: string, at: int)

  function Run(calls: seq<Call>): Quiet {
    if calls == [] then map[] else Step(Run(calls[..|calls| - 1]), calls[|calls| - 1])
  }

  /** Whether a call made after `calls` is answered. */
  predicate Answers(calls: seq<Call>, call: Call) {
    !Silenced(Run(calls), call.key, call.at)
  }

  /** Every call that was answered, for good. */
  function Answered(calls: seq<Call>): seq<Call> {
    if calls == [] then []
    else
      var before, call := calls[..|calls| - 1], calls[|calls| - 1];
      Answered(before) + if Answers(before, call) then [call] else []
  }

  predicate Monotone(calls: seq<Call>) {
    forall i, j :: 0 <= i < j < |calls| ==> calls[i].at <= calls[j].at
  }

  /** An answer for the same pair, less than the cooldown ago. */
  predicate RecentlyAnswered(calls: seq<Call>, key: string, at: int) {
    exists c :: c in Answered(calls) && c.key == key && at < c.at + TAG_COOLDOWN_MS
  }

  /** The swept map agrees with an unbounded memory of every answer at every moment from the last call on. */
  lemma {:induction false} SweepIsUnobservable(calls: seq<Call>, key: string, at: int)
    requires Monotone(calls) && forall i :: 0 <= i < |calls| ==> calls[i].at <= at
    ensures Silenced(Run(calls), key, at) <==> RecentlyAnswered(calls, key, at)
  {
    if calls != [] {
      var before, call := calls[..|calls| - 1], calls[|calls| - 1];
      assert calls == before + [call];
      SweepIsUnobservable(before, key, at);
    }
  }

  /** A matching message is answered exactly when the same tag has not answered in that channel in the last
      minute, whatever was swept in between. */
  lemma AnswersUnlessRecent(calls: seq<Call>, call: Call)
    requires Monotone(calls + [call])
    ensures Answers(calls, call) <==> !RecentlyAnswered(calls, call.key, call.at)
  {
    var all := calls + [call];
    forall i | 0 <= i < |calls| ensures calls[i].at <= call.at {
      assert all[i].at <= all[|calls|].at;
    }
    assert Monotone(calls) by {
      assert forall i :: 0 <= i < |calls| ==> all[i] == calls[i];
    }
    SweepIsUnobservable(calls, call.key, call.at);
  }

  /** Up to a thousand pairs nothing is swept. */
  lemma SmallMapIsKept(quiet: Quiet, call: Call)
    requires !Silenced(quiet, call.key, call.at) && |quiet| < 1_000
    ensures Step(quiet, call) == quiet[call.key := call.at + 60_000]
  {
    assert quiet[call.key := 0].Keys == quiet.Keys + {call.key};
    assert quiet[call.key := call.at + 60_000].Keys == quiet.Keys + {call.key};
    assert |quiet.Keys + {call.key}| <= |quiet.Keys| + 1;
  }

  // ----- by channel and tag

  /** A message that matched a tag, in a channel. */
  datatype Hit = Hit(channelId: string, tagId: string, at: int)

  /** Channel ids are numbers. */
  predicate Plain(channelId: string) {
    ':' !in channelId
  }

  function CallOf(hit: Hit): Call {
    Call(Key(hit.channelId, Tag(hit.tagId, "")), hit.at)
  }

  function Calls(hits: seq<Hit>): (r: seq<Call>)
    ensures |r| == |hits| && forall i :: 0 <= i < |r| ==> r[i] == CallOf(hits[i])
  {
    seq(|hits|, i requires 0 <= i < |hits| => CallOf(hits[i]))
  }

  lemma PairsToldApart(a: Hit, b: Hit)
    requires Plain(a.channelId) && Plain(b.channelId)
    ensures CallOf(a).key == CallOf(b).key <==> a.channelId == b.channelId && a.tagId == b.tagId
  {
    var x, y := CallOf(a).key, CallOf(b).key;
    var n, m := |a.channelId|, |b.channelId|;
    if x == y {
      assert x[n] == ':' && y[m] == ':';
      assert forall i :: 0 <= i < n ==> x[i] == a.channelId[i] && x[i] in a.channelId;
      assert forall i :: 0 <= i < m ==> y[i] == b.channelId[i] && y[i] in b.channelId;
      assert n == m;
      assert a.channelId == x[..n] && a.tagId == x[n + 1..];
    }
  }

  /** The hits that were answered: those the same tag had not answered in the same channel less than a minute before. */
  function AnsweredHits(hits: seq<Hit>): seq<Hit> {
    if hits == [] then []
    else
      var before, hit := AnsweredHits(hits[..|hits| - 1]), hits[|hits| - 1];
      before + if Recent(before, hit) then [] else [hit]
  }

  predicate Recent(answered: seq<Hit>, hit: Hit) {
    exists a :: a in answered && a.channelId == hit.channelId && a.tagId == hit.tagId && hit.at < a.at + 60_000
  }

  predicate InOrder(hits: seq<Hit>) {
    && (forall i, j :: 0 <= i < j < |hits| ==> hits[i].at <= hits[j].at)
    && (forall i :: 0 <= i < |hits| ==> Plain(hits[i].channelId))
  }

  /** Over any run: channel by channel and tag by tag, a hit is answered exactly when the same tag was not answered in the
      same channel in the last minute; other channels and other tags have no say. */
  lemma {:induction false} AnsweredPerChannelAndTag(hits: seq<Hit>)
    requires InOrder(hits)
    ensures Answered(Calls(hits)) == Calls(AnsweredHits(hits))
  {
    if hits == [] {
      assert Calls(hits) == [];
    } else {
      hide *;
      var before, hit := hits[..|hits| - 1], hits[|hits| - 1];
      assert hits == before + [hit];
      HitsBefore(hits);
      AnsweredPerChannelAndTag(before);
      AnsweredArePlain(before);
      CallsSnoc(before, hit);
      CallsSnoc(AnsweredHits(before), hit);
      AnsweredSnoc(Calls(before), CallOf(hit));
      AnsweredHitsSnoc(before, hit);
      AnswersUnlessRecent(Calls(before), CallOf(hit));
      RecentIsRecent(AnsweredHits(before), hit, Calls(before));
      CallOfIs(hit);
    }
  }

  lemma CallsSnoc(hits: seq<Hit>, hit: Hit)
    ensures Calls(hits + [hit]) == Calls(hits) + [CallOf(hit)]
  {
  }

  lemma CallOfIs(hit: Hit)
    ensures CallOf(hit) == Call(CallOf(hit).key, hit.at)
  {
  }

  lemma AnsweredSnoc(calls: seq<Call>, call: Call)
    ensures Answered(calls + [call]) == if Answers(calls, call) then Answered(calls) + [call] else Answered(calls)
  {
    assert (calls + [call])[..|calls|] == calls;
  }

  lemma AnsweredHitsSnoc(hits: seq<Hit>, hit: Hit)
    ensures AnsweredHits(hits + [hit]) ==
            if Recent(AnsweredHits(hits), hit) then AnsweredHits(hits) else AnsweredHits(hits) + [hit]
  {
    assert (hits + [hit])[..|hits|] == hits;
  }

  lemma {:induction false} AnsweredArePlain(hits: seq<Hit>)
    requires InOrder(hits)
    ensures forall a :: a in AnsweredHits(hits) ==> Plain(a.channelId)
  {
    if hits != [] {
      hide Plain, Recent;
      AnsweredArePlain(hits[..|hits| - 1]);
    }
  }

  lemma HitsBefore(hits: seq<Hit>)
    requires InOrder(hits) && hits != []
    ensures InOrder(hits[..|hits| - 1]) && Plain(hits[|hits| - 1].channelId) && Monotone(Calls(hits))
  {
    hide Key;
  }

  lemma RecentIsRecent(answered: seq<Hit>, hit: Hit, calls: seq<Call>)
    requires Answered(calls) == Calls(answered) && Plain(hit.channelId) && forall a :: a in answered ==> Plain(a.channelId)
    ensures RecentlyAnswered(calls, CallOf(hit).key, hit.at) <==> Recent(answered, hit)
  {
    forall i | 0 <= i < |answered|
      ensures Calls(answered)[i].key == CallOf(hit).key <==>
              answered[i].channelId == hit.channelId && answered[i].tagId == hit.tagId
    {
      assert answered[i] in answered;
      PairsToldApart(answered[i], hit);
    }
    hide Key;
    assert forall i :: 0 <= i < |answered| ==> Calls(answered)[i] in Calls(answered) && answered[i] in answered;
  }

  lemma {:induction false} AnsweredWereCalls(calls: seq<Call>)
    ensures forall c :: c in Answered(calls) ==> c in calls
  {
    if calls != [] {
      AnsweredWereCalls(calls[..|calls| - 1]);
    }
  }

  /** Two answers of one tag in one channel are at least a minute apart. */
  lemma {:induction false} AnswersAreApart(calls: seq<Call>, i: nat, j: nat)
    requires Monotone(calls) && i < j < |Answered(calls)|
    requires Answered(calls)[i].key == Answered(calls)[j].key
    ensures Answered(calls)[j].at - Answered(calls)[i].at >= TAG_COOLDOWN_MS
  {
    var before, call := calls[..|calls| - 1], calls[|calls| - 1];
    if j < |Answered(before)| {
      AnswersAreApart(before, i, j);
    } else {
      assert calls == before + [call];
      AnswersUnlessRecent(before, call);
      assert Answered(before)[i] in Answered(before);
    }
  }

  /** Whenever an answer leaves more than a thousand pairs behind, every one of them is still silenced. */
  lemma LargeMapIsLive(quiet: Quiet, call: Call, key: string)
    requires !Silenced(quiet, call.key, call.at) && |Step(quiet, call)| > SWEEP_ABOVE && key in Step(quiet, call)
    ensures Silenced(Step(quiet, call), key, call.at)
  {
  }
}
