/** The most guilds without a channel that an announcer's pass gets past (apps/bridge-bot/src/milestones.ts:41-100):
    three. */
module AnnouncersStarved {
  import opened Prelude
  import opened SweepTrace
  import opened Announcers

  /** Blocks of rows one after the other. */
  function Flat(blocks: seq<seq<Row>>): seq<Row> {
    if blocks == [] then [] else Flat(blocks[..|blocks| - 1]) + blocks[|blocks| - 1]
  }

  /** A full batch of rows of one guild without a channel. */
  predicate UnboundBlock(block: seq<Row>, guild: string, channel: string -> Option<string>, limit: nat) {
    |block| == limit && channel(guild).None? && forall r :: r in block ==> r.guildId == guild
  }

  /** Each guild has a batch of its own. */
  predicate UnboundBlocks(blocks: seq<seq<Row>>, guilds: seq<string>, channel: string -> Option<string>, limit: nat) {
    && |guilds| == |blocks|
    && (forall i, j :: 0 <= i < j < |guilds| ==> guilds[i] != guilds[j])
    && (forall i :: 0 <= i < |blocks| ==> UnboundBlock(blocks[i], guilds[i], channel, limit))
  }

  function GuildSet(guilds: seq<string>): set<string> {
    set g | g in guilds
  }

  /** The fetch that skips what stands before a full batch returns that batch. */
  lemma BatchPending(before: seq<Row>, block: seq<Row>, after: seq<Row>, excluded: set<string>)
    requires forall r :: r in before ==> r.guildId in excluded
    requires forall r :: r in block ==> r.guildId !in excluded
    ensures ListPending(before + block + after, {}, |block|, excluded) == block
  {
    var keep := Waiting({}, excluded);
    FilterNone(before, keep);
    FilterAll(block, keep);
    FilterAppend(before, block, keep);
    FilterAppend(before + block, after, keep);
    assert Filter(before + block + after, keep) == block + Filter(after, keep);
  }

  lemma {:induction false} FlatGuilds(blocks: seq<seq<Row>>, guilds: seq<string>, channel: string -> Option<string>, limit: nat)
    requires UnboundBlocks(blocks, guilds, channel, limit)
    ensures forall r :: r in Flat(blocks) ==> r.guildId in guilds && channel(r.guildId).None?
  {
    if blocks != [] {
      var n := |blocks| - 1;
      FlatGuilds(blocks[..n], guilds[..n], channel, limit);
      assert UnboundBlock(blocks[n], guilds[n], channel, limit);
      assert forall g :: g in guilds[..n] ==> g in guilds;
    }
  }

  /** The first k batches are a part of the whole. */
  lemma {:induction false} FlatSplit(blocks: seq<seq<Row>>, k: nat) returns (after: seq<Row>)
    requires k < |blocks|
    ensures Flat(blocks) == Flat(blocks[..k]) + blocks[k] + after
    decreases |blocks|
  {
    var n := |blocks| - 1;
    if k == n {
      after := [];
    } else {
      var rest := FlatSplit(blocks[..n], k);
      assert blocks[..n][..k] == blocks[..k];
      after := rest + blocks[n];
    }
  }

  lemma BlockHasNoChannel(block: seq<Row>, guild: string, channel: string -> Option<string>, limit: nat)
    requires UnboundBlock(block, guild, channel, limit) && limit > 0
    ensures NoChannel(block, channel) == {guild} && Filter(block, HasChannel(channel)) == []
  {
    assert block[0] in block;
    FilterNone(block, HasChannel(channel));
  }

  lemma BlocksApart(blocks: seq<seq<Row>>, guilds: seq<string>, channel: string -> Option<string>, limit: nat, k: nat)
    requires UnboundBlocks(blocks, guilds, channel, limit) && k < |blocks|
    ensures |guilds| == |blocks|
    ensures UnboundBlocks(blocks[..k], guilds[..k], channel, limit) && UnboundBlock(blocks[k], guilds[k], channel, limit)
    ensures guilds[k] !in guilds[..k] && GuildSet(guilds[..k + 1]) == GuildSet(guilds[..k]) + {guilds[k]}
  {
    assert guilds[..k + 1] == guilds[..k] + [guilds[k]];
  }

  /** The fetch after k barren ones returns the next batch. */
  lemma NextBatch(blocks: seq<seq<Row>>, guilds: seq<string>, last: Row, channel: string -> Option<string>, limit: nat, k: nat)
    requires UnboundBlocks(blocks, guilds, channel, limit) && k < |blocks|
    ensures ListPending(Flat(blocks) + [last], {}, limit, GuildSet(guilds[..k])) == blocks[k]
  {
    hide Flat, UnboundBlocks, ListPending;
    BlocksApart(blocks, guilds, channel, limit, k);
    FlatGuilds(blocks[..k], guilds[..k], channel, limit);
    var after := FlatSplit(blocks, k);
    assert Flat(blocks) + [last] == Flat(blocks[..k]) + blocks[k] + (after + [last]);
    BatchPending(Flat(blocks[..k]), blocks[k], after + [last], GuildSet(guilds[..k]));
  }

  lemma ExcludedNext(rows: seq<Row>, channel: string -> Option<string>, limit: nat, k: nat)
    ensures var before := Excluded(rows, {}, channel, limit, k);
            Excluded(rows, {}, channel, limit, k + 1) == before + NoChannel(ListPending(rows, {}, limit, before), channel)
    ensures Excluded(rows, {}, channel, limit, 0) == {}
  {
    hide ListPending, NoChannel;
  }

  /** Each fetch meets the next guild without a channel. */
  lemma {:induction false} BlockByBlock(blocks: seq<seq<Row>>, guilds: seq<string>, last: Row,
                                        channel: string -> Option<string>, limit: nat, k: nat)
    requires UnboundBlocks(blocks, guilds, channel, limit) && k < |blocks| && limit > 0
    ensures var rows := Flat(blocks) + [last];
            && Excluded(rows, {}, channel, limit, k) == GuildSet(guilds[..k])
            && Filter(ListPending(rows, {}, limit, GuildSet(guilds[..k])), HasChannel(channel)) == []
  {
    hide Flat, UnboundBlocks, UnboundBlock, ListPending, NoChannel, Filter, HasChannel, Excluded, GuildSet;
    BlocksApart(blocks, guilds, channel, limit, k);
    NextBatch(blocks, guilds, last, channel, limit, k);
    BlockHasNoChannel(blocks[k], guilds[k], channel, limit);
    if k > 0 {
      BlockByBlock(blocks, guilds, last, channel, limit, k - 1);
      BlocksApart(blocks, guilds, channel, limit, k - 1);
      NextBatch(blocks, guilds, last, channel, limit, k - 1);
      BlockHasNoChannel(blocks[k - 1], guilds[k - 1], channel, limit);
      ExcludedNext(Flat(blocks) + [last], channel, limit, k - 1);
    } else {
      ExcludedNext(Flat(blocks) + [last], channel, limit, 0);
      NoGuilds(guilds);
    }
  }

  lemma NoGuilds(guilds: seq<string>)
    ensures GuildSet(guilds[..0]) == {}
  {
  }

  /** Of all the rows only the last one has a guild with a channel. */
  lemma OnlyLastDeliverable(blocks: seq<seq<Row>>, guilds: seq<string>, last: Row, channel: string -> Option<string>, limit: nat)
    requires UnboundBlocks(blocks, guilds, channel, limit) && channel(last.guildId).Some? && limit > 0
    ensures Deliverable(Flat(blocks) + [last], {}, channel) == [last]
    ensures Unconfigured(Flat(blocks) + [last], {}, channel) == GuildSet(guilds)
  {
    var rows := Flat(blocks) + [last];
    FlatGuilds(blocks, guilds, channel, limit);
    FilterAll(rows, Unannounced({}));
    FilterOne(Flat(blocks), last, HasChannel(channel));
    FilterNone(Flat(blocks), HasChannel(channel));
    forall g | g in GuildSet(guilds) ensures g in Unconfigured(rows, {}, channel) {
      var k :| 0 <= k < |guilds| && guilds[k] == g;
      assert UnboundBlock(blocks[k], guilds[k], channel, limit);
      var after := FlatSplit(blocks, k);
      assert blocks[k][0] in blocks[k] && blocks[k][0] in rows;
    }
  }

  lemma {:induction false} GuildSetSize(guilds: seq<string>)
    requires forall i, j :: 0 <= i < j < |guilds| ==> guilds[i] != guilds[j]
    ensures |GuildSet(guilds)| == |guilds|
  {
    if guilds != [] {
      var n := |guilds| - 1;
      GuildSetSize(guilds[..n]);
      assert GuildSet(guilds) == GuildSet(guilds[..n]) + {guilds[n]};
    }
  }

  /** Whatever the limit: four guilds without a channel, with a full batch of rows each at the head of the queue, and the
      pass gives up before it reaches the row it could post. Three are the most it is sure to get past. */
  method FourGuildsStarveThePass(blocks: seq<seq<Row>>, guilds: seq<string>, last: Row, channel: string -> Option<string>,
                                 muted: Row -> bool, lands: nat -> bool, limit: nat)
    returns (count: nat, announced: set<nat>, trace: seq<Call>)
    requires limit > 0 && |blocks| == MAX_FETCHES && UnboundBlocks(blocks, guilds, channel, limit)
    requires channel(last.guildId).Some? && DistinctIds(Flat(blocks) + [last])
    ensures count == 0 && announced == {} && Deliveries(trace) == []
    ensures Deliverable(Flat(blocks) + [last], {}, channel) == [last]
    ensures |Unconfigured(Flat(blocks) + [last], {}, channel)| == MAX_FETCHES
  {
    GuildSetSize(guilds);
    hide Flat, UnboundBlocks, ListPending, Filter, HasChannel, Excluded, DistinctIds, Deliveries, Turns, Attempted;
    var rows := Flat(blocks) + [last];
    forall k | 0 <= k < MAX_FETCHES
      ensures Filter(ListPending(rows, {}, limit, Excluded(rows, {}, channel, limit, k)), HasChannel(channel)) == []
    {
      BlockByBlock(blocks, guilds, last, channel, limit, k);
    }
    OnlyLastDeliverable(blocks, guilds, last, channel, limit);
    count, announced, trace := AnnounceOnce(rows, {}, channel, muted, lands, limit);
  }
}
