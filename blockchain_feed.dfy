/** The simulated transparency ledger: a feed that starts from three fixed entries and,
    on every interval tick, puts a new block confirmation in front while keeping at most
    ten entries. Entries are shown with an icon chosen from their action. */
module BlockchainFeed {
  import opened Types

  const FeedLimit: nat := 10
  const MinuteMs: int := 60_000

  /** The three entries the feed starts with, timed relative to the clock reading `now`.
      The seed list is a module-level constant, so `now` is the one reading taken when the
      module is loaded, not the time a feed is created: every feed starts from the same
      three entries with the same times. */
  function MockChainData(now: Timestamp): (r: seq<BlockchainTransaction>)
    ensures |r| == 3
    ensures forall i :: 0 <= i < |r| ==> r[i].status == Verified && r[i].timestamp < now
  {
    [ BlockchainTransaction("0x8f2a...9b1c", now - 5 * MinuteMs, "DONATION_VERIFIED",
        "Validator_Node_04", "Verified 50kg tomatoes quality via image analysis", Verified),
      BlockchainTransaction("0x3c4d...1e2f", now - 30 * MinuteMs, "LOGISTICS_UPDATE",
        "Driver_Wallet_X9", "Pickup confirmed at Joe's Diner", Verified),
      BlockchainTransaction("0xa1b2...c3d4", now - 120 * MinuteMs, "IMPACT_MINTED",
        "RescueLink_Contract", "Minted 12 Impact Credits for 400 meals saved", Verified) ]
  }

  /** The entry a tick adds; `hash` stands for the random hex digits of the source. */
  function NewBlock(hash: string, now: Timestamp): (tx: BlockchainTransaction)
    ensures tx.action == "BLOCK_CONFIRMATION" && tx.actor == "Validator_Node_01"
    ensures tx.status == Verified && tx.timestamp == now && tx.hash == hash
  {
    BlockchainTransaction(hash, now, "BLOCK_CONFIRMATION", "Validator_Node_01",
      "New block validated containing 4 transactions", Verified)
  }

  /** `[newTx, ...prev.slice(0, 9)]`. */
  function PushBounded(prev: seq<BlockchainTransaction>, tx: BlockchainTransaction): (r: seq<BlockchainTransaction>)
    ensures |r| == Min(|prev|, FeedLimit - 1) + 1 && |r| <= FeedLimit
    ensures r[0] == tx
    ensures forall i :: 1 <= i < |r| ==> r[i] == prev[i - 1]
  {
    [tx] + prev[..Min(|prev|, FeedLimit - 1)]
  }

  /** The feed after the ticks that added `txs`, oldest tick first. */
  function AfterTicks(feed: seq<BlockchainTransaction>, txs: seq<BlockchainTransaction>): seq<BlockchainTransaction> {
    if txs == [] then feed
    else PushBounded(AfterTicks(feed, txs[..|txs| - 1]), txs[|txs| - 1])
  }

  /** After any number of ticks the feed holds the newest entries first: the latest
      additions, newest first, followed by as many of the earlier entries as still fit,
      and never more than ten entries in all. */
  lemma {:induction false} AfterTicksShape(feed: seq<BlockchainTransaction>, txs: seq<BlockchainTransaction>)
    requires |feed| <= FeedLimit
    ensures |AfterTicks(feed, txs)| == Min(|feed| + |txs|, FeedLimit)
    ensures forall i :: 0 <= i < Min(|txs|, FeedLimit) ==> AfterTicks(feed, txs)[i] == txs[|txs| - 1 - i]
    ensures forall k :: 0 <= k < |feed| && |txs| + k < FeedLimit ==> AfterTicks(feed, txs)[|txs| + k] == feed[k]
  {
    if txs != [] {
      var init := txs[..|txs| - 1];
      AfterTicksShape(feed, init);
      var prev := AfterTicks(feed, init);
      var r := AfterTicks(feed, txs);
      assert r == PushBounded(prev, txs[|txs| - 1]);
      forall i | 1 <= i < Min(|txs|, FeedLimit)
        ensures r[i] == txs[|txs| - 1 - i]
      {
        assert r[i] == prev[i - 1] == init[|init| - 1 - (i - 1)];
      }
      forall k | 0 <= k < |feed| && |txs| + k < FeedLimit
        ensures r[|txs| + k] == feed[k]
      {
        assert r[|txs| + k] == prev[|init| + k];
      }
    }
  }

  // ---------------------------------------------------------------------------
  // Icons

  datatype Icon = BoxIcon | ClockIcon | CheckIcon

  /** `s.includes(sub)`: `sub` occurs in `s` at some position. */
  predicate Contains(s: string, sub: string) {
    exists i | 0 <= i <= |s| - |sub| :: OccursAt(s, sub, i)
  }

  predicate OccursAt(s: string, sub: string, i: int) {
    0 <= i <= |s| - |sub| && s[i..i + |sub|] == sub
  }

  /** Every character of a contained string occurs in the containing one. */
  lemma ContainsHasChars(s: string, sub: string, k: int)
    requires Contains(s, sub) && 0 <= k < |sub|
    ensures sub[k] in s
  {
    var i :| 0 <= i <= |s| - |sub| && OccursAt(s, sub, i);
    assert s[i..i + |sub|] == sub;
    assert s[i + k] == sub[k];
  }

  /** `action.includes('DONATION')` is tested first, then `'LOGISTICS'`. */
  function IconFor(action: string): (icon: Icon)
    ensures icon == BoxIcon <==> Contains(action, "DONATION")
    ensures icon == ClockIcon <==> !Contains(action, "DONATION") && Contains(action, "LOGISTICS")
  {
    if Contains(action, "DONATION") then BoxIcon
    else if Contains(action, "LOGISTICS") then ClockIcon
    else CheckIcon
  }

  /** The seed donation entry shows a box. */
  lemma DonationEntryIcon(now: Timestamp)
    ensures IconFor(MockChainData(now)[0].action) == BoxIcon
  {
    var action := MockChainData(now)[0].action;
    assert OccursAt(action, "DONATION", 0);
  }

  /** The seed logistics entry shows a clock: it mentions LOGISTICS but has no 'N', so it
      cannot contain DONATION. */
  lemma LogisticsEntryIcon(now: Timestamp)
    ensures IconFor(MockChainData(now)[1].action) == ClockIcon
  {
    var action := MockChainData(now)[1].action;
    assert OccursAt(action, "LOGISTICS", 0);
    MissingCharNotContained(action, "DONATION", 2);
  }

  /** A string lacking one of the characters of `sub` does not contain `sub`. */
  lemma MissingCharNotContained(s: string, sub: string, k: int)
    requires 0 <= k < |sub| && sub[k] !in s
    ensures !Contains(s, sub)
  {
    if Contains(s, sub) {
      ContainsHasChars(s, sub, k);
    }
  }

  /** The seed minting entry has no 'O' and no 'L', so it shows the check icon. */
  lemma MintedEntryIcon(now: Timestamp)
    ensures IconFor(MockChainData(now)[2].action) == CheckIcon
  {
    var minted := MockChainData(now)[2].action;
    assert minted == "IMPACT_MINTED";
    MissingCharNotContained(minted, "DONATION", 1);
    MissingCharNotContained(minted, "LOGISTICS", 0);
  }

  /** A tick's block confirmation has no 'D' and no 'G', so it shows the check icon. */
  lemma NewBlockIcon(hash: string, now: Timestamp)
    ensures IconFor(NewBlock(hash, now).action) == CheckIcon
  {
    var block := NewBlock(hash, now).action;
    assert block == "BLOCK_CONFIRMATION";
    MissingCharNotContained(block, "DONATION", 0);
    MissingCharNotContained(block, "LOGISTICS", 2);
  }

  // ---------------------------------------------------------------------------
  // The component's state

  class Feed {
    var transactions: seq<BlockchainTransaction>

    constructor(now: Timestamp)
      ensures transactions == MockChainData(now)
    {
      transactions := MockChainData(now);
    }

    /** One interval tick of the live feed. */
    method Tick(hash: string, now: Timestamp)
      modifies this
      ensures transactions == PushBounded(old(transactions), NewBlock(hash, now))
    {
      var newTx := NewBlock(hash, now);
      transactions := PushBounded(transactions, newTx);
    }
  }
}
