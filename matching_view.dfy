/** The logistics view: lists the pending donations, asks the matching oracle for one of
    them, enriches the recommended recipients with the local recipient records and ranks
    them by match score (stable, best first). */
module MatchingView {
  import opened Types
  import GeminiService

  /** The local recipient directory the view matches against. */
  const MockRecipients: seq<Recipient> := [
    Recipient("rec_1", "Downtown Shelter", Shelter, [PreparedMeals, Bakery], 50.0, "34.05,-118.24"),
    Recipient("rec_2", "Community Food Bank", FoodBank, [Produce, CannedGoods, Meat], 500.0, "34.06,-118.25"),
    Recipient("rec_3", "Hope Kitchen", NGO, [Dairy, Produce], 100.0, "34.04,-118.23")
  ]

  // ---------------------------------------------------------------------------
  // Pending list

  /** `donations.filter(d => d.status === 'Pending')`. */
  function ActiveDonations(ds: seq<DonationItem>): (r: seq<DonationItem>)
    ensures |r| <= |ds|
    ensures forall d :: d in r ==> d in ds && d.status == Pending
    ensures forall d :: d in ds && d.status == Pending ==> d in r
  {
    if ds == [] then []
    else (if ds[0].status == Pending then [ds[0]] else []) + ActiveDonations(ds[1..])
  }

  /** Filtering distributes over concatenation: the pending list keeps the relative order
      of the donations it keeps. */
  lemma {:induction false} ActiveDonationsAppend(a: seq<DonationItem>, b: seq<DonationItem>)
    ensures ActiveDonations(a + b) == ActiveDonations(a) + ActiveDonations(b)
  {
    if a == [] {
      assert a + b == b;
    } else {
      assert (a + b)[0] == a[0];
      assert (a + b)[1..] == a[1..] + b;
      ActiveDonationsAppend(a[1..], b);
    }
  }

  // ---------------------------------------------------------------------------
  // Find-first

  /** Index of the first element satisfying `p`, as `Array.prototype.find` locates it. */
  function FindFirst<T>(s: seq<T>, p: T -> bool): (r: Option<nat>)
    ensures r.Some? ==> r.value < |s| && p(s[r.value])
    ensures r.Some? ==> forall k :: 0 <= k < r.value ==> !p(s[k])
    ensures r.None? ==> forall k :: 0 <= k < |s| ==> !p(s[k])
  {
    if s == [] then None
    else if p(s[0]) then Some(0)
    else match FindFirst(s[1..], p)
      case None => None
      case Some(k) => Some(k + 1)
  }

  /** The ItemMatch for the donation: the first whose item id is the donation's id, or else
      the first one of all; none only when the oracle returned no ItemMatch at all. */
  function SelectItemMatch(ms: seq<ItemMatch>, donationId: string): (r: Option<ItemMatch>)
    ensures r.None? <==> ms == []
    ensures r.Some? && r.value.itemId == donationId ==>
      exists k :: 0 <= k < |ms| && ms[k] == r.value && forall j :: 0 <= j < k ==> ms[j].itemId != donationId
    ensures r.Some? && r.value.itemId != donationId ==>
      r.value == ms[0] && forall k :: 0 <= k < |ms| ==> ms[k].itemId != donationId
  {
    match FindFirst(ms, (m: ItemMatch) => m.itemId == donationId)
    case Some(k) => Some(ms[k])
    case None => if ms == [] then None else Some(ms[0])
  }

  /** `MOCK_RECIPIENTS.find(r => r.id === id)`: the first recipient with that id, or none. */
  function LookupRecipient(pool: seq<Recipient>, id: string): (r: Option<Recipient>)
    ensures r.None? <==> forall k :: 0 <= k < |pool| ==> pool[k].id != id
    ensures r.Some? ==>
      exists k :: 0 <= k < |pool| && pool[k] == r.value && r.value.id == id &&
                  forall j :: 0 <= j < k ==> pool[j].id != id
  {
    match FindFirst(pool, (c: Recipient) => c.id == id)
    case Some(k) => Some(pool[k])
    case None => None
  }

  // ---------------------------------------------------------------------------
  // Enrichment

  /** A recommended recipient with the local record spread in (`{ ...m, recipient }`). */
  datatype EnrichedMatch = EnrichedMatch(m: RecipientMatch, recipient: Option<Recipient>) {
    function Score(): int { m.matchScore }
  }

  /** Every RecipientMatch is kept unchanged, in order, with its directory record attached. */
  function Enrich(ms: seq<RecipientMatch>, pool: seq<Recipient>): (r: seq<EnrichedMatch>)
    ensures |r| == |ms|
    ensures forall i :: 0 <= i < |r| ==> r[i].m == ms[i]
    ensures forall i :: 0 <= i < |r| ==> r[i].recipient == LookupRecipient(pool, ms[i].recipientId)
  {
    seq(|ms|, i requires 0 <= i < |ms| => EnrichedMatch(ms[i], LookupRecipient(pool, ms[i].recipientId)))
  }

  /** A recommendation whose id is not in the directory is kept, with no record attached. */
  lemma UnknownRecipientKept(ms: seq<RecipientMatch>, pool: seq<Recipient>, i: int)
    requires 0 <= i < |ms|
    requires forall k :: 0 <= k < |pool| ==> pool[k].id != ms[i].recipientId
    ensures |Enrich(ms, pool)| == |ms|
    ensures Enrich(ms, pool)[i] == EnrichedMatch(ms[i], None)
  {
  }

  /** The heading shown for a match: the recipient's name, or "Unknown Recipient" when no
      record was found (or its name is empty, which `||` also treats as missing). */
  function DisplayName(e: EnrichedMatch): (r: string)
    ensures e.recipient.None? ==> r == "Unknown Recipient"
    ensures e.recipient.Some? && e.recipient.value.name != "" ==> r == e.recipient.value.name
    ensures e.recipient.Some? && e.recipient.value.name == "" ==> r == "Unknown Recipient"
  {
    if e.recipient.Some? && e.recipient.value.name != "" then e.recipient.value.name
    else "Unknown Recipient"
  }

  // ---------------------------------------------------------------------------
  // Ranking: a stable sort under the comparator `b.match_score - a.match_score`

  predicate SortedByScore(s: seq<EnrichedMatch>) {
    forall i, j :: 0 <= i < j < |s| ==> s[i].Score() >= s[j].Score()
  }

  /** The entries of `s` whose score is `v`, in their order in `s`. */
  function WithScore(s: seq<EnrichedMatch>, v: int): seq<EnrichedMatch> {
    if s == [] then []
    else (if s[0].Score() == v then [s[0]] else []) + WithScore(s[1..], v)
  }

  /** Inserts `x` in front of the first entry that does not score strictly higher. */
  function InsertByScore(x: EnrichedMatch, s: seq<EnrichedMatch>): seq<EnrichedMatch> {
    if s == [] then [x]
    else if s[0].Score() > x.Score() then [s[0]] + InsertByScore(x, s[1..])
    else [x] + s
  }

  function SortByScore(s: seq<EnrichedMatch>): seq<EnrichedMatch> {
    if s == [] then [] else InsertByScore(s[0], SortByScore(s[1..]))
  }

  lemma {:induction false} InsertPermutes(x: EnrichedMatch, s: seq<EnrichedMatch>)
    ensures multiset(InsertByScore(x, s)) == multiset(s) + multiset{x}
  {
    if s != [] && s[0].Score() > x.Score() {
      InsertPermutes(x, s[1..]);
      assert s == [s[0]] + s[1..];
    }
  }

  lemma {:induction false} InsertSorted(x: EnrichedMatch, s: seq<EnrichedMatch>)
    requires SortedByScore(s)
    ensures SortedByScore(InsertByScore(x, s))
  {
    if s == [] {
    } else if s[0].Score() > x.Score() {
      var t := InsertByScore(x, s[1..]);
      InsertSorted(x, s[1..]);
      InsertPermutes(x, s[1..]);
      forall j | 0 <= j < |t|
        ensures s[0].Score() >= t[j].Score()
      {
        assert t[j] in multiset(t);
        if t[j] != x {
          assert t[j] in s[1..];
        }
      }
      assert InsertByScore(x, s) == [s[0]] + t;
    } else {
      assert InsertByScore(x, s) == [x] + s;
    }
  }

  /** How the score filter sees an entry put in front of a list. */
  lemma WithScoreCons(e: EnrichedMatch, t: seq<EnrichedMatch>, v: int)
    ensures WithScore([e] + t, v) == (if e.Score() == v then [e] else []) + WithScore(t, v)
  {
    assert ([e] + t)[0] == e && ([e] + t)[1..] == t;
  }

  lemma {:induction false} InsertStable(x: EnrichedMatch, s: seq<EnrichedMatch>, v: int)
    ensures WithScore(InsertByScore(x, s), v) ==
      (if x.Score() == v then [x] else []) + WithScore(s, v)
  {
    if s == [] {
      WithScoreCons(x, [], v);
      assert [x] + [] == [x];
    } else if s[0].Score() > x.Score() {
      InsertStable(x, s[1..], v);
      WithScoreCons(s[0], InsertByScore(x, s[1..]), v);
      WithScoreCons(s[0], s[1..], v);
      assert [s[0]] + s[1..] == s;
    } else {
      WithScoreCons(x, s, v);
    }
  }

  /** The ranking is sorted by score, best first. */
  lemma {:induction false} SortSorted(s: seq<EnrichedMatch>)
    ensures SortedByScore(SortByScore(s))
  {
    if s != [] {
      SortSorted(s[1..]);
      InsertSorted(s[0], SortByScore(s[1..]));
    }
  }

  /** The ranking holds exactly the entries it was given. */
  lemma {:induction false} SortPermutes(s: seq<EnrichedMatch>)
    ensures multiset(SortByScore(s)) == multiset(s)
    ensures |SortByScore(s)| == |s|
  {
    if s != [] {
      SortPermutes(s[1..]);
      InsertPermutes(s[0], SortByScore(s[1..]));
      assert s == [s[0]] + s[1..];
    }
  }

  /** The ranking is stable: for every score, the entries with that score appear in the
      order the oracle gave them. */
  lemma {:induction false} SortStable(s: seq<EnrichedMatch>, v: int)
    ensures WithScore(SortByScore(s), v) == WithScore(s, v)
  {
    if s != [] {
      SortStable(s[1..], v);
      InsertStable(s[0], SortByScore(s[1..]), v);
    }
  }

  /** A list that is already ranked is left as it is. */
  lemma {:induction false} SortKeepsSorted(s: seq<EnrichedMatch>)
    requires SortedByScore(s)
    ensures SortByScore(s) == s
  {
    if s != [] {
      SortKeepsSorted(s[1..]);
      assert SortByScore(s[1..]) == s[1..];
      if |s| > 1 {
        assert s[0].Score() >= s[1].Score();
        assert s[1..][0] == s[1];
      }
      assert [s[0]] + s[1..] == s;
    }
  }

  // ---------------------------------------------------------------------------
  // The whole transformation

  /** The list the view shows for a donation, given the oracle's envelope. */
  function RankedMatches(result: MatchResult, donationId: string, pool: seq<Recipient>): seq<EnrichedMatch> {
    match SelectItemMatch(result.matches, donationId)
    case None => []
    case Some(im) => SortByScore(Enrich(im.recommendedRecipients, pool))
  }

  /** The ranking is a sorted, stable permutation of the enriched recommendations, and the
      "Best Match" entry at index 0 scores at least as high as every recommendation. */
  lemma RankedMatchesSpec(result: MatchResult, donationId: string, pool: seq<Recipient>)
    requires result.matches != []
    ensures var im := SelectItemMatch(result.matches, donationId).value;
            var enriched := Enrich(im.recommendedRecipients, pool);
            var r := RankedMatches(result, donationId, pool);
            && |r| == |im.recommendedRecipients|
            && multiset(r) == multiset(enriched)
            && SortedByScore(r)
            && (forall v :: WithScore(r, v) == WithScore(enriched, v))
            && (forall k :: 0 <= k < |enriched| ==> r[0].Score() >= enriched[k].Score())
  {
    var im := SelectItemMatch(result.matches, donationId).value;
    var enriched := Enrich(im.recommendedRecipients, pool);
    var r := RankedMatches(result, donationId, pool);
    SortPermutes(enriched);
    SortSorted(enriched);
    forall v ensures WithScore(r, v) == WithScore(enriched, v) {
      SortStable(enriched, v);
    }
    forall k | 0 <= k < |enriched| ensures r[0].Score() >= enriched[k].Score() {
      assert enriched[k] in multiset(r);
      var j :| 0 <= j < |r| && r[j] == enriched[k];
    }
  }

  /** With no API key the oracle's ranking is already best first, so the view shows it in
      oracle order: pool[0] at 95 (the "Best Match"), then pool[1] at 85. */
  lemma MockRankingShownAsGiven(donation: DonationItem, pool: seq<Recipient>, now: Timestamp,
                                reply: GeminiService.OracleReply<MatchResult>)
    ensures var r := RankedMatches(GeminiService.MatchRecipients(false, donation, pool, now, reply), donation.id, pool);
            var entries := GeminiService.MockEntries(pool, now);
            && r == Enrich(entries, pool)
            && |r| == Min(2, |pool|)
            && (forall i :: 0 <= i < |r| ==> r[i].m.recipientId == pool[i].id && r[i].Score() == 95 - 10 * i)
  {
    var entries := GeminiService.MockEntries(pool, now);
    var enriched := Enrich(entries, pool);
    GeminiService.MockScoresDecreasing(pool, now);
    assert SortedByScore(enriched);
    SortKeepsSorted(enriched);
  }

  /** Against the built-in directory the mock recommends the first two records, both found:
      "Downtown Shelter" first and "Community Food Bank" second, whatever the category. */
  lemma MockEndToEnd(donation: DonationItem, now: Timestamp,
                     reply: GeminiService.OracleReply<MatchResult>)
    ensures var r := RankedMatches(GeminiService.MatchRecipients(false, donation, MockRecipients, now, reply),
                                   donation.id, MockRecipients);
            && |r| == 2
            && r[0].recipient == Some(MockRecipients[0]) && r[0].Score() == 95
            && r[1].recipient == Some(MockRecipients[1]) && r[1].Score() == 85
            && DisplayName(r[0]) == "Downtown Shelter"
  {
    MockRankingShownAsGiven(donation, MockRecipients, now, reply);
    var r := RankedMatches(GeminiService.MatchRecipients(false, donation, MockRecipients, now, reply),
                           donation.id, MockRecipients);
    assert r[0].m.recipientId == "rec_1";
    assert r[1].m.recipientId == "rec_2";
    assert MockRecipients[0].id == "rec_1";
    assert MockRecipients[1].id == "rec_2" && MockRecipients[0].id != "rec_2";
  }

  // ---------------------------------------------------------------------------
  // The component's state

  /** The state of one MatchingView: the donations it was given and the selection,
      ranked matches, loading flag and oracle notes it keeps. */
  class Panel {
    const donations: seq<DonationItem>
    var selectedDonation: Option<string>
    var matches: seq<EnrichedMatch>
    var loading: bool
    var analysisNotes: seq<string>

    constructor(donations: seq<DonationItem>)
      ensures this.donations == donations
      ensures selectedDonation == None && matches == [] && !loading && analysisNotes == []
    {
      this.donations := donations;
      selectedDonation := None;
      matches := [];
      loading := false;
      analysisNotes := [];
    }

    /** The donations the view offers for matching. */
    function Available(): (r: seq<DonationItem>)
      ensures |r| <= |donations|
      ensures forall d :: d in r <==> d in donations && d.status == Pending
    {
      ActiveDonations(donations)
    }

    /** The synchronous part of `handleFindMatch`, before the oracle is awaited. */
    method BeginFindMatch(donation: DonationItem)
      modifies this
      ensures selectedDonation == Some(donation.id) && loading
      ensures matches == [] && analysisNotes == []
    {
      selectedDonation := Some(donation.id);
      loading := true;
      matches := [];
      analysisNotes := [];
    }

    /** The part of `handleFindMatch` after the oracle answered with `result`. */
    method FinishFindMatch(donation: DonationItem, result: MatchResult)
      modifies this
      ensures selectedDonation == old(selectedDonation) && !loading
      ensures matches == if result.matches == [] then old(matches)
                         else RankedMatches(result, donation.id, MockRecipients)
      ensures analysisNotes == result.notes
    {
      var itemMatch := SelectItemMatch(result.matches, donation.id);
      if itemMatch.Some? {
        var enriched := Enrich(itemMatch.value.recommendedRecipients, MockRecipients);
        matches := SortByScore(enriched);
      }
      analysisNotes := result.notes;
      loading := false;
    }

    /** `handleFindMatch` run to completion, without another selection in between. */
    method HandleFindMatch(donation: DonationItem, hasApiKey: bool, now: Timestamp,
                           reply: GeminiService.OracleReply<MatchResult>)
      modifies this
      ensures selectedDonation == Some(donation.id) && !loading
      ensures var result := GeminiService.MatchRecipients(hasApiKey, donation, MockRecipients, now, reply);
              matches == RankedMatches(result, donation.id, MockRecipients) &&
              analysisNotes == result.notes
    {
      BeginFindMatch(donation);
      var result := GeminiService.MatchRecipients(hasApiKey, donation, MockRecipients, now, reply);
      FinishFindMatch(donation, result);
    }
  }
}
