/** The two oracle clients: surplus prediction and recipient matching.
    Each ends in exactly one of three envelopes: a deterministic mock when no API key is
    configured, the "error" envelope when the call throws or answers with empty text, or
    the oracle's own reply (cast, not validated). Neither ever fails towards its caller. */
module GeminiService {
  import opened Types

  /** What the external model call produced. `Parsed` is the reply text after `JSON.parse`;
      `EmptyText` is a reply without text; `Threw` is an exception from `generateContent` or
      `JSON.parse`. An error from constructing the client happens before the `try` and is
      not turned into the error envelope; it is not part of this model. */
  datatype OracleReply<T> = Parsed(envelope: T) | EmptyText | Threw

  const DayMs: int := 86_400_000
  const HourMs: int := 3_600_000

  // ---------------------------------------------------------------------------
  // Surplus prediction

  /** The shape of the fallback prediction envelope: task "error", confidence 0, no
      predictions and a zeroed summary. */
  predicate IsPredictionError(r: AIPredictionResult) {
    && r.task == "error"
    && r.confidence == 0.0
    && r.predictions == []
    && r.summary.itemsAnalyzed == 0
    && r.summary.itemsHighRiskWaste == 0
    && r.summary.estimatedMealsRescuedIfDonated == 0.0
    && r.summary.topRecommendations == []
  }

  /** The development stand-in returned when no API key is set. */
  function MockPrediction(itemName: string, quantityKg: real, category: FoodCategory,
                          expiryDate: string, now: Timestamp): (r: AIPredictionResult)
    ensures r.task == "predict_surplus" && r.requiredFields == []
    ensures |r.predictions| == 1
    ensures r.predictions[0].itemName == itemName
    ensures r.predictions[0].category == CategoryLabel(category)
    ensures r.predictions[0].quantity == quantityKg && r.predictions[0].unit == "kg"
    ensures r.predictions[0].expiryTime == Some(expiryDate)
    ensures r.predictions[0].urgencyScore == 85 && IsPercentScore(r.predictions[0].urgencyScore)
    ensures r.predictions[0].surplusProbability == 9.0 / 10.0
    ensures r.predictions[0].reasonCodes == ["MOCK_DATA", "EXPIRY_SOON"]
    ensures r.predictions[0].safetyFlags == []
    ensures r.predictions[0].recommendedDonationWindow.start == now
    ensures r.predictions[0].recommendedDonationWindow.end - r.predictions[0].recommendedDonationWindow.start == DayMs
    ensures r.summary.itemsAnalyzed == 1 && r.summary.itemsHighRiskWaste == 1
    ensures r.summary.estimatedMealsRescuedIfDonated == quantityKg * 2.0
    ensures r.timeGenerated == now
  {
    AIPredictionResult(
      task := "predict_surplus",
      version := "1.0",
      confidence := 0.95,
      requiredFields := [],
      donorId := "mock_donor",
      timeGenerated := now,
      predictions := [SurplusItemPrediction(
        itemId := "mock_item_1",
        itemName := itemName,
        category := CategoryLabel(category),
        quantity := quantityKg,
        unit := "kg",
        expiryTime := Some(expiryDate),
        surplusProbability := 0.9,
        reasonCodes := ["MOCK_DATA", "EXPIRY_SOON"],
        recommendedDonationWindow := Window(now, now + DayMs),
        urgencyScore := 85,
        safetyFlags := [])],
      summary := PredictionSummary(
        itemsAnalyzed := 1,
        itemsHighRiskWaste := 1,
        estimatedMealsRescuedIfDonated := quantityKg * 2.0,
        topRecommendations := ["Dispatch immediately"]),
      notes := ["Mock response: API Key missing"])
  }

  /** The safe fallback returned when the oracle call fails. */
  function PredictionError(now: Timestamp): (r: AIPredictionResult)
    ensures IsPredictionError(r)
    ensures r.requiredFields == [] && r.notes == ["Failed to connect to AI engine."]
  {
    AIPredictionResult(
      task := "error",
      version := "0.0",
      confidence := 0.0,
      requiredFields := [],
      donorId := "unknown",
      timeGenerated := now,
      predictions := [],
      summary := PredictionSummary(0, 0, 0.0, []),
      notes := ["Failed to connect to AI engine."])
  }

  /** `analyzeSurplusItem`: the API key, the clock and the AI model's reply are inputs. */
  function AnalyzeSurplusItem(hasApiKey: bool, itemName: string, quantityKg: real,
                              category: FoodCategory, expiryDate: string, now: Timestamp,
                              reply: OracleReply<AIPredictionResult>): (r: AIPredictionResult)
    ensures !hasApiKey ==> r == MockPrediction(itemName, quantityKg, category, expiryDate, now)
    ensures hasApiKey && reply.Parsed? ==> r == reply.envelope
    ensures hasApiKey && !reply.Parsed? ==> IsPredictionError(r)
  {
    if !hasApiKey then MockPrediction(itemName, quantityKg, category, expiryDate, now)
    else match reply
      case Parsed(env) => env
      case EmptyText => PredictionError(now)
      case Threw => PredictionError(now)
  }

  /** Errors are data: the caller can tell a failed call from a successful one by the task
      alone, as long as the oracle itself never answers with task "error". */
  lemma AnalyzeErrorIffFailure(hasApiKey: bool, itemName: string, quantityKg: real,
                               category: FoodCategory, expiryDate: string, now: Timestamp,
                               reply: OracleReply<AIPredictionResult>)
    requires reply.Parsed? ==> reply.envelope.task != "error"
    ensures AnalyzeSurplusItem(hasApiKey, itemName, quantityKg, category, expiryDate, now, reply).task == "error"
            <==> hasApiKey && !reply.Parsed?
  {
  }

  // ---------------------------------------------------------------------------
  // Recipient matching

  /** The shape of the fallback matching envelope. */
  predicate IsMatchError(r: MatchResult) {
    && r.task == "error"
    && r.confidence == 0.0
    && r.matches == []
    && r.fallbackOptions == []
    && r.notes == ["AI Error"]
  }

  /** The i-th entry of the mock ranking, for recipient `rec`. */
  function MockEntry(rec: Recipient, i: int, now: Timestamp): RecipientMatch {
    RecipientMatch(
      recipientId := rec.id,
      matchScore := 95 - i * 10,
      distanceKm := 2.5 + i as real * 1.5,
      etaMinutes := 15 + i * 10,
      pickupWindow := Window(now, now + HourMs),
      constraints := ["NEEDS_REFRIGERATION"],
      whyThisMatch := ["High demand for this category", "Within 5km radius"])
  }

  /** `potentialRecipients.slice(0, 2).map(...)`: the first two recipients of the pool, in
      pool order, without looking at their needs or capacity. */
  function MockEntries(pool: seq<Recipient>, now: Timestamp): (r: seq<RecipientMatch>)
    ensures |r| == Min(2, |pool|)
    ensures forall i :: 0 <= i < |r| ==> r[i].recipientId == pool[i].id
    ensures forall i :: 0 <= i < |r| ==>
      r[i].matchScore == 95 - 10 * i && r[i].etaMinutes == 15 + 10 * i &&
      r[i].distanceKm == 2.5 + 1.5 * i as real
    ensures forall i :: 0 <= i < |r| ==>
      r[i].constraints == ["NEEDS_REFRIGERATION"] && |r[i].whyThisMatch| == 2 &&
      r[i].pickupWindow.end - r[i].pickupWindow.start == HourMs
  {
    var prefix := pool[..Min(2, |pool|)];
    seq(|prefix|, i requires 0 <= i < |prefix| => MockEntry(prefix[i], i, now))
  }

  /** Every mock score lies in 0..100 and the mock ranking is already strictly decreasing. */
  lemma MockScoresDecreasing(pool: seq<Recipient>, now: Timestamp)
    ensures forall i :: 0 <= i < |MockEntries(pool, now)| ==>
      IsPercentScore(MockEntries(pool, now)[i].matchScore)
    ensures forall i, j :: 0 <= i < j < |MockEntries(pool, now)| ==>
      MockEntries(pool, now)[i].matchScore > MockEntries(pool, now)[j].matchScore
  {
  }

  function MockMatch(donation: DonationItem, pool: seq<Recipient>, now: Timestamp): (r: MatchResult)
    ensures r.task == "match_recipients" && r.requiredFields == []
    ensures r.donorId == donation.donorId
    ensures |r.matches| == 1 && r.matches[0].itemId == donation.id
    ensures r.matches[0].recommendedRecipients == MockEntries(pool, now)
    ensures r.fallbackOptions == ["Compost", "Animal Feed"]
    ensures r.timeGenerated == now
  {
    MatchResult(
      task := "match_recipients",
      version := "1.0",
      confidence := 0.9,
      requiredFields := [],
      donorId := donation.donorId,
      timeGenerated := now,
      matches := [ItemMatch(donation.id, MockEntries(pool, now))],
      fallbackOptions := ["Compost", "Animal Feed"],
      notes := ["Mock Response: Key Missing"])
  }

  function MatchError(now: Timestamp): (r: MatchResult)
    ensures IsMatchError(r)
  {
    MatchResult(
      task := "error",
      version := "0.0",
      confidence := 0.0,
      requiredFields := [],
      donorId := "unknown",
      timeGenerated := now,
      matches := [],
      fallbackOptions := [],
      notes := ["AI Error"])
  }

  /** `matchRecipients`: the API key, the clock and the AI model's reply are inputs. */
  function MatchRecipients(hasApiKey: bool, donation: DonationItem, pool: seq<Recipient>,
                           now: Timestamp, reply: OracleReply<MatchResult>): (r: MatchResult)
    ensures !hasApiKey ==> r == MockMatch(donation, pool, now)
    ensures hasApiKey && reply.Parsed? ==> r == reply.envelope
    ensures hasApiKey && !reply.Parsed? ==> IsMatchError(r)
  {
    if !hasApiKey then MockMatch(donation, pool, now)
    else match reply
      case Parsed(env) => env
      case EmptyText => MatchError(now)
      case Threw => MatchError(now)
  }

  lemma MatchErrorIffFailure(hasApiKey: bool, donation: DonationItem, pool: seq<Recipient>,
                             now: Timestamp, reply: OracleReply<MatchResult>)
    requires reply.Parsed? ==> reply.envelope.task != "error"
    ensures MatchRecipients(hasApiKey, donation, pool, now, reply).task == "error"
            <==> hasApiKey && !reply.Parsed?
  {
  }

  /** The mock is reproducible: without a key, the same donation, pool and clock reading give
      the same envelope whatever the AI model would have answered. */
  lemma MockMatchDeterministic(donation: DonationItem, pool: seq<Recipient>, now: Timestamp,
                               r1: OracleReply<MatchResult>, r2: OracleReply<MatchResult>)
    ensures MatchRecipients(false, donation, pool, now, r1) == MatchRecipients(false, donation, pool, now, r2)
  {
  }
}
