/** Domain entities of RescueLink: donations, recipients, the two oracle envelopes
    (surplus prediction and recipient matching), ledger entries and impact counters. */
module Types {

  datatype Option<+T> = None | Some(value: T)

  /** Milliseconds since the epoch; the source renders these as ISO 8601 strings. */
  type Timestamp = int

  /** A score documented as lying in 0..100 (urgency score, match score). */
  predicate IsPercentScore(x: int) {
    0 <= x <= 100
  }

  function Min(a: int, b: int): int {
    if a <= b then a else b
  }

  // ---------------------------------------------------------------------------
  // Food categories

  datatype FoodCategory = Produce | Dairy | Bakery | Meat | PreparedMeals | CannedGoods

  /** The string value each category carries at run time. */
  function CategoryLabel(c: FoodCategory): string {
    match c
    case Produce => "Produce"
    case Dairy => "Dairy"
    case Bakery => "Bakery"
    case Meat => "Meat"
    case PreparedMeals => "Prepared Meals"
    case CannedGoods => "Canned Goods"
  }

  /** Reads a category back from its string value: the inverse of CategoryLabel. */
  function ParseCategory(s: string): (r: Option<FoodCategory>)
    ensures r.Some? ==> CategoryLabel(r.value) == s
  {
    if s == "Produce" then Some(Produce)
    else if s == "Dairy" then Some(Dairy)
    else if s == "Bakery" then Some(Bakery)
    else if s == "Meat" then Some(Meat)
    else if s == "Prepared Meals" then Some(PreparedMeals)
    else if s == "Canned Goods" then Some(CannedGoods)
    else None
  }

  /** Every category survives the trip through its string value, so the six labels are
      pairwise distinct and a string names at most one category. */
  lemma CategoryLabelRoundTrip(c: FoodCategory)
    ensures ParseCategory(CategoryLabel(c)) == Some(c)
  {
  }

  /** The category labels are exactly the six strings of the source enumeration. */
  lemma CategoryLabelsAreTheSix(s: string)
    ensures ParseCategory(s).Some? <==>
      s in {"Produce", "Dairy", "Bakery", "Meat", "Prepared Meals", "Canned Goods"}
  {
  }

  // ---------------------------------------------------------------------------
  // Recipients and donations

  datatype RecipientType = NGO | Shelter | FoodBank

  datatype Recipient = Recipient(
    id: string,
    name: string,
    kind: RecipientType,
    needs: seq<FoodCategory>,
    capacityKg: real,
    location: string)

  /** The four lifecycle states a donation can be in. */
  datatype DonationStatus = Pending | Matched | InTransit | Delivered

  datatype DonationItem = DonationItem(
    id: string,
    donorId: string,
    name: string,
    quantityKg: real,
    category: FoodCategory,
    expiryDate: string,
    status: DonationStatus,
    aiPrediction: Option<AIPredictionResult>)

  // ---------------------------------------------------------------------------
  // Surplus prediction envelope

  datatype Window = Window(start: Timestamp, end: Timestamp)

  datatype SurplusItemPrediction = SurplusItemPrediction(
    itemId: string,
    itemName: string,
    category: string,
    quantity: real,
    unit: string,
    expiryTime: Option<string>,          // null when the expiry is uncertain
    surplusProbability: real,
    reasonCodes: seq<string>,
    recommendedDonationWindow: Window,
    urgencyScore: int,                   // documented as 0..100
    safetyFlags: seq<string>)

  datatype PredictionSummary = PredictionSummary(
    itemsAnalyzed: int,
    itemsHighRiskWaste: int,
    estimatedMealsRescuedIfDonated: real,
    topRecommendations: seq<string>)

  datatype AIPredictionResult = AIPredictionResult(
    task: string,
    version: string,
    confidence: real,
    requiredFields: seq<string>,
    donorId: string,
    timeGenerated: Timestamp,
    predictions: seq<SurplusItemPrediction>,
    summary: PredictionSummary,
    notes: seq<string>)

  // ---------------------------------------------------------------------------
  // Recipient matching envelope

  datatype RecipientMatch = RecipientMatch(
    recipientId: string,
    matchScore: int,                     // documented as 0..100
    distanceKm: real,
    etaMinutes: int,
    pickupWindow: Window,
    constraints: seq<string>,
    whyThisMatch: seq<string>)

  datatype ItemMatch = ItemMatch(
    itemId: string,
    recommendedRecipients: seq<RecipientMatch>)

  datatype MatchResult = MatchResult(
    task: string,
    version: string,
    confidence: real,
    requiredFields: seq<string>,
    donorId: string,
    timeGenerated: Timestamp,
    matches: seq<ItemMatch>,
    fallbackOptions: seq<string>,
    notes: seq<string>)

  // ---------------------------------------------------------------------------
  // Ledger feed and impact counters

  datatype TxStatus = Verified | TxPending

  datatype BlockchainTransaction = BlockchainTransaction(
    hash: string,
    timestamp: Timestamp,
    action: string,
    actor: string,
    details: string,
    status: TxStatus)

  datatype ImpactStats = ImpactStats(
    totalMealsSaved: int,
    co2ReducedKg: real,
    activeDonors: int,
    communitiesServed: int)
}
