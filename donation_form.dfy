/** The donation intake form: an optional AI analysis of the item being typed in, then
    submission of a Pending donation and a reset of the form. */
module DonationForm {
  import opened Types
  import GeminiService

  /** The guard of `handleAnalyze`: it does nothing while the name is empty, the quantity is
      0 or the expiry is empty (the falsy values of those fields). */
  predicate CanAnalyze(name: string, quantity: real, expiry: string) {
    name != "" && quantity != 0.0 && expiry != ""
  }

  const IdPrefix: string := "donation_"
  const CurrentUser: string := "current_user"

  /** The record `handleSubmit` builds from the form fields; `idSuffix` stands for the random
      base-36 digits that follow the prefix. */
  function BuildDonation(idSuffix: string, name: string, quantity: real, category: FoodCategory,
                         expiry: string, aiResult: Option<AIPredictionResult>): (d: DonationItem)
    ensures IdPrefix <= d.id && d.id[|IdPrefix|..] == idSuffix
    ensures d.donorId == CurrentUser && d.status == Pending
    ensures d.name == name && d.quantityKg == quantity && d.category == category
    ensures d.expiryDate == expiry
    ensures d.aiPrediction == aiResult
  {
    DonationItem(
      id := IdPrefix + idSuffix,
      donorId := CurrentUser,
      name := name,
      quantityKg := quantity,
      category := category,
      expiryDate := expiry,
      status := Pending,
      aiPrediction := aiResult)
  }

  /** A donation submitted right after a keyless analysis carries a prediction that
      describes exactly that donation, with urgency 85 and an estimate of two meals per kg. */
  lemma MockAnalysisDescribesDonation(idSuffix: string, name: string, quantity: real,
                                      category: FoodCategory, expiry: string, now: Timestamp,
                                      reply: GeminiService.OracleReply<AIPredictionResult>)
    ensures var d := BuildDonation(idSuffix, name, quantity, category, expiry,
                       Some(GeminiService.AnalyzeSurplusItem(false, name, quantity, category, expiry, now, reply)));
            var p := d.aiPrediction.value;
            && |p.predictions| == 1
            && p.predictions[0].itemName == d.name
            && p.predictions[0].quantity == d.quantityKg
            && p.predictions[0].category == CategoryLabel(d.category)
            && p.predictions[0].expiryTime == Some(d.expiryDate)
            && p.predictions[0].urgencyScore == 85
            && p.summary.estimatedMealsRescuedIfDonated == 2.0 * d.quantityKg
  {
  }

  /** The state of one DonationForm. */
  class Form {
    var name: string
    var quantity: real
    var category: FoodCategory
    var expiry: string
    var isAnalyzing: bool
    var aiResult: Option<AIPredictionResult>

    constructor()
      ensures name == "" && quantity == 0.0 && category == Produce && expiry == ""
      ensures !isAnalyzing && aiResult == None
    {
      name := "";
      quantity := 0.0;
      category := Produce;
      expiry := "";
      isAnalyzing := false;
      aiResult := None;
    }

    /** `handleAnalyze` run to completion; `ran` tells whether the guard let it through. */
    method HandleAnalyze(hasApiKey: bool, now: Timestamp,
                         reply: GeminiService.OracleReply<AIPredictionResult>) returns (ran: bool)
      modifies this
      ensures ran <==> CanAnalyze(old(name), old(quantity), old(expiry))
      ensures name == old(name) && quantity == old(quantity) && category == old(category)
      ensures expiry == old(expiry)
      ensures ran ==> !isAnalyzing && aiResult == Some(GeminiService.AnalyzeSurplusItem(
                        hasApiKey, name, quantity, category, expiry, now, reply))
      ensures !ran ==> isAnalyzing == old(isAnalyzing) && aiResult == old(aiResult)
    {
      if !CanAnalyze(name, quantity, expiry) {
        return false;
      }
      isAnalyzing := true;
      var result := GeminiService.AnalyzeSurplusItem(hasApiKey, name, quantity, category, expiry, now, reply);
      aiResult := Some(result);
      isAnalyzing := false;
      ran := true;
    }

    /** `handleSubmit`: returns the donation handed to the parent, then resets every field
        except the category. */
    method HandleSubmit(idSuffix: string) returns (d: DonationItem)
      modifies this
      ensures d == BuildDonation(idSuffix, old(name), old(quantity), old(category), old(expiry), old(aiResult))
      ensures name == "" && quantity == 0.0 && expiry == "" && aiResult == None
      ensures category == old(category) && isAnalyzing == old(isAnalyzing)
      ensures !CanAnalyze(name, quantity, expiry)
    {
      d := BuildDonation(idSuffix, name, quantity, category, expiry, aiResult);
      name := "";
      quantity := 0.0;
      expiry := "";
      aiResult := None;
    }
  }
}
