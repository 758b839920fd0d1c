# RescueLink matching core in Dafny

RescueLink is a demo web application. Donors post surplus food, an AI engine estimates
how urgent an item is and recommends recipient organisations for it, and a simulated
ledger shows activity. This project models the logic behind those screens:

- the two oracle clients in `services/geminiService.ts`. Each returns one of three
  envelopes: a deterministic mock when no API key is set, an "error" envelope when the
  call throws or answers with empty text, or the AI model's own reply. Neither throws to its
  caller.
- the logistics view in `components/MatchingView.tsx`. It shows the pending donations
  and picks the ItemMatch for a donation: the one with the donation's id, else the first.
  It attaches local recipient records and ranks the matches by score, stable and best
  first.
- the session state in `App.tsx`: landing, login and app views, tabs, the donation list
  and the impact counters.
- the intake form in `components/DonationForm.tsx`: the analysis guard, the submitted
  record and the reset that follows.
- the ledger feed in `components/BlockchainFeed.tsx`: at most ten entries, newest first,
  with an icon chosen from each entry's action.
- the domain types in `types.ts`.

Each source file is one module (`Types`, `GeminiService`, `MatchingView`, `App`,
`DonationForm`, `BlockchainFeed`). Pure code is written as functions and lemmas.
Components whose handlers update state step by step are classes: `MatchingView.Panel`,
`App.Session`, `DonationForm.Form` and `BlockchainFeed.Feed`. Their methods state the new
state in terms of the pure functions.

Inputs that the source reads from the environment are parameters:

- the presence of `process.env.API_KEY` is `hasApiKey`;
- clock readings are one integer `now` in milliseconds per handler;
- random ids and hashes are supplied strings;
- the AI model's reply is an `OracleReply`: `Parsed(envelope)`, `EmptyText` or `Threw`.

The enumerations of `types.ts` are datatypes. `FoodCategory` has six constructors, the
donation status four, and the recipient type three. An optional prediction and a nullable
expiry time are `Option`s. JavaScript numbers are exact `real`s for quantities, distances,
probabilities and CO2, and `int` for scores, ETAs and counters.

Three behaviours of the code are worth noting:

- The mock matcher recommends the first two recipients of the pool whatever their
  `needs`. Against the built-in directory it therefore ranks "Downtown Shelter" first even
  for Produce, which that shelter does not accept (`MatchingView.MockEndToEnd`).
- `handleFindMatch` does not drop a reply that arrives after another donation was
  selected. This project adds no such guard.
- The reply is cast, not validated against a schema, so this project does not validate it
  either. The 0..100 ranges of the urgency and match scores are proved for the mock values
  only.

## Model

| member | source | states |
|---|---|---|
| Types.ParseCategory | types.ts:3-10 | a string read back as a category is the label of that category |
| Types.CategoryLabelRoundTrip | types.ts:3-10 | every category survives the trip through its string value, so the six labels are distinct |
| Types.CategoryLabelsAreTheSix | types.ts:3-10 | the strings that name a category are exactly Produce, Dairy, Bakery, Meat, Prepared Meals and Canned Goods |
| GeminiService.MockPrediction | services/geminiService.ts:61-93 | one prediction that echoes the name, category label, quantity and expiry, with unit kg; urgency 85 (within 0..100), probability 0.9, reason codes MOCK_DATA and EXPIRY_SOON, no safety flags; a window from `now` lasting exactly 86,400,000 ms; summary 1 analysed, 1 high risk, meals = 2 × quantity |
| GeminiService.PredictionError | services/geminiService.ts:172-190 | task "error", confidence 0, no predictions, all summary counters 0 and no recommendations |
| GeminiService.AnalyzeSurplusItem | services/geminiService.ts:55-192 | without a key the result is the mock; with a key a parsed reply is returned as it is, and empty text or a throw gives the error envelope |
| GeminiService.AnalyzeErrorIffFailure | services/geminiService.ts:61-190 | if the AI model never answers task "error", the result has task "error" exactly when a key is set and the call failed |
| GeminiService.MockEntries | services/geminiService.ts:210-221 | min(2, pool size) entries; entry i is for pool[i], with score 95−10i, distance 2.5+1.5i, ETA 15+10i, constraint NEEDS_REFRIGERATION, two reasons and a one-hour pickup window |
| GeminiService.MockScoresDecreasing | services/geminiService.ts:212 | every mock score lies in 0..100 and the scores strictly decrease |
| GeminiService.MockMatch | services/geminiService.ts:200-226 | one ItemMatch for the donation's id holding the mock entries; donor id copied from the donation; fallbacks Compost and Animal Feed, also when the pool is empty |
| GeminiService.MatchError | services/geminiService.ts:296-309 | task "error", confidence 0, no matches, no fallback options, notes ["AI Error"] |
| GeminiService.MatchRecipients | services/geminiService.ts:194-311 | without a key the result is the mock; with a key a parsed reply is returned as it is, and empty text or a throw gives the error envelope |
| GeminiService.MatchErrorIffFailure | services/geminiService.ts:198-309 | if the AI model never answers task "error", the result has task "error" exactly when a key is set and the call failed |
| GeminiService.MockMatchDeterministic | services/geminiService.ts:198-226 | without a key the envelope depends only on donation, pool and clock, not on the AI model's reply |
| MatchingView.ActiveDonations | components/MatchingView.tsx:23 | the pending list holds only pending donations of the input, and every pending donation of the input |
| MatchingView.ActiveDonationsAppend | components/MatchingView.tsx:23 | the filter distributes over concatenation, so kept donations keep their relative order |
| MatchingView.FindFirst | components/MatchingView.tsx:35 | the index found satisfies the test and no earlier one does; none means no element does |
| MatchingView.SelectItemMatch | components/MatchingView.tsx:35 | none exactly when there are no ItemMatches; otherwise the first with the donation's id, or the first of all when none has that id |
| MatchingView.LookupRecipient | components/MatchingView.tsx:40 | the first directory record with the id, or none exactly when no record has it |
| MatchingView.Enrich | components/MatchingView.tsx:39-42 | same length; each RecipientMatch kept unchanged in its place, with the directory lookup for its id attached |
| MatchingView.UnknownRecipientKept | components/MatchingView.tsx:39-42 | a recommendation with an unknown id stays in the list with no record attached |
| MatchingView.DisplayName | components/MatchingView.tsx:139 | an entry without a record, or whose record has an empty name, is shown as "Unknown Recipient"; otherwise the record's name is shown |
| MatchingView.SortSorted | components/MatchingView.tsx:43 | the ranking is ordered by match score, non-increasing |
| MatchingView.SortPermutes | components/MatchingView.tsx:43 | the ranking is a permutation of its input and has the same length |
| MatchingView.SortStable | components/MatchingView.tsx:43 | for every score, the entries with that score keep the order the oracle gave them |
| MatchingView.SortKeepsSorted | components/MatchingView.tsx:43 | an input that is already ranked is returned unchanged |
| MatchingView.RankedMatchesSpec | components/MatchingView.tsx:35-43 | the displayed list has as many entries as the chosen ItemMatch, is a sorted, stable permutation of the enriched list, and the "Best Match" at index 0 scores at least as high as every entry |
| MatchingView.MockRankingShownAsGiven | components/MatchingView.tsx:32-43 | without a key the view shows the mock entries in pool order, scored 95, 85 |
| MatchingView.MockEndToEnd | components/MatchingView.tsx:11-15 | against the built-in directory the mock gives Downtown Shelter (95, "Best Match") then Community Food Bank (85), both found |
| MatchingView.Panel.constructor | components/MatchingView.tsx:18-21 | nothing selected, no matches, not loading, no notes |
| MatchingView.Panel.Available | components/MatchingView.tsx:23 | a donation is offered for matching exactly when it is one of the component's donations and is pending; never more than the component holds |
| MatchingView.Panel.BeginFindMatch | components/MatchingView.tsx:26-29 | the donation is selected, loading is on, matches and notes are cleared |
| MatchingView.Panel.FinishFindMatch | components/MatchingView.tsx:35-50 | loading off; matches become the ranking when an ItemMatch exists and are left as they were otherwise; notes become the envelope's notes |
| MatchingView.Panel.HandleFindMatch | components/MatchingView.tsx:25-51 | afterwards the donation is selected, loading is off, matches are the ranking of the oracle's envelope (empty if it has no ItemMatch) and the notes are its notes |
| App.RenderContent | App.tsx:67-80 | the tabs donate, logistics and blockchain show their screens, and every other tab shows the dashboard |
| App.RenderPage | App.tsx:52-64 | the landing page is shown outside the app, with the wallet dialog exactly in the login view; inside the app the tab's screen is shown |
| App.StatsAfterDonation | App.tsx:35-39 | meals grow by 2 × quantity rounded down, CO2 grows by exactly 2.5 × quantity, donors and communities are unchanged |
| App.StatsMonotone | App.tsx:35-39 | a donation of non-negative quantity lowers no counter |
| App.StatsForSession | App.tsx:12-39 | over a session CO2 is the initial 8500 plus 2.5 × the total kg; meals lie between 2 × total − one per donation and 2 × total above 12450; donors and communities stay at 42 and 18 |
| App.NewDonationHeadsQueue | App.tsx:31 | a pending donation put in front of the list heads the pending queue, before the older pending donations |
| App.Session.constructor | App.tsx:12-28 | view landing, tab dashboard, no donations, initial counters |
| App.Session.GetStarted | App.tsx:55 | the view becomes login; tab, donations and counters are unchanged |
| App.Session.Back | App.tsx:59 | the view becomes landing; nothing else changes |
| App.Session.LoginSuccess | App.tsx:42-44 | the view becomes app; nothing else changes |
| App.Session.Logout | App.tsx:46-49 | the view becomes landing and the tab dashboard; donations and counters are kept |
| App.Session.SelectTab | App.tsx:84-88 | the chosen tab becomes active; nothing else changes |
| App.Session.AddDonation | App.tsx:30-40 | the list becomes the donation followed by the old list, the tab becomes logistics, and the counters are updated; counters stay the function of the donation list |
| App.SubmitDonation | components/DonationForm.tsx:39-44 | the submitted donation heads the session's list and its pending queue and the tab becomes logistics; DonationForm's handler resets the form (category kept), and the app then unmounts it |
| DonationForm.BuildDonation | components/DonationForm.tsx:29-38 | id is "donation_" followed by the random part; donor current_user; status Pending; name, quantity, category, expiry and prediction copied from the form |
| DonationForm.MockAnalysisDescribesDonation | components/DonationForm.tsx:22-37 | a donation submitted after a keyless analysis carries a prediction for exactly its name, quantity, category and expiry, with urgency 85 and 2 meals per kg |
| DonationForm.Form.constructor | components/DonationForm.tsx:11-16 | empty name, quantity 0, category Produce, empty expiry, not analysing, no result |
| DonationForm.Form.HandleAnalyze | components/DonationForm.tsx:18-25 | runs exactly when name, quantity and expiry are all set; then stores the client's envelope and clears the analysing flag; otherwise changes nothing |
| DonationForm.Form.HandleSubmit | components/DonationForm.tsx:27-45 | returns the donation built from the fields; then name, quantity, expiry and result are reset and the category is kept |
| BlockchainFeed.MockChainData | components/BlockchainFeed.tsx:5-30 | three verified seed entries, all timestamped before `now` |
| BlockchainFeed.NewBlock | components/BlockchainFeed.tsx:38-45 | the tick's entry has action BLOCK_CONFIRMATION, actor Validator_Node_01, status Verified and the current time |
| BlockchainFeed.PushBounded | components/BlockchainFeed.tsx:46 | length min(old, 9) + 1, at most 10; the new entry first, then the previous entries in order |
| BlockchainFeed.AfterTicksShape | components/BlockchainFeed.tsx:36-48 | after any ticks the length is min(old + ticks, 10), the newest additions come first, and as many earlier entries as fit follow in order |
| BlockchainFeed.IconFor | components/BlockchainFeed.tsx:72-78 | the box icon exactly for actions containing DONATION, the clock exactly for those containing LOGISTICS but not DONATION, the check otherwise |
| BlockchainFeed.DonationEntryIcon | components/BlockchainFeed.tsx:9 | the seed DONATION_VERIFIED entry shows the box |
| BlockchainFeed.LogisticsEntryIcon | components/BlockchainFeed.tsx:17 | the seed LOGISTICS_UPDATE entry shows the clock |
| BlockchainFeed.MintedEntryIcon | components/BlockchainFeed.tsx:25 | the seed IMPACT_MINTED entry shows the check |
| BlockchainFeed.NewBlockIcon | components/BlockchainFeed.tsx:41 | every tick's BLOCK_CONFIRMATION entry shows the check |
| BlockchainFeed.Feed.constructor | components/BlockchainFeed.tsx:33 | the feed starts with the three seed entries in order |
| BlockchainFeed.Feed.Tick | components/BlockchainFeed.tsx:37-47 | one tick puts the new block in front and keeps at most ten entries |

## Left out

- Network calls to the AI client, `JSON.parse` and the `responseSchema` and system-prompt
  literals are not modelled. The reply is an input, and this project does no schema
  validation because the source does none.
- Missing fields in a reply are not modelled. The source only casts the reply, so
  `matches`, `recommended_recipients` or `notes` could be absent. The envelope datatypes
  declare every field present, as `types.ts` does, so the `?.` and `if (result.notes)`
  guards always pass.
- Several clock reads inside one handler are modelled as a single reading. ISO 8601 and
  locale formatting (`toISOString`, `toFixed`, `toLocaleString`) are left out.
- Arithmetic is exact `real` arithmetic, not IEEE doubles. NaN is not modelled, and
  neither are fractional or out-of-range scores from the AI model.
- `async`/`await`, `setTimeout` and `setInterval` are left out. `MatchingView.Panel.HandleFindMatch`
  runs one request to completion. Its two halves, `BeginFindMatch` and `FinishFindMatch`,
  show the state while the reply is awaited. The interleaving of two requests is not
  modelled.
- The JavaScript engine's sort algorithm is not part of this model. The ranking is a
  stable insertion sort on sequences that meets the same contract: sorted, a permutation,
  and stable. The in-place mutation of the enriched array is not modelled.
- Random ids and hashes are not modelled; they are supplied strings.
- The ledger's seed entries are timed from one clock reading taken when the module loads;
  `BlockchainFeed.Feed.constructor` takes that reading as `now`, so a remounted feed starts
  from the same three entries and times.
- An error thrown while constructing the AI client, before the `try`, is not modelled;
  `OracleReply.Threw` covers failures of `generateContent` and `JSON.parse` only.
- Browser form validation (`required`, `min="1"`) and the input `onChange` setters are
  left out. The submitted record is built from whatever the fields hold.
- Presentation-only files are not part of this model: `LandingPage.tsx`, `Navbar.tsx`
  apart from its tab ids, `WalletLogin.tsx` and `Dashboard.tsx`. Nor is the JSX of the
  core files beyond the lines cited above.
- App.SubmitDonation: component mounting is not modelled. The `Form` object outlives the
  switch to the logistics tab, whereas the app unmounts the form there, so the kept
  category is never shown and the next visit to the donate tab starts from the initial
  form (category Produce). The same holds for a half-filled form left by changing tabs.
- Diagnostic logging (`console.error` in both catch blocks of `services/geminiService.ts`)
  is not modelled.
- Status transitions beyond Pending are not modelled, because the code never performs one.
