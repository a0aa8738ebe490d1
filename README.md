# Blue Guardian: a verified model of the carbon-credit demo's logic

Blue Guardian is a web demo for blue-carbon (mangrove restoration) credits.
NGOs submit restoration projects, which pass through self-verification and
peer review before they are listed on a marketplace. Investors filter
projects, buy credits and retire them. A mock satellite service scores
restoration from vegetation indices. Community members submit field
evidence and review it.

This project models, in Dafny, the logic behind those screens:

- the page handlers, as classes whose fields are the page state;
- the filters, sums and classifiers, as functions;
- the mock satellite pipeline, with every random draw passed in as a parameter;
- the fixture data.

It then proves what the code promises about them.

There is one module per source file:

| module | file |
|---|---|
| `JsRuntime` | the JavaScript built-ins the code leans on: `Math.round`/`Math.floor`, `parseFloat`/`parseInt`, `trim`, upper-casing the first letter, `filter`/`reduce`/`find` |
| `MockData` | `src/data/mockData.ts` |
| `ProjectSubmissionPage` | `src/pages/ProjectSubmission.tsx` |
| `VerificationManagement` | `src/pages/VerificationManagement.tsx` |
| `InvestorPortfolio` | `src/pages/InvestorPortfolio.tsx` |
| `InvestorMarketplace` | `src/pages/InvestorMarketplace.tsx` |
| `ProjectDetail` | `src/pages/ProjectDetail.tsx` |
| `VerificationFlow` | `src/pages/VerificationFlow.tsx` |
| `StatCard` | `src/components/ui/stat-card.tsx` |
| `SatelliteService` | `src/services/satelliteService.ts` |
| `TimeSeriesMonitor` | `src/components/TimeSeriesMonitor.tsx` |
| `SatelliteViewer` | `src/components/SatelliteViewer.tsx` |
| `CommunityVerification` | `src/pages/CommunityVerification.tsx` |

Modelling conventions:

- Numbers are `real`, and JavaScript's NaN is an `Option`'s `None` where it can arise.
- Dates are integer milliseconds. The time series counts months.
- Every `Math.random()` draw is a parameter in [0, 1). `Math.exp`, `Math.cos` and `Math.sqrt` values are parameters or left out.
- Browser storage is a field holding the stored list.
- Each asynchronous handler with an observable in-between state is split into two methods at its `await`.
- Each timer firing is one method call.

## Model

| member | source | states |
|---|---|---|
| MockData.FixtureCreditsPriced | src/data/mockData.ts:123-158 | every fixture credit's total price is its amount times its price per credit, and exactly the retired credit carries a retirement date |
| MockData.FixtureIdsUnique | src/data/mockData.ts:50-104 | the fixture project ids are pairwise distinct, and so are the credit ids |
| MockData.FixtureCreditsReferToProjects | src/data/mockData.ts:123-158 | every fixture credit names an existing project with the same price per credit |
| MockData.FixtureNgoTotals | src/data/mockData.ts:107-110 | the NGO stats' 230 hectares and 2470 credits are the sums of the projects' areas and available credits |
| MockData.FixtureCreditsOwned | src/data/mockData.ts:115-118 | the investor's 180 credits owned are the sum of the fixture credits' amounts |
| MockData.FixtureStepsWellFormed | src/data/mockData.ts:161-203 | there are six verification steps with ids 1 to 6 and positive durations |
| JsRuntime.TrimEmptyIffBlank | src/pages/VerificationManagement.tsx:57 | `trim` gives the empty string exactly when the text is all whitespace |
| JsRuntime.ParseFloatOfNatToString | src/pages/ProjectSubmission.tsx:94-97 | `parseFloat` of a decimal numeral gives back the number |
| JsRuntime.ParseIntOfNatToString | src/pages/ProjectDetail.tsx:296 | `parseInt` of a decimal numeral gives back the number |
| JsRuntime.NatToStringInjective | src/pages/ProjectSubmission.tsx:90 | different instants give different `toString` ids |
| JsRuntime.CapitalizeKeepsTail | src/pages/CommunityVerification.tsx:280 | upper-casing the first letter keeps every later character |
| JsRuntime.FilterExact | src/pages/InvestorMarketplace.tsx:18-20 | `filter` keeps exactly the elements that pass, in order, as a subsequence |
| JsRuntime.FilterIdempotent | src/pages/InvestorMarketplace.tsx:13-21 | filtering twice by the same test is filtering once |
| JsRuntime.FindIndex | src/pages/ProjectDetail.tsx:36 | the index found is the first whose element passes, and none is found exactly when no element passes |
| ProjectSubmissionPage.SetFieldOnlyThatField | src/pages/ProjectSubmission.tsx:56-62 | an input change sets the named field and leaves every other field as it was |
| ProjectSubmissionPage.NewSubmission | src/pages/ProjectSubmission.tsx:89-103 | a new record is a draft at level none with no reviews, carries the typed title, description, location and files and the submit time, and its area is the parsed area field |
| ProjectSubmissionPage.NewSubmissionDefaults | src/pages/ProjectSubmission.tsx:95-97 | unparsable credits and jobs become 0, and parsed ones keep their number; an unparsable or zero price becomes 25, and a price that parses to a non-zero number keeps it, so the price is never 0 |
| ProjectSubmissionPage.NewSubmissionOfWholeNumbers | src/pages/ProjectSubmission.tsx:95-97 | whole numbers typed into the numeric fields are stored as those numbers, except that a typed price of 0 becomes 25 |
| ProjectSubmissionPage.NewSubmissionIdsDiffer | src/pages/ProjectSubmission.tsx:90 | submissions made at different instants get different ids |
| ProjectSubmissionPage.OnlyRequiredFieldsBlock | src/pages/ProjectSubmission.tsx:78 | editing the credits, price or jobs field never changes whether a submit is refused |
| ProjectSubmissionPage.SubmissionForm.constructor | src/pages/ProjectSubmission.tsx:42-54 | the form starts empty, with no files and not submitting |
| ProjectSubmissionPage.SubmissionForm.HandleInputChange | src/pages/ProjectSubmission.tsx:56-62 | the form becomes the old form with the one field replaced |
| ProjectSubmissionPage.SubmissionForm.HandleFileChange | src/pages/ProjectSubmission.tsx:64-71 | the chosen files replace the image or the drone selection and leave the other one alone |
| ProjectSubmissionPage.SubmissionForm.BeginSubmit | src/pages/ProjectSubmission.tsx:73-116 | a form missing a required field stores nothing and ends not submitting; otherwise exactly the new draft is appended to the stored list and handed on, and submitting stays on |
| ProjectSubmissionPage.SubmissionForm.FinishSubmit | src/pages/ProjectSubmission.tsx:118-122 | after the delay submitting is off and the page has moved on |
| VerificationManagement.ReplaceById | src/pages/VerificationManagement.tsx:35-41 | the list keeps its length; entries with the updated id become the update, and every other entry is unchanged |
| VerificationManagement.ReplaceByIdExactlyOne | src/pages/VerificationManagement.tsx:35-41 | with unique ids, replacing changes exactly the one matching index and keeps the ids unique |
| VerificationManagement.ReplaceByIdAbsent | src/pages/VerificationManagement.tsx:35-41 | an update whose id is not listed leaves the list as it was |
| VerificationManagement.ReplaceByIdIdempotent | src/pages/VerificationManagement.tsx:35-41 | applying the same update twice is applying it once |
| VerificationManagement.SelfVerifiedOf | src/pages/VerificationManagement.tsx:43-49 | self-verification sets status self-verified and level self |
| VerificationManagement.SelfVerifiedChangesNothingElse | src/pages/VerificationManagement.tsx:43-49 | self-verification changes no field other than status and level |
| VerificationManagement.ReviewedOf | src/pages/VerificationManagement.tsx:66-79 | a reviewed record has level peer, is verified if approved and rejected otherwise, and has a review list |
| VerificationManagement.ReviewAppendsOne | src/pages/VerificationManagement.tsx:66-79 | the review list grows by exactly one entry, appended last, carrying the approval and the feedback; no other field changes |
| VerificationManagement.PromotedProject | src/pages/VerificationManagement.tsx:88-105 | the marketplace entry copies the id, title, area, credits, price and submit time, is verified at 100% progress, has a biodiversity score in [88, 98) and a hash starting with 0x |
| VerificationManagement.PromotedCO2 | src/pages/VerificationManagement.tsx:97 | the listed CO2 is the estimated credits times 1.5, rounded |
| VerificationManagement.StatusPresentationConsistent | src/pages/VerificationManagement.tsx:118-150 | the five statuses get five badge texts; only rejection gets the destructive badge and the alert icon, and only verification gets the check icon |
| VerificationManagement.WorkflowFromDraft | src/pages/VerificationManagement.tsx:43-79 | a draft that is self-verified and then reviewed ends verified or rejected as the peer review decided, with exactly one review |
| VerificationManagement.VerificationPage.constructor | src/pages/VerificationManagement.tsx:27-33 | the page shows the stored submissions, with nothing selected and no feedback |
| VerificationManagement.VerificationPage.UpdateSubmission | src/pages/VerificationManagement.tsx:35-41 | the shown list becomes the replaced list, and the stored list equals it |
| VerificationManagement.VerificationPage.SelectProject | src/pages/VerificationManagement.tsx:231-240 | the chosen project is selected |
| VerificationManagement.VerificationPage.SetPeerFeedback | src/pages/VerificationManagement.tsx:299-306 | the feedback becomes the typed text |
| VerificationManagement.VerificationPage.HandleSelfVerification | src/pages/VerificationManagement.tsx:43-54 | the draft is replaced by its self-verified record; shown and stored lists stay equal |
| VerificationManagement.VerificationPage.HandlePeerReview | src/pages/VerificationManagement.tsx:56-116 | blank feedback changes nothing; otherwise the reviewed record replaces the project, feedback and selection clear, and an approval appends exactly the promoted entry to the marketplace list while a rejection leaves it alone |
| VerificationManagement.VerificationPage.ApplyPeerReview | src/pages/VerificationManagement.tsx:66-108 | with feedback given, the reviewed record replaces the project in both lists, feedback and selection clear, and only an approval appends the promoted entry |
| InvestorPortfolio.RetiredOf | src/pages/InvestorPortfolio.tsx:22-25 | the retired credit has status retired and the retirement date, and every other field unchanged |
| InvestorPortfolio.RetireById | src/pages/InvestorPortfolio.tsx:21-26 | the list keeps its length; the credits with the id are retired and all others are unchanged |
| InvestorPortfolio.ActivePlusRetired | src/pages/InvestorPortfolio.tsx:67-73 | the active and retired counts add up to the number of credits |
| InvestorPortfolio.PortfolioValueBounds | src/pages/InvestorPortfolio.tsx:30-32 | with non-negative prices the value lies between 0 and the price of all credits, and is 0 with no active credit |
| InvestorPortfolio.PortfolioValueSplits | src/pages/InvestorPortfolio.tsx:30-32 | the value of the active credits plus the price of the retired ones is the price of all credits |
| InvestorPortfolio.RetireByIdAt | src/pages/InvestorPortfolio.tsx:21-26 | with unique ids, retiring one credit changes that entry only and keeps ids unique |
| InvestorPortfolio.RetireActiveCredit | src/pages/InvestorPortfolio.tsx:21-32 | retiring an active credit lowers the value by its price and moves exactly one credit from active to retired |
| InvestorPortfolio.RetireRetiredCredit | src/pages/InvestorPortfolio.tsx:21-32 | retiring a retired credit keeps it retired and changes no card |
| InvestorPortfolio.RetireKeepsOffset | src/pages/InvestorPortfolio.tsx:79 | retirement never changes the total CO2 offset |
| InvestorPortfolio.FixturePortfolio | src/pages/InvestorPortfolio.tsx:30-79 | on the fixture credits two are active and one retired, the value is 3410 and the offset 180 tons |
| InvestorPortfolio.PortfolioPage.constructor | src/pages/InvestorPortfolio.tsx:18-19 | the page starts with the given credits and no confirmation open |
| InvestorPortfolio.PortfolioPage.OpenRetireModal | src/pages/InvestorPortfolio.tsx:159-167 | the confirmation opens for an active credit's id |
| InvestorPortfolio.PortfolioPage.CancelRetire | src/pages/InvestorPortfolio.tsx:198-204 | cancelling closes the confirmation and changes no credit |
| InvestorPortfolio.PortfolioPage.HandleRetireCredit | src/pages/InvestorPortfolio.tsx:21-28 | the credits become the old ones with the id retired, and the confirmation closes |
| InvestorPortfolio.PortfolioPage.ConfirmRetire | src/pages/InvestorPortfolio.tsx:205-211 | confirming retires the credit the confirmation was opened for |
| InvestorMarketplace.FilterFor | src/pages/InvestorMarketplace.tsx:13-22 | a list results exactly for the three known filters, never longer than the project list |
| InvestorMarketplace.FilterForExact | src/pages/InvestorMarketplace.tsx:15-20 | every filter gives a subsequence of the projects in order; all gives every project; verified keeps exactly the verified ones, and high-impact exactly those over 1000 tons |
| InvestorMarketplace.FilterForIdempotent | src/pages/InvestorMarketplace.tsx:13-21 | applying a filter to its own result changes nothing |
| InvestorMarketplace.VerifiedFilterShowsInvestNow | src/pages/InvestorMarketplace.tsx:181 | every card shown by the verified filter offers Invest Now, and the filter keeps exactly those cards |
| InvestorMarketplace.FixtureFilters | src/pages/InvestorMarketplace.tsx:13-22 | on the fixture, verified shows project 1 and high-impact shows projects 1 and 2 |
| InvestorMarketplace.MarketplacePage.constructor | src/pages/InvestorMarketplace.tsx:10-11 | the page starts on the all filter showing every project |
| InvestorMarketplace.MarketplacePage.HandleFilter | src/pages/InvestorMarketplace.tsx:13-22 | the selected filter is recorded; a known filter shows its result, and an unknown one keeps the shown list |
| ProjectDetail.FindProject | src/pages/ProjectDetail.tsx:36 | the project found carries the id and is the first one that does; none is found exactly when no project has the id |
| ProjectDetail.FindProjectOfListed | src/pages/ProjectDetail.tsx:36 | with unique ids, every listed project is found by its own id |
| ProjectDetail.FixtureLookup | src/pages/ProjectDetail.tsx:36-49 | route id 1 finds the first fixture project, and ids other than 1 to 3 show Project Not Found |
| ProjectDetail.QuantityFromInput | src/pages/ProjectDetail.tsx:296 | the quantity is at least 1; a parsed whole number of at least 1 is kept, and anything else gives 1 |
| ProjectDetail.QuantityNotCapped | src/pages/ProjectDetail.tsx:296-298 | any positive whole number typed is taken as is, even above the credits available |
| ProjectDetail.PurchaseHash | src/pages/ProjectDetail.tsx:62 | the purchase hash starts with the fixed prefix and ends with an ellipsis |
| ProjectDetail.StatusLabelsAgree | src/pages/ProjectDetail.tsx:125-126 | the three statuses get three labels, and the disabled button repeats the badge's label |
| ProjectDetail.DetailPage.constructor | src/pages/ProjectDetail.tsx:26-36 | the page shows the looked-up project with a quantity of 50 and no purchase |
| ProjectDetail.DetailPage.TotalPurchaseAmount | src/pages/ProjectDetail.tsx:61-73 | with a valid quantity and a non-negative price, the total is at least one credit's price |
| ProjectDetail.DetailPage.HandleQuantityInput | src/pages/ProjectDetail.tsx:296 | the quantity becomes the input's value under the clamp, so it stays at least 1 |
| ProjectDetail.DetailPage.HandlePurchase | src/pages/ProjectDetail.tsx:60-71 | the purchase records the current quantity, the total shown and a hash, and the success dialog opens |
| VerificationFlow.HexDigitOf | src/pages/VerificationFlow.tsx:26 | every drawn character is a lower-case hex digit |
| VerificationFlow.HexHash | src/pages/VerificationFlow.tsx:23-28 | the hash is 0x followed by 40 hex digits, 42 characters in all |
| VerificationFlow.BuildHash | src/pages/VerificationFlow.tsx:23-28 | the character loop builds exactly that hash |
| VerificationFlow.HexDigitBySixteenths | src/pages/VerificationFlow.tsx:26 | draws in the same sixteenth of [0, 1) give the same digit, the k-th one |
| VerificationFlow.ProgressAtBounds | src/pages/VerificationFlow.tsx:31 | before the last step the progress lies in [0, 100) and rises with every step |
| VerificationFlow.NextKeepsInv | src/pages/VerificationFlow.tsx:15-37 | each tick keeps the machine consistent and raises the progress; it advances one step before the last step, and at the last step completes at 100 with no further tick |
| VerificationFlow.After | src/pages/VerificationFlow.tsx:10-37 | after k ticks the machine is at step k, incomplete, with progress k/n of 100; after n ticks it is complete with the hash |
| VerificationFlow.DisplayedStep | src/pages/VerificationFlow.tsx:39 | the shown step is the current one, or the last step once the index is out of range |
| VerificationFlow.FixtureFlow | src/pages/VerificationFlow.tsx:15-37 | the six fixture steps complete after six ticks and 17.5 seconds of delays |
| VerificationFlow.FlowPage.constructor | src/pages/VerificationFlow.tsx:10-13 | the page starts at step 0, progress 0, incomplete, with no hash |
| VerificationFlow.FlowPage.CurrentStepData | src/pages/VerificationFlow.tsx:39 | the shown step is the current step |
| VerificationFlow.FlowPage.Tick | src/pages/VerificationFlow.tsx:18-34 | a timer firing moves the page to the machine's next state |
| StatCard.PositiveReachedAtSixty | src/components/ui/stat-card.tsx:27-36 | a positive value is reached exactly at the sixtieth tick |
| StatCard.NonPositiveReachedAtOnce | src/components/ui/stat-card.tsx:29-36 | a value of 0 or less is reached at the first tick |
| StatCard.Card.constructor | src/components/ui/stat-card.tsx:23 | the card shows 0 and is not ticking |
| StatCard.Card.Rendered | src/components/ui/stat-card.tsx:64 | a string value is rendered as itself, a number as the card's displayed number |
| StatCard.Card.Start | src/components/ui/stat-card.tsx:25-46 | an animated number starts ticking from 0 in sixtieths of the value; otherwise the displayed number becomes the number, or 0 for text, no ticking runs, and the card renders exactly the value given |
| StatCard.Card.Tick | src/components/ui/stat-card.tsx:32-40 | each tick adds a sixtieth; once the value is reached it is shown exactly and ticking stops, else the floor of the running total is shown |
| StatCard.Card.RunToEnd | src/components/ui/stat-card.tsx:32-41 | a positive value finishes after exactly 60 ticks, showing the value |
| SatelliteService.Round3Between | src/services/satelliteService.ts:127-130 | rounding to three decimals keeps a value within whole thousandths that bound it |
| SatelliteService.ImageryBounds | src/services/satelliteService.ts:91-96 | the bounds enclose the centre at 0.01 degrees on each side, so south < north and west < east |
| SatelliteService.GetSatelliteImagery | src/services/satelliteService.ts:76-109 | one Sentinel-2 image at the centre, on the start date, with those bounds and cloud cover in [0, 20) |
| SatelliteService.BaseNdvi | src/services/satelliteService.ts:123 | the base NDVI lies in [0.3, 0.8) |
| SatelliteService.CalculateVegetationIndices | src/services/satelliteService.ts:115-138 | NDVI lies in [0.3, 0.8] and confidence in [0.85, 1) |
| SatelliteService.IndicesOrdered | src/services/satelliteService.ts:123-130 | the derived indices are ordered 0 < EVI <= SAVI <= NDVI <= GNDVI |
| SatelliteService.HealthScore | src/services/satelliteService.ts:160-165 | the health score is a whole number in [0, 100] |
| SatelliteService.VerificationScoreAsWrittenIsAllOrNothing | src/services/satelliteService.ts:176-205 | as written, the verification score can only be 0 or 100 |
| SatelliteService.VerificationScoreAsWrittenAlways100 | src/services/satelliteService.ts:176-205 | as written, every score the service's own data produces is 100 |
| SatelliteService.VerificationScore | src/services/satelliteService.ts:176-205 | the intended score is a whole number in [0, 100] |
| SatelliteService.WeightedEvidenceRange | src/services/satelliteService.ts:176-181 | on service data the weighted sum lies in (37, 77] |
| SatelliteService.VerificationScoreDiscriminates | src/services/satelliteService.ts:176-205 | on service data the intended score lies in [37, 77], and weak and strong evidence get different scores |
| SatelliteService.RecommendationRules | src/services/satelliteService.ts:184-193 | each piece of advice appears exactly when its rule fires, at most once and in rule order, so there are at most three |
| SatelliteService.Analyze | src/services/satelliteService.ts:143-208 | the health score lies in [0, 100], area change equals density change, and the verification score, computed as written, is 0 or 100 |
| SatelliteService.AnalyzeIntended | src/services/satelliteService.ts:143-208 | scored as the weights intend, the analysis differs from the service's only in its verification score, a whole number in [0, 100] |
| SatelliteService.FetchEvidence | src/services/satelliteService.ts:150-156 | the two fetches and index calculations give NDVIs in [0.3, 0.8], an after-confidence in [0.85, 1) and a before-cloud cover in [0, 20), dated as asked |
| SatelliteService.AnalysisOfServiceData | src/services/satelliteService.ts:143-208 | every analysis the service produces has canopy density in [30, 80] and a verification score of exactly 100, never the recovery praise, and the planting advice exactly below NDVI 0.4 |
| SatelliteService.IntendedAnalysisOfServiceData | src/services/satelliteService.ts:176-205 | scored as intended, the service's analyses score in [37, 77] and are otherwise unchanged |
| SatelliteService.IsValidMangroveLocation | src/services/satelliteService.ts:265-269 | a location is valid exactly when its latitude is within 30 degrees of the equator |
| SatelliteService.LocationIgnoresLongitude | src/services/satelliteService.ts:265-269 | the longitude never changes the answer |
| SatelliteService.PointCount | src/services/satelliteService.ts:229-253 | no points when start is after end; otherwise the last point is at most the end and one more step would pass it |
| SatelliteService.TimeSeries | src/services/satelliteService.ts:218-260 | one point per step from the start to the end |
| SatelliteService.GetTimeSeriesAnalysis | src/services/satelliteService.ts:218-260 | the loop emits exactly that series |
| SatelliteService.TimeSeriesMonth | src/services/satelliteService.ts:229-253 | point k falls k steps after the start |
| SatelliteService.TimeSeriesDates | src/services/satelliteService.ts:229-253 | the first point is at the start, none is after the end, and consecutive points are one step apart |
| SatelliteService.TimeSeriesIncreasing | src/services/satelliteService.ts:229-253 | the points' dates strictly increase |
| SatelliteService.TimeSeriesRanges | src/services/satelliteService.ts:234-242 | NDVI is clamped to [0, 1], while EVI and area use the unclamped value and stay within [0.12, 0.6] and [15, 75] |
| SatelliteService.FirstPointPositive | src/services/satelliteService.ts:234-242 | the first point, with no growth yet, has NDVI in [0.15, 0.25] and positive EVI and area |
| SatelliteService.RecommendationOf | src/services/satelliteService.ts:284-299 | a site's suitability lies in [0.7, 1) and its reason is one of the five |
| SatelliteService.RecommendationNearCentre | src/services/satelliteService.ts:285 | a site's latitude is within the radius of the centre, in degrees |
| SatelliteService.SortBySuitability | src/services/satelliteService.ts:302 | the array ends sorted by non-increasing suitability and is a permutation of the original |
| SatelliteService.InsertAt | src/services/satelliteService.ts:302 | one insertion step extends the sorted prefix and permutes the array |
| SatelliteService.SwapWithPrevious | src/services/satelliteService.ts:302 | two neighbours are exchanged and nothing else moves |
| SatelliteService.GetPlantingRecommendations | src/services/satelliteService.ts:274-303 | exactly five sites, sorted by non-increasing suitability, a permutation of the sites generated in order, each in range |
| TimeSeriesMonitor.Classify | src/components/TimeSeriesMonitor.tsx:91-93 | above 10% improving, below -10% declining, otherwise stable, including exactly 10% either way |
| TimeSeriesMonitor.TrendOf | src/components/TimeSeriesMonitor.tsx:87-93 | the trend classifies the percentage change from the first to the last value; a first value of 0 follows JavaScript's infinite or NaN quotient |
| TimeSeriesMonitor.TrendOfPositiveFirst | src/components/TimeSeriesMonitor.tsx:87-93 | from a positive first value the trend improves exactly above 110% of it and declines exactly below 90% |
| TimeSeriesMonitor.GrowthRate | src/components/TimeSeriesMonitor.tsx:151-156 | under two points the rate is 0; otherwise it is undefined exactly when the first value is 0 |
| TimeSeriesMonitor.TrendAgreesWithGrowthRate | src/components/TimeSeriesMonitor.tsx:151-156 | the trend is the classification of the growth rate |
| TimeSeriesMonitor.AverageWithinBounds | src/components/TimeSeriesMonitor.tsx:158-162 | the average of non-empty data lies between any bounds of its values |
| TimeSeriesMonitor.ServiceSeriesMeasurable | src/components/TimeSeriesMonitor.tsx:87-89 | on the service's series the first value is never 0, so the percentage is always defined |
| TimeSeriesMonitor.Monitor.constructor | src/components/TimeSeriesMonitor.tsx:54-58 | no data, not loading, monthly, NDVI, stable |
| TimeSeriesMonitor.Monitor.BeginLoad | src/components/TimeSeriesMonitor.tsx:64-65 | a load starts loading |
| TimeSeriesMonitor.Monitor.CompleteLoad | src/components/TimeSeriesMonitor.tsx:66-99 | loading ends either way; a failure keeps data and trend; new data is stored, and the trend is recomputed only from two points up |
| TimeSeriesMonitor.Monitor.SelectMetric | src/components/TimeSeriesMonitor.tsx:199 | choosing a metric changes the metric only, not the trend |
| TimeSeriesMonitor.Monitor.SelectInterval | src/components/TimeSeriesMonitor.tsx:56-62 | choosing an interval sets it and starts a reload |
| SatelliteViewer.HealthColor | src/components/SatelliteViewer.tsx:78-82 | at least 80 green, at least 60 yellow, otherwise red: exactly one band per score |
| SatelliteViewer.IndexColor | src/components/SatelliteViewer.tsx:338-342 | at least 0.6 green, at least 0.3 yellow, otherwise red |
| SatelliteViewer.ChangeIndicator | src/components/SatelliteViewer.tsx:84-88 | above 5 improved, below -5 declined, otherwise stable, including exactly 5 either way |
| SatelliteViewer.ChangeIndicatorsAgree | src/components/SatelliteViewer.tsx:379-383 | the module-level copy agrees with the component's copy on every change |
| SatelliteViewer.SignPrefix | src/components/SatelliteViewer.tsx:371 | a plus sign is shown exactly for a strictly positive change |
| SatelliteViewer.VerificationBadgeOfServiceData | src/components/SatelliteViewer.tsx:146 | as written, the verification badge is always green on service data |
| SatelliteViewer.VerificationBadgeOfIntendedAnalysis | src/components/SatelliteViewer.tsx:146 | with the intended score, the verification badge is never green on service data |
| SatelliteViewer.Viewer.constructor | src/components/SatelliteViewer.tsx:40-42 | no analysis, not loading, no error, nothing reported |
| SatelliteViewer.Viewer.BeginAnalysis | src/components/SatelliteViewer.tsx:49-51 | loading, with the error cleared |
| SatelliteViewer.Viewer.CompleteAnalysis | src/components/SatelliteViewer.tsx:53-67 | a success stores the result and reports exactly it once; a failure sets the message, or Analysis failed, and keeps the analysis and the reports; loading ends either way |
| CommunityVerification.StatusLabel | src/pages/CommunityVerification.tsx:280 | the label is the status name with its first letter upper-cased and the rest kept |
| CommunityVerification.StatusLabels | src/pages/CommunityVerification.tsx:280 | the labels read Pending, Approved and Rejected, and differ |
| CommunityVerification.BadgeOf | src/pages/CommunityVerification.tsx:269-271 | approved gets the default badge, rejected the destructive one, pending the secondary one |
| CommunityVerification.FixtureActions | src/pages/CommunityVerification.tsx:312 | only the pending fixture submission offers approve and reject |
| CommunityVerification.ActionMessageAsWritten | src/pages/CommunityVerification.tsx:81-83 | the alert as written embeds the action's name after its prefix |
| CommunityVerification.RejectAlertMisspelled | src/pages/CommunityVerification.tsx:82 | as written, the approve alert says approved, but the reject alert says rejectd |
| CommunityVerification.PastTense | src/pages/CommunityVerification.tsx:82 | each past tense starts with the action's name and ends in ed |
| CommunityVerification.ActionMessage | src/pages/CommunityVerification.tsx:82 | the intended alert is the prefix, the action's past tense and the suffix |
| CommunityVerification.ActionMessageCorrectsReject | src/pages/CommunityVerification.tsx:82 | the intended and the written alerts agree exactly on approval |
| CommunityVerification.UploadEnablesSubmit | src/pages/CommunityVerification.tsx:231 | with a project chosen, attaching photos enables the submit; no project or no photos disables it |
| CommunityVerification.VerificationForm.constructor | src/pages/CommunityVerification.tsx:35-39 | the form starts on the submit tab and empty |
| CommunityVerification.VerificationForm.SelectProject | src/pages/CommunityVerification.tsx:150-151 | the chosen project id is selected |
| CommunityVerification.VerificationForm.HandlePhotoUpload | src/pages/CommunityVerification.tsx:67-70 | new photos go after the attached ones, in order |
| CommunityVerification.VerificationForm.HandleSubmitVerification | src/pages/CommunityVerification.tsx:72-79 | the success alert, then project, photos, location and notes are empty, so submit is disabled |
| CommunityVerification.HandleVerificationAction | src/pages/CommunityVerification.tsx:81-83 | approve or reject only raises the alert as the page builds it, which is the intended alert exactly for an approval, and changes no state |

## Left out

- Browser storage and JSON: the stored lists are class fields. Parse failures of corrupt storage are not modelled.
- Toasts, `alert` display, navigation, dialogs, charts and CSS classes are not modelled. Where a handler's alert text carries meaning, it is returned as the handler's result.
- Timers, `await` delays and React effect scheduling: each timer firing or handler half is one method call. Nothing runs concurrently.
- `Math.random()`: each draw is a parameter in [0, 1). Random strings (image URLs, hash tails, tokens) are opaque parameters.
- `Math.exp`, `Math.cos` and `Math.sqrt`: their values are parameters. The analysis result's `projectId`, `radius` and `generatedAt` fields are left out, since they need `Math.sqrt`, a random id and the clock.
- Dates and `toLocaleDateString`: the time-series loop counts months from a start month, and calendar arithmetic is not modelled.
- IEEE-754 floating point: numbers are exact reals.
- ParseFloat: models optional sign, digits, a fraction and an exponent. It does not model `Infinity`, hexadecimal prefixes or leading-dot corner cases, which no field here produces.
- ProjectSubmissionPage.NewSubmission: requires the area field to be empty or numeric, because the browser keeps a number input so. A NaN area is therefore not modelled.
- StatCard.PositiveReachedAtSixty: states the exact-arithmetic count. In floating point, rounding can make a value need a 61st tick.
- JsRuntime.ToUpper: upper-cases ASCII letters only. The status names are ASCII.
- SatelliteService.SortBySuitability: proves sorted and a permutation, but not the stability of `Array.prototype.sort`.
- TimeSeriesMonitor.TrendOf: models a first value of 0 by JavaScript's infinite or NaN quotient. It makes no `first != 0` demand, because the component makes none.
- The service methods' `try`/`catch` wrappers: their bodies cannot throw on the modelled inputs, so only the viewer's and the monitor's failure paths are modelled, with the failure passed in.
- `getMetricConfig`, trend icons and colours, and the selected-image tab in the viewer: presentation only.
- The fixture stats that do not follow from the fixture lists are not related to them: credits retired (45 against 25), projects pending, total invested and impact projects.
- The marketplace's status badge text duplicates the detail page's mapping and is not modelled separately.

## Findings

| source | as written | input that shows it | evidently intended | confidence | as-written member | corrected member |
|---|---|---|---|---|---|---|
| src/services/satelliteService.ts:176-205 | the weighted sum is rounded and then multiplied by 100 before the clamp | any service data: the sum is above 37, so it becomes 3700 or more and is clamped to 100; an NDVI of 0.3 with no improvement and 85% confidence also gives 100 | the rounded weighted sum itself, a score in [0, 100] that separates weak from strong evidence (38 against 77) | not executed | SatelliteService.VerificationScoreAsWrittenAlways100 | SatelliteService.VerificationScore |
| src/pages/CommunityVerification.tsx:82 | the alert appends `d` to the action's name | action `reject` gives "Verification rejectd! Consensus reached." | "Verification rejected! Consensus reached." | not executed | CommunityVerification.RejectAlertMisspelled | CommunityVerification.ActionMessage |

The operations follow the code as written: `SatelliteService.Analyze`, `SatelliteService.AnalyzeMangroveRestoration` and `CommunityVerification.HandleVerificationAction` produce the all-or-nothing score and the misspelled alert. The corrected behaviour sits beside them in `SatelliteService.AnalyzeIntended`, `SatelliteService.AnalyzeMangroveRestorationIntended` and `CommunityVerification.ActionMessage`.
