/**
 * The record types of the marketplace and its fixtures: three mangrove
 * projects, the investor's three carbon credits, the dashboard figures and
 * the six steps of the verification animation.
 *
 * Dates are milliseconds since the Unix epoch (`new Date('2024-01-15')` is
 * 1705276800000, UTC midnight).
 */
module MockData {
  import opened JsRuntime

  /** Milliseconds since 1970-01-01T00:00:00Z. */
  type Timestamp = int

  datatype ProjectStatus = Pending | Verified | Funded

  datatype Project = Project(
    id: string,
    title: string,
    description: string,
    ngoName: string,
    location: string,
    area: real,               // hectares
    creditsAvailable: real,
    pricePerCredit: real,
    totalCO2: real,
    status: ProjectStatus,
    image: string,
    progress: real,
    communityJobs: real,
    biodiversityScore: real,
    transactionHash: Option<string>,
    createdAt: Timestamp)

  datatype CreditStatus = Active | Retired

  datatype CarbonCredit = CarbonCredit(
    id: string,
    projectId: string,
    projectTitle: string,
    amount: real,
    pricePerCredit: real,
    totalPrice: real,
    status: CreditStatus,
    purchaseDate: Timestamp,
    retiredDate: Option<Timestamp>,
    nftTokenId: Option<string>)

  datatype NgoStats = NgoStats(
    totalAreaRestored: real,
    verifiedCredits: real,
    projectsPending: real,
    totalFunding: real)

  datatype InvestorStats = InvestorStats(
    totalInvested: real,
    creditsOwned: real,
    creditsRetired: real,
    impactProjects: real)

  /** One stage of the verification animation; its display `data` object is presentation only. */
  datatype VerificationStep = VerificationStep(id: nat, title: string, description: string, duration: nat)

  const ProjectImage: string := "/src/assets/mangrove-project.jpg"

  const MockProjects: seq<Project> := [
    Project("1", "Pichavaram Mangrove Restoration",
      "Large-scale mangrove restoration project in Tamil Nadu, India, focusing on coastal protection and carbon sequestration.",
      "Coastal Conservation Alliance", "Tamil Nadu, India",
      75.0, 1200.0, 22.0, 1800.0, Verified, ProjectImage, 85.0, 45.0, 92.0,
      Some("0x1a2b3c4d5e6f7890abcdef1234567890abcdef12"), 1705276800000),
    Project("2", "Sundarbans Expansion Project",
      "Expanding the world's largest mangrove forest to combat climate change and protect coastal communities.",
      "Sundarbans Foundation", "West Bengal, India",
      120.0, 850.0, 28.0, 2400.0, Pending, ProjectImage, 45.0, 75.0, 96.0,
      None, 1708387200000),
    Project("3", "Maldives Reef Protection Initiative",
      "Combining mangrove restoration with coral reef protection to create comprehensive marine ecosystem restoration.",
      "Maldivian Marine Trust", "Maldives",
      35.0, 420.0, 35.0, 900.0, Funded, ProjectImage, 100.0, 25.0, 88.0,
      Some("0x9f8e7d6c5b4a39281726354849506172839405061"), 1699574400000)
  ]

  const MockNgoStats: NgoStats := NgoStats(230.0, 2470.0, 2.0, 125000.0)

  const MockInvestorStats: InvestorStats := InvestorStats(45000.0, 180.0, 45.0, 8.0)

  const MockCarbonCredits: seq<CarbonCredit> := [
    CarbonCredit("1", "1", "Pichavaram Mangrove Restoration", 50.0, 22.0, 1100.0, Active,
      1710460800000, None, Some("BGT-001-050")),
    CarbonCredit("2", "3", "Maldives Reef Protection Initiative", 25.0, 35.0, 875.0, Retired,
      1707523200000, Some(1710892800000), Some("BGT-003-025")),
    CarbonCredit("3", "1", "Pichavaram Mangrove Restoration", 105.0, 22.0, 2310.0, Active,
      1712275200000, None, Some("BGT-001-105"))
  ]

  const VerificationSteps: seq<VerificationStep> := [
    VerificationStep(1, "[SATELLITE] Fetching High-Resolution Imagery...",
      "Accessing Sentinel-2 and Landsat data from Google Earth Engine", 2500),
    VerificationStep(2, "[AI] Analyzing Vegetation Indices...",
      "Computing NDVI, EVI, and SAVI from multispectral data", 3500),
    VerificationStep(3, "[AI] Change Detection Analysis...",
      "Comparing before/after imagery for restoration progress", 4000),
    VerificationStep(4, "[AI] Carbon Sequestration Modeling...",
      "Estimating CO₂ absorption based on biomass analysis", 3000),
    VerificationStep(5, "[BLOCKCHAIN] Minting Verified NFT Certificate...",
      "Creating immutable proof-of-restoration on Polygon", 2500),
    VerificationStep(6, "Success! Satellite-Verified Credits Issued",
      "AI analysis complete - restoration authenticity confirmed", 2000)
  ]

  // ---------------------------------------------------------------------------
  // Consistency of the fixtures

  /** A credit's price is its amount at its per-credit price. */
  predicate PricedConsistently(c: CarbonCredit) {
    c.totalPrice == c.amount * c.pricePerCredit
  }

  /** A credit carries a retirement date exactly when it is retired. */
  predicate RetiredDateMatchesStatus(c: CarbonCredit) {
    c.retiredDate.Some? <==> c.status == Retired
  }

  predicate UniqueProjectIds(ps: seq<Project>) {
    forall i, j :: 0 <= i < j < |ps| ==> ps[i].id != ps[j].id
  }

  predicate UniqueCreditIds(cs: seq<CarbonCredit>) {
    forall i, j :: 0 <= i < j < |cs| ==> cs[i].id != cs[j].id
  }

  /** The credit names a project of the list, and was bought at that project's price. */
  predicate RefersTo(c: CarbonCredit, ps: seq<Project>) {
    exists k :: 0 <= k < |ps| && ps[k].id == c.projectId && ps[k].pricePerCredit == c.pricePerCredit
  }

  function Area(p: Project): real { p.area }
  function CreditsAvailable(p: Project): real { p.creditsAvailable }
  function Amount(c: CarbonCredit): real { c.amount }

  lemma FixtureCreditsPriced()
    ensures forall i :: 0 <= i < |MockCarbonCredits| ==> PricedConsistently(MockCarbonCredits[i])
    ensures forall i :: 0 <= i < |MockCarbonCredits| ==> RetiredDateMatchesStatus(MockCarbonCredits[i])
  {
  }

  lemma FixtureIdsUnique()
    ensures UniqueProjectIds(MockProjects)
    ensures UniqueCreditIds(MockCarbonCredits)
  {
  }

  lemma FixtureCreditsReferToProjects()
    ensures forall i :: 0 <= i < |MockCarbonCredits| ==> RefersTo(MockCarbonCredits[i], MockProjects)
  {
    assert RefersTo(MockCarbonCredits[0], MockProjects) by { assert MockProjects[0].id == "1"; }
    assert RefersTo(MockCarbonCredits[1], MockProjects) by { assert MockProjects[2].id == "3"; }
    assert RefersTo(MockCarbonCredits[2], MockProjects) by { assert MockProjects[0].id == "1"; }
  }

  /** The dashboard's area and credit figures are the sums over the project fixtures. */
  lemma FixtureNgoTotals()
    ensures MockNgoStats.totalAreaRestored == SumBy(MockProjects, Area)
    ensures MockNgoStats.verifiedCredits == SumBy(MockProjects, CreditsAvailable)
  {
    var ps := MockProjects;
    assert ps[..2][..1] == ps[..1] && ps[..1][..0] == [];
    assert SumBy(ps[..1], Area) == 75.0 && SumBy(ps[..1], CreditsAvailable) == 1200.0;
    assert SumBy(ps[..2], Area) == 195.0 && SumBy(ps[..2], CreditsAvailable) == 2050.0;
  }

  /** The investor's credits owned is the sum of the credit amounts. */
  lemma FixtureCreditsOwned()
    ensures MockInvestorStats.creditsOwned == SumBy(MockCarbonCredits, Amount)
  {
    var cs := MockCarbonCredits;
    assert cs[..2][..1] == cs[..1] && cs[..1][..0] == [];
    assert SumBy(cs[..1], Amount) == 50.0;
    assert SumBy(cs[..2], Amount) == 75.0;
  }

  /** Six steps numbered 1 to 6, each with a positive duration. */
  lemma FixtureStepsWellFormed()
    ensures |VerificationSteps| == 6
    ensures forall i :: 0 <= i < 6 ==> VerificationSteps[i].id == i + 1 && VerificationSteps[i].duration > 0
  {
  }
}
