/**
 * The investor's project page: the lookup of the route's project id, the
 * purchase box (quantity input, total, "Buy") offered on verified projects,
 * and the status label.
 */
module ProjectDetail {
  import opened JsRuntime
  import opened MockData

  /** `projects.find(p => p.id === id)`: the first project carrying the id. */
  function FindProject(projects: seq<Project>, id: string): (r: Option<Project>)
    ensures r.Some? ==> r.value.id == id
    ensures r.Some? ==> exists k :: 0 <= k < |projects| && projects[k] == r.value
                           && forall j :: 0 <= j < k ==> projects[j].id != id
    ensures r.None? <==> forall j :: 0 <= j < |projects| ==> projects[j].id != id
  {
    match FindIndex(projects, (p: Project) => p.id == id)
    case Some(k) => Some(projects[k])
    case None => None
  }

  /** With unique ids, every listed project is found by its own id. */
  lemma FindProjectOfListed(projects: seq<Project>, k: nat)
    requires UniqueProjectIds(projects) && k < |projects|
    ensures FindProject(projects, projects[k].id) == Some(projects[k])
  {
    var r := FindProject(projects, projects[k].id);
    var m :| 0 <= m < |projects| && projects[m] == r.value
               && forall j :: 0 <= j < m ==> projects[j].id != projects[k].id;
    assert m <= k;
    if m < k {
      assert projects[m].id != projects[k].id;
    }
  }

  /** Route ids "1" to "3" find the fixture projects; any other id shows "Project Not Found". */
  lemma FixtureLookup(id: string)
    ensures FindProject(MockProjects, "1") == Some(MockProjects[0])
    ensures id !in {"1", "2", "3"} ==> FindProject(MockProjects, id).None?
  {
    FixtureIdsUnique();
    FindProjectOfListed(MockProjects, 0);
  }

  /**
   * The quantity input's `Math.max(1, parseInt(value) || 1)`: a parsed whole
   * number of at least 1 is kept; anything else (empty, unparsable, zero,
   * negative) becomes 1.
   */
  function QuantityFromInput(input: string): (q: int)
    ensures q >= 1
    ensures ParseInt(input).Some? && ParseInt(input).value >= 1 ==> q == ParseInt(input).value
    ensures ParseInt(input).None? || ParseInt(input).value < 1 ==> q == 1
  {
    var n := IntOrDefault(ParseInt(input), 1);
    if n < 1 then 1 else n
  }

  /**
   * The quantity is not capped by the credits on offer: typing any positive
   * whole number gives that number, whatever `creditsAvailable` is.
   */
  lemma QuantityNotCapped(n: nat, p: Project)
    requires n >= 1
    ensures QuantityFromInput(NatToString(n)) == n
    ensures n as real > p.creditsAvailable ==> QuantityFromInput(NatToString(n)) as real > p.creditsAvailable
  {
    ParseIntOfNatToString(n);
  }

  const InitialQuantity: int := 50
  const HashPrefix: string := "0x9f2c1e78a4bd"

  /** `0x9f2c1e78a4bd${hex.slice(2, 8)}...`, where `hexSlice` is the (at most six) random hex digits. */
  function PurchaseHash(hexSlice: string): (h: string)
    requires |hexSlice| <= 6
    ensures |HashPrefix| + 3 <= |h| <= |HashPrefix| + 9
    ensures h[..|HashPrefix|] == HashPrefix && h[|h| - 3..] == "..."
  {
    HashPrefix + hexSlice + "..."
  }

  datatype Purchase = Purchase(quantity: int, total: real, transactionHash: string)

  /** The badge on the project's picture. */
  function StatusLabel(s: ProjectStatus): string {
    if s == Verified then "AI Verified"
    else if s == Pending then "Pending Verification"
    else "Fully Funded"
  }

  /** The disabled button shown instead of the purchase box. */
  function DisabledButtonLabel(s: ProjectStatus): string
    requires s != Verified
  {
    if s == Pending then "Pending Verification" else "Fully Funded"
  }

  /** The three statuses get three labels, and a disabled button repeats the badge. */
  lemma StatusLabelsAgree(s: ProjectStatus, t: ProjectStatus)
    ensures s != t ==> StatusLabel(s) != StatusLabel(t)
    ensures s != Verified ==> DisabledButtonLabel(s) == StatusLabel(s)
  {
  }

  /** The page for one route id. */
  class DetailPage {
    const project: Option<Project>
    var purchaseQuantity: int
    var purchaseData: Option<Purchase>
    var showPurchaseSuccess: bool

    ghost predicate Valid()
      reads this`purchaseQuantity
    {
      purchaseQuantity >= 1
    }

    constructor (projects: seq<Project>, id: string)
      ensures Valid()
      ensures project == FindProject(projects, id)
      ensures purchaseQuantity == InitialQuantity && purchaseData.None? && !showPurchaseSuccess
    {
      project := FindProject(projects, id);
      purchaseQuantity := InitialQuantity;
      purchaseData := None;
      showPurchaseSuccess := false;
    }

    /** The purchase box exists only for a found, verified project. */
    predicate PurchaseOffered()
    {
      project.Some? && project.value.status == Verified
    }

    /** The "Total" beside the input. */
    function TotalPurchaseAmount(): (t: real)
      reads this`purchaseQuantity
      requires project.Some?
      ensures Valid() && project.value.pricePerCredit >= 0.0 ==> t >= project.value.pricePerCredit
    {
      purchaseQuantity as real * project.value.pricePerCredit
    }

    /** An edit of the quantity input. */
    method HandleQuantityInput(input: string)
      requires PurchaseOffered()
      modifies this`purchaseQuantity
      ensures Valid()
      ensures purchaseQuantity == QuantityFromInput(input)
    {
      purchaseQuantity := QuantityFromInput(input);
    }

    /**
     * `handlePurchase`: records the quantity in the input at the time of the
     * click, the total shown beside it, and a mock hash, and opens the
     * success dialog. The quantity itself is untouched.
     */
    method HandlePurchase(hexSlice: string)
      requires PurchaseOffered() && |hexSlice| <= 6
      modifies this`purchaseData, this`showPurchaseSuccess
      ensures showPurchaseSuccess
      ensures purchaseData == Some(Purchase(purchaseQuantity, TotalPurchaseAmount(), PurchaseHash(hexSlice)))
    {
      var total := TotalPurchaseAmount();
      purchaseData := Some(Purchase(purchaseQuantity, total, PurchaseHash(hexSlice)));
      showPurchaseSuccess := true;
    }
  }
}
