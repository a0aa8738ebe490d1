/**
 * The investor's portfolio page: the list of owned carbon credits, the
 * retirement of one credit (burning its token, which makes it unsellable),
 * and the totals the stat cards show.
 */
module InvestorPortfolio {
  import opened JsRuntime
  import opened MockData

  predicate IsActive(c: CarbonCredit) { c.status == Active }
  predicate IsRetired(c: CarbonCredit) { c.status == Retired }
  function TotalPrice(c: CarbonCredit): real { c.totalPrice }

  /** The credit after retirement: status retired, dated `now`. */
  function RetiredOf(c: CarbonCredit, now: Timestamp): (r: CarbonCredit)
    ensures r.status == Retired && r.retiredDate == Some(now)
    ensures r.(status := c.status, retiredDate := c.retiredDate) == c
  {
    c.(status := Retired, retiredDate := Some(now))
  }

  /** `credits.map(credit => credit.id === creditId ? { ...retired } : credit)` */
  function RetireById(credits: seq<CarbonCredit>, id: string, now: Timestamp): (r: seq<CarbonCredit>)
    ensures |r| == |credits|
    ensures forall i :: 0 <= i < |credits| && credits[i].id == id ==> r[i] == RetiredOf(credits[i], now)
    ensures forall i :: 0 <= i < |credits| && credits[i].id != id ==> r[i] == credits[i]
  {
    seq(|credits|, i requires 0 <= i < |credits| =>
      if credits[i].id == id then RetiredOf(credits[i], now) else credits[i])
  }

  /** The "Portfolio Value" card: the summed price of the active credits only. */
  function PortfolioValue(credits: seq<CarbonCredit>): real {
    SumBy(Filter(credits, IsActive), TotalPrice)
  }

  /** The "Active Credits" card. */
  function ActiveCount(credits: seq<CarbonCredit>): nat {
    |Filter(credits, IsActive)|
  }

  /** The "Retired Credits" card. */
  function RetiredCount(credits: seq<CarbonCredit>): nat {
    |Filter(credits, IsRetired)|
  }

  /** The "Total CO2 Offset" card: the amounts of all credits, whatever their status. */
  function TotalOffset(credits: seq<CarbonCredit>): real {
    SumBy(credits, Amount)
  }

  /** Every credit is counted by exactly one of the two status cards. */
  lemma ActivePlusRetired(credits: seq<CarbonCredit>)
    ensures ActiveCount(credits) + RetiredCount(credits) == |credits|
  {
    FilterComplementLength(credits, IsActive, IsRetired);
  }

  /**
   * With non-negative prices the portfolio value lies between 0 and the
   * price of all credits, and a portfolio with no active credit is worth 0.
   */
  lemma PortfolioValueBounds(credits: seq<CarbonCredit>)
    requires forall i :: 0 <= i < |credits| ==> credits[i].totalPrice >= 0.0
    ensures 0.0 <= PortfolioValue(credits) <= SumBy(credits, TotalPrice)
    ensures ActiveCount(credits) == 0 ==> PortfolioValue(credits) == 0.0
  {
    SumByFilterBounds(credits, IsActive, TotalPrice);
  }

  /** The portfolio value is the sum over active credits plus nothing for each retired one. */
  lemma PortfolioValueSplits(credits: seq<CarbonCredit>)
    ensures PortfolioValue(credits) + SumBy(Filter(credits, IsRetired), TotalPrice)
            == SumBy(credits, TotalPrice)
  {
    SumBySplit(credits, TotalPrice, IsActive, IsRetired);
  }

  /** With unique ids, retiring the credit at index `k` changes that entry and no other. */
  lemma {:induction false} RetireByIdAt(credits: seq<CarbonCredit>, k: nat, now: Timestamp)
    requires UniqueCreditIds(credits) && k < |credits|
    ensures RetireById(credits, credits[k].id, now) == credits[k := RetiredOf(credits[k], now)]
    ensures UniqueCreditIds(RetireById(credits, credits[k].id, now))
  {
    var r := RetireById(credits, credits[k].id, now);
    forall i | 0 <= i < |credits|
      ensures r[i] == credits[k := RetiredOf(credits[k], now)][i]
    {
      if i != k {
        assert credits[i].id != credits[k].id by {
          if i < k { assert credits[i].id != credits[k].id; } else { assert credits[k].id != credits[i].id; }
        }
      }
    }
  }

  /**
   * Retiring an active credit lowers the portfolio value by that credit's
   * price and moves exactly one credit from the active to the retired count.
   */
  lemma RetireActiveCredit(credits: seq<CarbonCredit>, k: nat, now: Timestamp)
    requires UniqueCreditIds(credits) && k < |credits| && credits[k].status == Active
    ensures var after := RetireById(credits, credits[k].id, now);
            && PortfolioValue(after) == PortfolioValue(credits) - credits[k].totalPrice
            && ActiveCount(after) == ActiveCount(credits) - 1
            && RetiredCount(after) == RetiredCount(credits) + 1
  {
    RetireByIdAt(credits, k, now);
    var y := RetiredOf(credits[k], now);
    SumByFilterUpdate(credits, k, y, IsActive, TotalPrice);
    FilterUpdateLength(credits, k, y, IsActive);
    FilterUpdateLength(credits, k, y, IsRetired);
  }

  /** Retiring a credit that is already retired keeps it retired and changes no card. */
  lemma RetireRetiredCredit(credits: seq<CarbonCredit>, k: nat, now: Timestamp)
    requires UniqueCreditIds(credits) && k < |credits| && credits[k].status == Retired
    ensures var after := RetireById(credits, credits[k].id, now);
            && after[k].status == Retired
            && PortfolioValue(after) == PortfolioValue(credits)
            && ActiveCount(after) == ActiveCount(credits)
            && RetiredCount(after) == RetiredCount(credits)
  {
    RetireByIdAt(credits, k, now);
    var y := RetiredOf(credits[k], now);
    SumByFilterUpdate(credits, k, y, IsActive, TotalPrice);
    FilterUpdateLength(credits, k, y, IsActive);
    FilterUpdateLength(credits, k, y, IsRetired);
  }

  /** Retirement never changes the total offset: it sums every credit whatever its status. */
  lemma RetireKeepsOffset(credits: seq<CarbonCredit>, id: string, now: Timestamp)
    ensures TotalOffset(RetireById(credits, id, now)) == TotalOffset(credits)
  {
    SumByPointwise(RetireById(credits, id, now), credits, Amount);
  }

  /** On the fixture portfolio two credits are active, worth 3410, and 180 tons are offset. */
  lemma FixturePortfolio()
    ensures ActiveCount(MockCarbonCredits) == 2 && RetiredCount(MockCarbonCredits) == 1
    ensures PortfolioValue(MockCarbonCredits) == 3410.0
    ensures TotalOffset(MockCarbonCredits) == 180.0
  {
    var cs := MockCarbonCredits;
    assert Filter(cs[2..], IsActive) == [cs[2]];
    assert Filter(cs[1..], IsActive) == [cs[2]];
    assert Filter(cs, IsActive) == [cs[0], cs[2]];
    assert Filter(cs[2..], IsRetired) == [];
    assert Filter(cs, IsRetired) == [cs[1]];
    var active := [cs[0], cs[2]];
    assert active[..1] == [cs[0]] && active[..1][..0] == [];
    assert SumBy(active[..1], TotalPrice) == 1100.0;
    FixtureCreditsOwned();
  }

  /** The page: the credits in view and the id whose retirement awaits confirmation. */
  class PortfolioPage {
    var credits: seq<CarbonCredit>
    var showRetireModal: Option<string>

    constructor (credits: seq<CarbonCredit>)
      ensures this.credits == credits && showRetireModal.None?
    {
      this.credits := credits;
      showRetireModal := None;
    }

    /** "Retire Credit" on a card, offered only on active credits, opens the confirmation. */
    method OpenRetireModal(id: string)
      requires exists i :: 0 <= i < |credits| && credits[i].id == id && credits[i].status == Active
      modifies this`showRetireModal
      ensures showRetireModal == Some(id)
    {
      showRetireModal := Some(id);
    }

    /** "Cancel" closes the confirmation and changes no credit. */
    method CancelRetire()
      modifies this`showRetireModal
      ensures showRetireModal.None?
    {
      showRetireModal := None;
    }

    /** `handleRetireCredit`: the matching credit is retired and the confirmation closes. */
    method HandleRetireCredit(id: string, now: Timestamp)
      modifies this
      ensures credits == RetireById(old(credits), id, now)
      ensures showRetireModal.None?
    {
      credits := RetireById(credits, id, now);
      showRetireModal := None;
    }

    /** The confirmation's "Retire Credit" retires the credit it was opened for. */
    method ConfirmRetire(now: Timestamp)
      requires showRetireModal.Some?
      modifies this
      ensures credits == RetireById(old(credits), old(showRetireModal).value, now)
      ensures showRetireModal.None?
    {
      HandleRetireCredit(showRetireModal.value, now);
    }
  }
}
