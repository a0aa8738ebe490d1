/**
 * The investor marketplace: the project list and its three filter buttons
 * ("All Projects", "Verified Only", "High Impact").
 */
module InvestorMarketplace {
  import opened JsRuntime
  import opened MockData

  predicate IsVerified(p: Project) { p.status == Verified }

  /** A project offsetting strictly more than 1000 tons of CO2. */
  predicate IsHighImpact(p: Project) { p.totalCO2 > 1000.0 }

  /** The list a filter name selects, or `None` for a name `handleFilter` does not recognise. */
  function FilterFor(filter: string, projects: seq<Project>): (r: Option<seq<Project>>)
    ensures r.Some? <==> filter in {"all", "verified", "high-impact"}
    ensures r.Some? ==> |r.value| <= |projects|
  {
    if filter == "all" then Some(projects)
    else if filter == "verified" then Some(Filter(projects, IsVerified))
    else if filter == "high-impact" then Some(Filter(projects, IsHighImpact))
    else None
  }

  /**
   * Each recognised filter shows a subsequence of the projects: "all" every
   * project, "verified" exactly the verified ones and "high-impact" exactly
   * those over 1000 tons, each in the original order.
   */
  lemma FilterForExact(filter: string, projects: seq<Project>)
    requires filter in {"all", "verified", "high-impact"}
    ensures IsSubsequence(FilterFor(filter, projects).value, projects)
    ensures filter == "all" ==> FilterFor(filter, projects).value == projects
    ensures filter == "verified" ==> forall p ::
              multiset(FilterFor(filter, projects).value)[p] == if IsVerified(p) then multiset(projects)[p] else 0
    ensures filter == "high-impact" ==> forall p ::
              multiset(FilterFor(filter, projects).value)[p] == if IsHighImpact(p) then multiset(projects)[p] else 0
  {
    if filter == "all" {
      IsSubsequenceRefl(projects);
    } else if filter == "verified" {
      FilterExact(projects, IsVerified);
    } else {
      FilterExact(projects, IsHighImpact);
    }
  }

  /** Applying a filter to the list it produced gives the same list. */
  lemma FilterForIdempotent(filter: string, projects: seq<Project>)
    requires filter in {"all", "verified", "high-impact"}
    ensures FilterFor(filter, FilterFor(filter, projects).value) == FilterFor(filter, projects)
  {
    if filter == "verified" {
      FilterIdempotent(projects, IsVerified);
    } else if filter == "high-impact" {
      FilterIdempotent(projects, IsHighImpact);
    }
  }

  /** "Invest Now" appears on a card exactly when the project is verified. */
  function ShowsInvestNow(p: Project): bool {
    p.status == Verified
  }

  /**
   * Under "verified" every card shows "Invest Now"; under "all" the cards
   * that show it are exactly those "verified" keeps.
   */
  lemma VerifiedFilterShowsInvestNow(projects: seq<Project>)
    ensures var shown := FilterFor("verified", projects).value;
            && (forall i :: 0 <= i < |shown| ==> ShowsInvestNow(shown[i]))
            && Filter(FilterFor("all", projects).value, ShowsInvestNow) == shown
  {
    FilterSameTest(projects, ShowsInvestNow, IsVerified);
  }

  /** On the fixture list "verified" keeps Pichavaram, "high-impact" Pichavaram and the Sundarbans. */
  lemma FixtureFilters()
    ensures FilterFor("verified", MockProjects) == Some([MockProjects[0]])
    ensures FilterFor("high-impact", MockProjects) == Some([MockProjects[0], MockProjects[1]])
  {
    var ps := MockProjects;
    assert ps[2..][1..] == [] && ps[1..][1..] == ps[2..] && ps[1..] == [ps[1], ps[2]];
    assert ps[1..][0] == ps[1] && ps[2..][0] == ps[2];
    assert Filter(ps[2..], IsVerified) == [] && Filter(ps[2..], IsHighImpact) == [];
    assert Filter(ps[1..], IsVerified) == [] && Filter(ps[1..], IsHighImpact) == [ps[1]];
    assert IsVerified(ps[0]) && IsHighImpact(ps[0]);
    assert Filter(ps, IsVerified) == [ps[0]] + Filter(ps[1..], IsVerified);
    assert Filter(ps, IsHighImpact) == [ps[0]] + Filter(ps[1..], IsHighImpact);
    assert FilterFor("verified", ps) == Some(Filter(ps, IsVerified));
    assert FilterFor("high-impact", ps) == Some(Filter(ps, IsHighImpact));
    assert Filter(ps, IsVerified) == [ps[0]];
    assert Filter(ps, IsHighImpact) == [ps[0], ps[1]];
    assert FilterFor("verified", MockProjects) == Some([MockProjects[0]]);
  }

  /** The page: the full list, the selected filter and the list shown. */
  class MarketplacePage {
    const projects: seq<Project>
    var selectedFilter: string
    var filteredProjects: seq<Project>

    /** What is shown is always drawn from the full list, in its order. */
    ghost predicate Valid()
      reads this
    {
      IsSubsequence(filteredProjects, projects)
    }

    constructor (projects: seq<Project>)
      ensures Valid()
      ensures this.projects == projects && selectedFilter == "all" && filteredProjects == projects
    {
      this.projects := projects;
      selectedFilter := "all";
      filteredProjects := projects;
      IsSubsequenceRefl(projects);
    }

    /** `handleFilter`: the button is marked selected; a recognised filter also replaces the list. */
    method HandleFilter(filter: string)
      requires Valid()
      modifies this
      ensures Valid()
      ensures selectedFilter == filter
      ensures filteredProjects == match FilterFor(filter, projects)
                                  case Some(shown) => shown
                                  case None => old(filteredProjects)
    {
      selectedFilter := filter;
      if filter == "all" {
        filteredProjects := projects;
      } else if filter == "verified" {
        filteredProjects := Filter(projects, IsVerified);
      } else if filter == "high-impact" {
        filteredProjects := Filter(projects, IsHighImpact);
      }
      if filter in {"all", "verified", "high-impact"} {
        FilterForExact(filter, projects);
      }
    }
  }
}
