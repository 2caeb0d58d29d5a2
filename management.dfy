/** The lead list of components/dashboard/LeadManagement.tsx: the visible
    list is the stored leads passed through a search stage, a status stage,
    an industry stage and a sort; beside it the page shows per-status counts,
    the distinct industries and the number of leads with notes. */
module LeadManagement {
  import opened Text
  import opened Collections
  import opened Leads
  import opened Sorting

  /** The sentinel both select boxes use for "no restriction". */
  const All: string := "all"

  /** The page's search, filter and sort state. */
  datatype ViewCriteria = ViewCriteria(
    searchTerm: string,
    statusFilter: string,
    industryFilter: string,
    sortBy: SortKey,
    sortOrder: SortOrder)

  /** The initial state: no search, both filters "all", relevance, descending. */
  const InitialCriteria: ViewCriteria := ViewCriteria("", All, All, ByRelevance, Descending)

  /** The search predicate: the lower-cased term occurs in the lower-cased
      company, industry, city or country. */
  predicate MatchesSearch(l: Lead, term: string)
  {
    var t := ToLower(term);
    || Contains(ToLower(l.company), t)
    || Contains(ToLower(l.industry), t)
    || Contains(ToLower(l.location.city), t)
    || Contains(ToLower(l.location.country), t)
  }

  /** A lead matches exactly when the lower-cased term occurs at some
      position of one of the four lower-cased fields. */
  lemma MatchesSearchIffOccurs(l: Lead, term: string)
    ensures MatchesSearch(l, term) <==>
      exists i: nat ::
        || OccursAt(ToLower(l.company), ToLower(term), i)
        || OccursAt(ToLower(l.industry), ToLower(term), i)
        || OccursAt(ToLower(l.location.city), ToLower(term), i)
        || OccursAt(ToLower(l.location.country), ToLower(term), i)
  {
    var t := ToLower(term);
    ContainsIffOccurs(ToLower(l.company), t);
    ContainsIffOccurs(ToLower(l.industry), t);
    ContainsIffOccurs(ToLower(l.location.city), t);
    ContainsIffOccurs(ToLower(l.location.country), t);
  }

  /** The empty term matches every lead, so skipping the search stage for it
      loses nothing. */
  lemma EmptySearchMatchesAll(l: Lead)
    ensures MatchesSearch(l, "")
  {
    assert ToLower("") == "";
    ContainsEmpty(ToLower(l.company));
  }

  predicate StatusPasses(l: Lead, statusFilter: string)
  {
    statusFilter == All || StatusName(l.status) == statusFilter
  }

  predicate IndustryPasses(l: Lead, industryFilter: string)
  {
    industryFilter == All || l.industry == industryFilter
  }

  /** The conjunction of the three filter stages. */
  predicate Selected(l: Lead, c: ViewCriteria)
  {
    && (c.searchTerm == "" || MatchesSearch(l, c.searchTerm))
    && StatusPasses(l, c.statusFilter)
    && IndustryPasses(l, c.industryFilter)
  }

  /** A status filter naming a status keeps exactly the leads that have it. */
  lemma StatusFilterSelects(l: Lead, s: Status)
    ensures StatusPasses(l, StatusName(s)) <==> l.status == s
  {
    StatusNameInjective(l.status, s);
  }

  /** The comparator the list is sorted by: 1 puts `a` after `b`, -1 before;
      it never answers 0. */
  function ViewComparator(a: Lead, b: Lead, key: SortKey, order: SortOrder): int
  {
    var ka, kb := KeyOf(a, key), KeyOf(b, key);
    if order == Ascending then (if ValueLt(kb, ka) then 1 else -1)
    else (if ValueLt(ka, kb) then 1 else -1)
  }

  /** The comparator sends `a` after `b` exactly when `a` is out of order
      before `b`; for equal keys it answers -1 both ways round, so it fixes no
      order among ties. */
  lemma ViewComparatorOrder(a: Lead, b: Lead, key: SortKey, order: SortOrder)
    ensures ViewComparator(a, b, key, order) == 1 <==> !InOrder(a, b, key, order)
    ensures ViewComparator(a, b, key, order) != 0
    ensures KeyOf(a, key) == KeyOf(b, key) ==>
      ViewComparator(a, b, key, order) == -1 && ViewComparator(b, a, key, order) == -1
  {
    if KeyOf(a, key) == KeyOf(b, key) {
      InOrderReflexive(a, b, key, order);
      InOrderReflexive(b, a, key, order);
    }
  }

  /** What the page may show for `leads` under `c`: the selected leads, each
      as often as it is stored, sorted by the chosen key and direction. */
  ghost predicate IsView(leads: seq<Lead>, c: ViewCriteria, visible: seq<Lead>)
  {
    && (forall l :: multiset(visible)[l] == if Selected(l, c) then multiset(leads)[l] else 0)
    && Sorted(visible, c.sortBy, c.sortOrder)
  }

  /** The `useEffect` that recomputes `filteredLeads`: each stage replaces
      the working list, then the list is sorted. The engine's sort is taken
      to be the stable insertion sort; only sortedness and the contents are
      promised, since the comparator leaves tie order open. */
  method ApplyView(leads: seq<Lead>, c: ViewCriteria) returns (visible: seq<Lead>)
    ensures IsView(leads, c, visible)
    ensures |visible| <= |leads|
  {
    var filtered := leads;
    if c.searchTerm != "" {
      FilterMultiset(filtered, l => MatchesSearch(l, c.searchTerm));
      filtered := Filter(filtered, l => MatchesSearch(l, c.searchTerm));
    }
    ghost var afterSearch := filtered;
    if c.statusFilter != All {
      FilterMultiset(filtered, l => StatusPasses(l, c.statusFilter));
      filtered := Filter(filtered, l => StatusPasses(l, c.statusFilter));
    }
    ghost var afterStatus := filtered;
    if c.industryFilter != All {
      FilterMultiset(filtered, l => IndustryPasses(l, c.industryFilter));
      filtered := Filter(filtered, l => IndustryPasses(l, c.industryFilter));
    }
    assert forall l :: multiset(filtered)[l] == if Selected(l, c) then multiset(leads)[l] else 0 by {
      forall l ensures multiset(filtered)[l] == if Selected(l, c) then multiset(leads)[l] else 0 {
        assert multiset(afterSearch)[l] == if c.searchTerm == "" || MatchesSearch(l, c.searchTerm) then multiset(leads)[l] else 0;
        assert multiset(afterStatus)[l] == if StatusPasses(l, c.statusFilter) then multiset(afterSearch)[l] else 0;
      }
    }
    assert |filtered| <= |leads|;
    visible := SortLeads(filtered, c.sortBy, c.sortOrder);
    SortLeadsSorted(filtered, c.sortBy, c.sortOrder);
    SortLeadsPermutation(filtered, c.sortBy, c.sortOrder);
  }

  /** Any two lists the page may show for the same leads and criteria hold
      the same leads; they can differ only in the order of ties. */
  lemma ViewUnique(leads: seq<Lead>, c: ViewCriteria, v1: seq<Lead>, v2: seq<Lead>)
    requires IsView(leads, c, v1) && IsView(leads, c, v2)
    ensures multiset(v1) == multiset(v2)
  {
    assert forall l :: multiset(v1)[l] == multiset(v2)[l];
  }

  /** Re-running the view on its own output with the same criteria shows
      the same leads: the stages are a conjunction of predicates. */
  lemma ViewIdempotent(leads: seq<Lead>, c: ViewCriteria, visible: seq<Lead>, again: seq<Lead>)
    requires IsView(leads, c, visible) && IsView(visible, c, again)
    ensures multiset(again) == multiset(visible)
  {
    forall l ensures multiset(again)[l] == multiset(visible)[l] {
    }
  }

  /** On first render (no search, both filters "all", relevance descending)
      the page shows every stored lead, highest relevance first. */
  lemma InitialViewShowsAll(leads: seq<Lead>, visible: seq<Lead>)
    requires IsView(leads, InitialCriteria, visible)
    ensures multiset(visible) == multiset(leads)
    ensures Sorted(visible, ByRelevance, Descending)
  {
    assert forall l :: multiset(visible)[l] == multiset(leads)[l];
  }

  /** Adjacent shown leads have non-decreasing keys ascending and
      non-increasing keys descending. */
  lemma ViewAdjacentOrder(leads: seq<Lead>, c: ViewCriteria, visible: seq<Lead>, i: nat)
    requires IsView(leads, c, visible) && i + 1 < |visible|
    ensures c.sortOrder == Ascending ==> !ValueLt(KeyOf(visible[i + 1], c.sortBy), KeyOf(visible[i], c.sortBy))
    ensures c.sortOrder == Descending ==> !ValueLt(KeyOf(visible[i], c.sortBy), KeyOf(visible[i + 1], c.sortBy))
  {
    assert InOrder(visible[i], visible[i + 1], c.sortBy, c.sortOrder);
  }

  /** `toggleSortOrder`. */
  function Toggle(o: SortOrder): (r: SortOrder)
    ensures r != o
  {
    if o == Ascending then Descending else Ascending
  }

  /** Toggling twice restores the order. */
  lemma ToggleInvolution(o: SortOrder)
    ensures Toggle(Toggle(o)) == o
  {
  }

  /** `getStatusCounts()`: the total and one count per status, over the
      unfiltered leads. */
  datatype StatusCounts = StatusCounts(
    all: nat, newLeads: nat, highPotential: nat, followUp: nat, notConnected: nat)

  function GetStatusCounts(leads: seq<Lead>): (r: StatusCounts)
    ensures r.all == |leads|
    ensures r.newLeads + r.highPotential + r.followUp + r.notConnected == r.all
    ensures r.newLeads == multiset(StatusesOf(leads))[New]
    ensures r.highPotential == multiset(StatusesOf(leads))[HighPotential]
    ensures r.followUp == multiset(StatusesOf(leads))[FollowUp]
    ensures r.notConnected == multiset(StatusesOf(leads))[NotConnected]
  {
    StatusCountsSum(leads);
    CountStatusIsMultiplicity(leads, New);
    CountStatusIsMultiplicity(leads, HighPotential);
    CountStatusIsMultiplicity(leads, FollowUp);
    CountStatusIsMultiplicity(leads, NotConnected);
    StatusCounts(|leads|, CountStatus(leads, New), CountStatus(leads, HighPotential),
                 CountStatus(leads, FollowUp), CountStatus(leads, NotConnected))
  }

  /** `leads.map(lead => lead.industry)`. */
  function IndustriesOf(leads: seq<Lead>): (r: seq<string>)
    ensures |r| == |leads| && forall i :: 0 <= i < |leads| ==> r[i] == leads[i].industry
  {
    if leads == [] then [] else [leads[0].industry] + IndustriesOf(leads[1..])
  }

  /** `[...new Set(leads.map(lead => lead.industry))]`: every industry
      present, each once, in order of first appearance. */
  function IndustryList(leads: seq<Lead>): (r: seq<string>)
    ensures forall x :: x in r <==> x in IndustriesOf(leads)
    ensures forall x :: x in r <==> exists i :: 0 <= i < |leads| && leads[i].industry == x
    ensures forall i, j :: 0 <= i < j < |r| ==> r[i] != r[j]
    ensures forall a, b :: 0 <= a < b < |r| ==>
      FirstIndex(IndustriesOf(leads), r[a]) < FirstIndex(IndustriesOf(leads), r[b])
  {
    var names := IndustriesOf(leads);
    DistinctHasNoDuplicates(names);
    forall a, b | 0 <= a < b < |Distinct(names)|
      ensures FirstIndex(names, Distinct(names)[a]) < FirstIndex(names, Distinct(names)[b])
    {
      DistinctFirstAppearanceOrder(names, a, b);
    }
    Distinct(names)
  }

  /** A lead's notes are truthy: not the empty string. */
  predicate HasNotes(l: Lead) { l.notes != "" }

  /** `leads.filter(l => l.notes).length`: the leads whose notes are not
      empty. */
  function WithNotesCount(leads: seq<Lead>): (n: nat)
    ensures n == |Filter(leads, HasNotes)|
    ensures n <= |leads|
    ensures n == 0 <==> forall i :: 0 <= i < |leads| ==> leads[i].notes == ""
    ensures n == |leads| <==> forall i :: 0 <= i < |leads| ==> leads[i].notes != ""
  {
    if leads == [] then 0
    else
      var rest := WithNotesCount(leads[1..]);
      assert forall i :: 1 <= i < |leads| ==> leads[i] == leads[1..][i - 1];
      (if leads[0].notes != "" then 1 else 0) + rest
  }
}
