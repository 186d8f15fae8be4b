/** The public campaign browser (pages/Campaigns.tsx): the approved campaigns,
    narrowed by a category and a search query and ordered by one of three
    sort options. */
module Campaigns {
  import opened Seqs
  import opened Domain
  import opened MockApi
  import opened Text

  /** The category chips; "All" switches the category filter off. */
  const Categories: seq<string> :=
    ["All", "Business", "Community", "Education", "Medical", "Emergency", "Sports", "Family", "Creative"]

  const AllCategories: string := "All"

  datatype SortOption = Newest | EndingSoon | MostFunded

  /** How far a campaign is funded, counting pledges: `(raised + pledged) /
      target`; a zero target is ranked as 0. */
  function FundedRatio(c: Campaign): (q: real)
    ensures c.targetAmount == 0 ==> q == 0.0
    ensures c.targetAmount != 0 ==> q * c.targetAmount as real == (c.raisedAmount + c.pledgedAmount) as real
  {
    if c.targetAmount == 0 then 0.0
    else (c.raisedAmount + c.pledgedAmount) as real / c.targetAmount as real
  }

  /** The key each option sorts on, largest first: the start date for
      "newest", the negated end date for "ending soon" (earliest end first),
      the funded ratio for "most funded". */
  function SortKey(s: SortOption): Campaign -> real
  {
    match s
    case Newest => (c: Campaign) => c.startDate as real
    case EndingSoon => (c: Campaign) => -(c.endDate as real)
    case MostFunded => FundedRatio
  }

  predicate InCategory(c: Campaign, category: string)
  {
    category == AllCategories || c.category == category
  }

  /** An empty query matches everything; otherwise the lower-cased title or
      description must contain the lower-cased query. */
  predicate MatchesQuery(c: Campaign, query: string)
  {
    query == [] || Contains(Lower(c.title), Lower(query)) || Contains(Lower(c.description), Lower(query))
  }

  /** The campaigns passing both filters, in the order of the list. */
  function Selected(cs: seq<Campaign>, category: string, query: string): (r: seq<Campaign>)
    ensures forall c :: c in r <==> c in cs && InCategory(c, category) && MatchesQuery(c, query)
    ensures forall c :: multiset(r)[c] == if InCategory(c, category) && MatchesQuery(c, query) then multiset(cs)[c] else 0
    ensures IsSubseq(r, cs)
  {
    var byCategory := if category != AllCategories then Filter(cs, (c: Campaign) => c.category == category) else cs;
    var byQuery := if query != [] then Filter(byCategory, (c: Campaign) => MatchesQuery(c, query)) else byCategory;
    FilterMultiset(cs, (c: Campaign) => c.category == category);
    FilterMultiset(byCategory, (c: Campaign) => MatchesQuery(c, query));
    SubseqRefl(cs);
    SubseqRefl(byCategory);
    SubseqTrans(byQuery, byCategory, cs);
    byQuery
  }

  /** `filteredCampaigns`: the selected campaigns, sorted. */
  function Browse(cs: seq<Campaign>, category: string, query: string, sort: SortOption): (r: seq<Campaign>)
    ensures multiset(r) == multiset(Selected(cs, category, query))
    ensures SortedDesc(r, SortKey(sort))
  {
    SortDesc(Selected(cs, category, query), SortKey(sort))
  }

  /** A campaign is listed exactly when it passes both filters. */
  lemma BrowseMembers(cs: seq<Campaign>, category: string, query: string, sort: SortOption, c: Campaign)
    ensures c in Browse(cs, category, query, sort) <==> c in cs && InCategory(c, category) && MatchesQuery(c, query)
  {
    var r := Browse(cs, category, query, sort);
    assert c in r <==> c in multiset(r);
  }

  /** With the defaults ("All", no query) the list is every campaign, each once. */
  lemma DefaultsShowEverything(cs: seq<Campaign>, sort: SortOption)
    ensures multiset(Browse(cs, AllCategories, "", sort)) == multiset(cs)
  {
  }

  /** "Newest" puts later start dates first. */
  lemma NewestFirst(cs: seq<Campaign>, category: string, query: string, i: nat, j: nat)
    requires i < j < |Browse(cs, category, query, Newest)|
    ensures Browse(cs, category, query, Newest)[i].startDate >= Browse(cs, category, query, Newest)[j].startDate
  {
    var r := Browse(cs, category, query, Newest);
    assert SortKey(Newest)(r[i]) >= SortKey(Newest)(r[j]);
  }

  /** "Ending soon" puts earlier end dates first. */
  lemma EndingSoonFirst(cs: seq<Campaign>, category: string, query: string, i: nat, j: nat)
    requires i < j < |Browse(cs, category, query, EndingSoon)|
    ensures Browse(cs, category, query, EndingSoon)[i].endDate <= Browse(cs, category, query, EndingSoon)[j].endDate
  {
    var r := Browse(cs, category, query, EndingSoon);
    assert SortKey(EndingSoon)(r[i]) >= SortKey(EndingSoon)(r[j]);
  }

  /** "Most funded" puts higher funded ratios first. */
  lemma MostFundedFirst(cs: seq<Campaign>, category: string, query: string, i: nat, j: nat)
    requires i < j < |Browse(cs, category, query, MostFunded)|
    ensures FundedRatio(Browse(cs, category, query, MostFunded)[i]) >= FundedRatio(Browse(cs, category, query, MostFunded)[j])
  {
    var r := Browse(cs, category, query, MostFunded);
    assert SortKey(MostFunded)(r[i]) >= SortKey(MostFunded)(r[j]);
  }

  class CampaignsPage {
    const api: Ledger
    var campaigns: seq<Campaign>
    var loading: bool
    var searchQuery: string
    var selectedCategory: string
    var sortBy: SortOption

    constructor(api: Ledger)
      ensures this.api == api && campaigns == [] && loading
      ensures searchQuery == "" && selectedCategory == AllCategories && sortBy == Newest
    {
      this.api := api;
      campaigns := [];
      loading := true;
      searchQuery := "";
      selectedCategory := AllCategories;
      sortBy := Newest;
    }

    /** The mount effect: only approved campaigns reach the public page. */
    method Mount()
      modifies this
      ensures campaigns == api.GetCampaigns() && !loading
      ensures forall c :: c in campaigns ==> c in api.campaigns && c.status == Approved
      ensures searchQuery == old(searchQuery) && selectedCategory == old(selectedCategory) && sortBy == old(sortBy)
    {
      campaigns := api.GetCampaigns();
      loading := false;
    }

    /** The list the grid renders. */
    function Shown(): (r: seq<Campaign>)
      reads this
      ensures multiset(r) == multiset(Selected(campaigns, selectedCategory, searchQuery))
      ensures SortedDesc(r, SortKey(sortBy))
    {
      Browse(campaigns, selectedCategory, searchQuery, sortBy)
    }
  }
}
