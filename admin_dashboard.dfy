/** The administrator's dashboard (pages/AdminDashboard.tsx): the platform
    statistics and campaign table loaded from the service, the realtime
    update that adjusts both, the status actions, the pending list, the
    search box and the status badge. */
module AdminDashboard {
  import opened Seqs
  import opened Domain
  import opened MockApi
  import opened LiveUpdate
  import opened Text
  import Arith
  import MyCampaignCard

  /** No two campaigns of the list share an id. */
  predicate DistinctIds(cs: seq<Campaign>)
  {
    forall i, j :: 0 <= i < j < |cs| ==> cs[i].id != cs[j].id
  }

  /** The change a row makes to the raised total:
      `(Number(raised_amount) - campaigns.find(c => c.id === id)?.raisedAmount) || 0`,
      0 when no campaign of the list has the row's id. */
  function RaisedDelta(cs: seq<Campaign>, r: Row): (d: int)
    ensures FindIndex(cs, r.id).None? ==> d == 0
    ensures FindIndex(cs, r.id).Some? ==> d == r.raisedAmount - cs[FindIndex(cs, r.id).value].raisedAmount
  {
    match FindIndex(cs, r.id)
    case None => 0
    case Some(i) => r.raisedAmount - cs[i].raisedAmount
  }

  /** The same for the pledged total. */
  function PledgedDelta(cs: seq<Campaign>, r: Row): (d: int)
    ensures FindIndex(cs, r.id).None? ==> d == 0
    ensures FindIndex(cs, r.id).Some? ==> d == r.pledgedAmount - cs[FindIndex(cs, r.id).value].pledgedAmount
  {
    match FindIndex(cs, r.id)
    case None => 0
    case Some(i) => r.pledgedAmount - cs[i].pledgedAmount
  }

  /** With distinct ids, adding the deltas to the totals gives the totals of
      the merged list: the statistics stay in step with the table. */
  lemma {:induction false} MergeTotals(cs: seq<Campaign>, r: Row)
    requires DistinctIds(cs)
    ensures TotalOf(Merge(cs, r), RaisedOf) == TotalOf(cs, RaisedOf) + RaisedDelta(cs, r)
    ensures TotalOf(Merge(cs, r), PledgedOf) == TotalOf(cs, PledgedOf) + PledgedDelta(cs, r)
  {
    if cs != [] {
      var m := Merge(cs, r);
      assert m[1..] == Merge(cs[1..], r);
      if cs[0].id == r.id {
        forall c | c in cs[1..]
          ensures c.id != r.id
        {
          var j :| 0 <= j < |cs[1..]| && cs[1..][j] == c;
          assert cs[j + 1] == c;
        }
        MergeUnknownId(cs[1..], r);
      } else {
        MergeTotals(cs[1..], r);
      }
    }
  }

  /** With a repeated id, the table changes every copy while the statistics
      count the change once. */
  lemma RepeatedIdDrifts(c: Campaign, r: Row)
    requires c.id == r.id && r.raisedAmount != c.raisedAmount
    ensures TotalOf(Merge([c, c], r), RaisedOf) != TotalOf([c, c], RaisedOf) + RaisedDelta([c, c], r)
  {
    assert [c, c][1..] == [c] && [c][1..] == [];
    assert Merge([c], r) == [Apply(c, r)] + Merge([], r);
    var m := Merge([c, c], r);
    assert m == [Apply(c, r)] + Merge([c], r);
    assert m == [Apply(c, r), Apply(c, r)];
    assert m[1..] == [Apply(c, r)];
    assert FindIndex([c, c], r.id) == Some(0);
    var a := Apply(c, r);
    assert [a][1..] == [] && [c][1..] == [];
    assert Sum([a], RaisedOf) == a.raisedAmount;
    assert Sum([c], RaisedOf) == c.raisedAmount;
    assert TotalOf(m, RaisedOf) == 2 * r.raisedAmount;
    assert TotalOf([c, c], RaisedOf) == 2 * c.raisedAmount;
  }

  /** The status badge's text. */
  function Badge(s: CampaignStatus): (text: string)
    ensures s == Approved <==> text == "Active"
    ensures s == CampaignStatus.Pending <==> text == "Pending"
    ensures s == Suspended <==> text == "Suspended"
    ensures s == Completed <==> text == "Completed"
  {
    match s
    case Approved => "Active"
    case Pending => "Pending"
    case Suspended => "Suspended"
    case Completed => "Completed"
  }

  /** The action button a table row offers. */
  datatype RowAction = Approve | Suspend

  /** Every row offers exactly one action: Suspend for an APPROVED campaign,
      Approve for any other (a SUSPENDED, PENDING or COMPLETED one). */
  function ActionFor(s: CampaignStatus): (a: RowAction)
    ensures a == Suspend <==> s == Approved
    ensures a == Approve <==> s != Approved
  {
    if s == Approved then Suspend else Approve
  }

  /** The status each action asks for. */
  function TargetStatus(a: RowAction): (s: CampaignStatus)
    ensures a == Approve <==> s == Approved
  {
    match a
    case Approve => Approved
    case Suspend => Suspended
  }

  /** The action a row offers always asks for a different status than the
      row's own. */
  lemma ActionChangesStatus(s: CampaignStatus)
    ensures TargetStatus(ActionFor(s)) != s
  {
  }

  /** The "Pending Approval" list. */
  function PendingList(cs: seq<Campaign>): (r: seq<Campaign>)
    ensures forall c :: c in r <==> c in cs && c.status == CampaignStatus.Pending
    ensures forall c :: multiset(r)[c] == if c.status == CampaignStatus.Pending then multiset(cs)[c] else 0
    ensures IsSubseq(r, cs)
  {
    FilterMultiset(cs, IsPendingCampaign);
    Filter(cs, IsPendingCampaign)
  }

  /** A row matches the search when its lower-cased title or category
      contains the lower-cased term. */
  predicate Matches(c: Campaign, term: string)
  {
    Contains(Lower(c.title), Lower(term)) || Contains(Lower(c.category), Lower(term))
  }

  /** The table's rows for a search term. */
  function Search(cs: seq<Campaign>, term: string): (r: seq<Campaign>)
    ensures forall c :: c in r <==> c in cs && Matches(c, term)
    ensures forall c :: multiset(r)[c] == if Matches(c, term) then multiset(cs)[c] else 0
    ensures IsSubseq(r, cs)
  {
    FilterMultiset(cs, (c: Campaign) => Matches(c, term));
    Filter(cs, (c: Campaign) => Matches(c, term))
  }

  /** An empty search shows every campaign. */
  lemma EmptySearchShowsAll(cs: seq<Campaign>)
    ensures Search(cs, "") == cs
  {
    forall c | c in cs
      ensures Matches(c, "")
    {
      ContainsEmpty(Lower(c.title));
    }
    FilterAll(cs, (c: Campaign) => Matches(c, ""));
  }

  lemma LowerTwice(s: string)
    ensures Lower(Lower(s)) == Lower(s)
  {
  }

  /** The search ignores the case of the term. */
  lemma SearchIgnoresCase(cs: seq<Campaign>, term: string)
    ensures Search(cs, Lower(term)) == Search(cs, term)
  {
    LowerTwice(term);
    FilterSame(cs, (c: Campaign) => Matches(c, Lower(term)), (c: Campaign) => Matches(c, term));
  }

  /** The percentage a table row prints and sizes its bar with:
      `Math.round(((raised + pledged) / target) * 100)`, the owner card's
      figure, with no fallback for a zero target. */
  function RowPercent(c: Campaign): (p: MyCampaignCard.Percentage)
    ensures p.Whole? <==> c.targetAmount != 0
    ensures c.targetAmount > 0 ==>
      2 * (c.targetAmount * p.n) - c.targetAmount <= 200 * (c.raisedAmount + c.pledgedAmount) < 2 * (c.targetAmount * p.n) + c.targetAmount
    ensures c.targetAmount == 0 ==> (p.PlusInfinity? <==> c.raisedAmount + c.pledgedAmount > 0)
  {
    MyCampaignCard.Percent(c)
  }

  /** The row's bar takes the percentage as its width unchanged, so it is
      not capped: with a positive target it passes 100% from 100.5% of the
      target on, and with a zero target and some money it is infinite. */
  lemma RowBarNotCapped(c: Campaign)
    ensures c.targetAmount > 0 ==> (RowPercent(c).n > 100 <==> 200 * (c.raisedAmount + c.pledgedAmount) >= 201 * c.targetAmount)
    ensures c.targetAmount > 0 && c.raisedAmount + c.pledgedAmount > c.targetAmount ==> RowPercent(c).n >= 100
    ensures c.targetAmount == 0 && c.raisedAmount + c.pledgedAmount > 0 ==> RowPercent(c) == MyCampaignCard.PlusInfinity
  {
    if c.targetAmount > 0 {
      Arith.RoundedPercent(c.raisedAmount + c.pledgedAmount, c.targetAmount);
    }
  }

  // ---- The page ----

  class AdminPage {
    const api: Ledger
    var stats: AdminStats
    var campaigns: seq<Campaign>
    var loading: bool
    var searchTerm: string
    var showUpdateNotification: bool
    var updatedCampaignTitle: string
    /** The campaign ids of the open realtime channels. */
    var channels: seq<string>
    /** The list the open channels' callbacks were created with; the
        callback looks the old amounts up in it. */
    var snapshot: seq<Campaign>

    /** The statistics' totals are those of the table. */
    predicate InStep()
      reads this
    {
      stats.totalRaised == TotalOf(campaigns, RaisedOf) && stats.totalPledged == TotalOf(campaigns, PledgedOf)
    }

    constructor(api: Ledger)
      ensures this.api == api
      ensures stats == AdminStats(0, 0, 0, 0, 0) && campaigns == [] && loading && searchTerm == ""
      ensures !showUpdateNotification && updatedCampaignTitle == "" && channels == [] && snapshot == []
      ensures InStep()
    {
      this.api := api;
      stats := AdminStats(0, 0, 0, 0, 0);
      campaigns := [];
      loading := true;
      searchTerm := "";
      showUpdateNotification := false;
      updatedCampaignTitle := "";
      channels := [];
      snapshot := [];
    }

    /** `refreshData`: the whole campaign list and the service's statistics,
        which are then in step with the table. */
    method RefreshData()
      modifies this
      ensures campaigns == api.campaigns && stats == api.GetAdminStats()
      ensures InStep()
      ensures !loading
      ensures channels == old(channels) && snapshot == old(snapshot) && searchTerm == old(searchTerm)
    {
      loading := true;
      campaigns := api.GetAllCampaigns();
      stats := api.GetAdminStats();
      loading := false;
    }

    /** The subscription effect, run whenever the list changes: the previous
        channels are closed, and one is opened per campaign unless the list
        is empty; the new callbacks capture the current list. */
    method SyncSubscriptions() returns (closed: seq<string>)
      modifies this
      ensures closed == old(channels)
      ensures channels == if campaigns == [] then [] else Ids(campaigns)
      ensures snapshot == campaigns
      ensures campaigns == old(campaigns) && stats == old(stats)
    {
      closed := channels;
      channels := if campaigns == [] then [] else Ids(campaigns);
      snapshot := campaigns;
    }

    /** The subscription callback: the row is merged into the table, the
        totals are moved by the row's change against the captured list, and
        the title is announced. Right after the subscription effect, with
        distinct ids, the statistics stay in step with the table. */
    method OnCampaignUpdate(p: Payload)
      modifies this
      ensures p.changed.None? ==>
        && campaigns == old(campaigns)
        && stats == old(stats)
        && showUpdateNotification == old(showUpdateNotification)
      ensures p.changed.Some? ==>
        var r := p.changed.value;
        && campaigns == Merge(old(campaigns), r)
        && stats == old(stats).(totalRaised := old(stats).totalRaised + RaisedDelta(old(snapshot), r),
                                totalPledged := old(stats).totalPledged + PledgedDelta(old(snapshot), r))
        && showUpdateNotification && updatedCampaignTitle == r.title
      ensures old(InStep()) && old(snapshot) == old(campaigns) && DistinctIds(old(campaigns)) ==> InStep()
      ensures channels == old(channels) && snapshot == old(snapshot)
    {
      if p.changed.Some? {
        var r := p.changed.value;
        if InStep() && snapshot == campaigns && DistinctIds(campaigns) {
          MergeTotals(campaigns, r);
        }
        campaigns := Merge(campaigns, r);
        stats := stats.(totalRaised := stats.totalRaised + RaisedDelta(snapshot, r),
                        totalPledged := stats.totalPledged + PledgedDelta(snapshot, r));
        updatedCampaignTitle := r.title;
        showUpdateNotification := true;
      }
    }

    /** `handleStatusUpdate`: the service call, then a refresh. The mock
        service stores nothing, so the table shows the statuses it had. */
    method HandleStatusUpdate(id: string, status: CampaignStatus)
      requires api.Valid()
      modifies this
      ensures campaigns == api.campaigns && stats == api.GetAdminStats() && InStep()
      ensures api.campaigns == old(api.campaigns) && !loading
      ensures searchTerm == old(searchTerm) && channels == old(channels) && snapshot == old(snapshot)
    {
      var _, _ := api.UpdateCampaignStatus(id, status);
      RefreshData();
    }

    method SetSearchTerm(term: string)
      modifies this
      ensures searchTerm == term
      ensures campaigns == old(campaigns) && stats == old(stats)
      ensures loading == old(loading) && showUpdateNotification == old(showUpdateNotification)
      ensures updatedCampaignTitle == old(updatedCampaignTitle)
      ensures channels == old(channels) && snapshot == old(snapshot)
    {
      searchTerm := term;
    }

    /** The table shown: the rows matching the current term. */
    function Rows(): (r: seq<Campaign>)
      reads this
      ensures forall c :: c in r <==> c in campaigns && Matches(c, searchTerm)
      ensures forall c :: multiset(r)[c] == if Matches(c, searchTerm) then multiset(campaigns)[c] else 0
      ensures IsSubseq(r, campaigns)
    {
      Search(campaigns, searchTerm)
    }
  }
}
