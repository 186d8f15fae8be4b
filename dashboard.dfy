/** The supporter's dashboard (pages/Dashboard.tsx): the session wait on
    mount, the data it loads, the realtime subscriptions to the user's own
    campaigns, the donation and pledge totals, the activity feed, the two
    campaign sections and the level caption. */
module Dashboard {
  import opened Seqs
  import opened Domain
  import opened MockApi
  import opened LiveUpdate
  import Metrics

  // ---- Session wait ----

  /** How many times the page asks for the session before giving up. */
  const MaxRetries: nat := 3

  /** Asks for the session (`session(k)` is the answer to the k-th request)
      until one is there, at most `MaxRetries` times. The result is the first
      session among the answers, and the page redirects to the login page
      exactly when there is none among the first three. */
  method EstablishSession(session: nat -> Option<User>) returns (u: Option<User>, calls: nat)
    ensures 1 <= calls <= MaxRetries
    ensures forall k :: 0 <= k < calls - 1 ==> session(k).None?
    ensures u == session(calls - 1)
    ensures u.None? ==> calls == MaxRetries
  {
    u := None;
    var retries := 0;
    calls := 0;
    while u.None? && retries < MaxRetries
      invariant 0 <= retries < MaxRetries
      invariant calls == retries
      invariant u.None?
      invariant forall k :: 0 <= k < calls ==> session(k).None?
      decreases MaxRetries - retries
    {
      u := session(calls);
      calls := calls + 1;
      if u.None? && retries < MaxRetries - 1 {
        retries := retries + 1;
      } else {
        break;
      }
    }
  }

  // ---- Totals, feed and sections ----

  function AmountOfDonation(d: Donation): int { d.amount }
  function AmountOfPledge(p: Pledge): int { p.amount }
  predicate IsPendingPledge(p: Pledge) { p.status == PledgeStatus.Pending }

  /** "Total donated": the sum of every donation. */
  function TotalDonated(ds: seq<Donation>): int
  {
    Sum(ds, AmountOfDonation)
  }

  /** "Total pledged": the sum of the PENDING pledges only. */
  function TotalPledged(ps: seq<Pledge>): int
  {
    Sum(Filter(ps, IsPendingPledge), AmountOfPledge)
  }

  /** A new donation adds its amount to the donated total. */
  lemma TotalDonatedAppend(ds: seq<Donation>, d: Donation)
    ensures TotalDonated(ds + [d]) == TotalDonated(ds) + d.amount
  {
    SumAppend(ds, [d], AmountOfDonation);
  }

  /** A new pledge adds its amount to the pledged total while it is PENDING
      and nothing otherwise; so a pledge leaving PENDING leaves the total. */
  lemma TotalPledgedAppend(ps: seq<Pledge>, p: Pledge)
    ensures TotalPledged(ps + [p]) == TotalPledged(ps) + (if p.status == PledgeStatus.Pending then p.amount else 0)
  {
    FilterAppend(ps, [p], IsPendingPledge);
    SumAppend(Filter(ps, IsPendingPledge), Filter([p], IsPendingPledge), AmountOfPledge);
  }

  /** An entry of the activity feed: a donation or a pledge. */
  datatype Activity = Gave(donation: Donation) | Promised(pledge: Pledge)

  /** The date a feed entry is sorted by: a donation's creation time, a
      pledge's due date. */
  function ActivityDate(a: Activity): real
  {
    match a
    case Gave(d) => d.createdAt as real
    case Promised(p) => p.dueDate as real
  }

  function Gifts(ds: seq<Donation>): (r: seq<Activity>)
    ensures |r| == |ds| && forall i :: 0 <= i < |ds| ==> r[i] == Gave(ds[i])
  {
    if ds == [] then [] else [Gave(ds[0])] + Gifts(ds[1..])
  }

  function Promises(ps: seq<Pledge>): (r: seq<Activity>)
    ensures |r| == |ps| && forall i :: 0 <= i < |ps| ==> r[i] == Promised(ps[i])
  {
    if ps == [] then [] else [Promised(ps[0])] + Promises(ps[1..])
  }

  /** The feed: the donations followed by the pledges, stably sorted with the
      latest date first. */
  function Activities(ds: seq<Donation>, ps: seq<Pledge>): (r: seq<Activity>)
    ensures SortedDesc(r, ActivityDate)
    ensures multiset(r) == multiset(Gifts(ds) + Promises(ps))
    ensures |r| == |ds| + |ps|
  {
    SortDesc(Gifts(ds) + Promises(ps), ActivityDate)
  }

  /** Every donation and every pledge appears in the feed, and nothing else. */
  lemma ActivitiesMembers(ds: seq<Donation>, ps: seq<Pledge>)
    ensures forall d :: Gave(d) in Activities(ds, ps) <==> d in ds
    ensures forall p :: Promised(p) in Activities(ds, ps) <==> p in ps
  {
    var all := Gifts(ds) + Promises(ps);
    var r := Activities(ds, ps);
    forall a
      ensures a in r <==> a in all
    {
      assert a in r <==> a in multiset(r);
      assert a in all <==> a in multiset(all);
    }
    FeedMembers(ds, ps);
  }

  lemma FeedMembers(ds: seq<Donation>, ps: seq<Pledge>)
    ensures forall d :: Gave(d) in Gifts(ds) + Promises(ps) <==> d in ds
    ensures forall p :: Promised(p) in Gifts(ds) + Promises(ps) <==> p in ps
  {
    var all := Gifts(ds) + Promises(ps);
    forall d
      ensures Gave(d) in all <==> d in ds
    {
      if d in ds {
        var i :| 0 <= i < |ds| && ds[i] == d;
        assert all[i] == Gave(d);
      }
    }
    forall p
      ensures Promised(p) in all <==> p in ps
    {
      if p in ps {
        var i :| 0 <= i < |ps| && ps[i] == p;
        assert all[|ds| + i] == Promised(p);
      }
    }
  }

  /** The feed opens with the earliest-listed of the entries with the latest
      date; a donation and a pledge on the same date keep the donation first. */
  lemma ActivitiesHead(ds: seq<Donation>, ps: seq<Pledge>)
    requires ds != [] || ps != []
    ensures var all := Gifts(ds) + Promises(ps);
      Activities(ds, ps)[0] == all[FirstMaxIndex(all, ActivityDate)]
  {
    SortDescHead(Gifts(ds) + Promises(ps), ActivityDate);
  }

  predicate IsLive(c: Campaign) { c.status == Approved || c.status == Completed }
  predicate IsSuspended(c: Campaign) { c.status == Suspended }

  /** "Pending Approval": the user's PENDING campaigns, shown as pending cards. */
  function PendingSection(cs: seq<Campaign>): seq<Campaign>
  {
    Filter(cs, IsPendingCampaign)
  }

  /** "Active Campaigns": the APPROVED and COMPLETED ones. */
  function ActiveSection(cs: seq<Campaign>): seq<Campaign>
  {
    Filter(cs, IsLive)
  }

  /** The two sections split the campaigns that are not SUSPENDED; a
      SUSPENDED campaign is in neither, so it is not shown at all. */
  lemma {:induction false} SectionsCount(cs: seq<Campaign>)
    ensures |PendingSection(cs)| + |ActiveSection(cs)| + |Filter(cs, IsSuspended)| == |cs|
  {
    if cs != [] {
      SectionsCount(cs[1..]);
    }
  }

  lemma SuspendedHidden(cs: seq<Campaign>, c: Campaign)
    requires c.status == Suspended
    ensures c !in PendingSection(cs) && c !in ActiveSection(cs)
  {
  }

  // ---- The level caption ----

  /** The caption beside the level bar: "Max Level!" or "N% to Level L". */
  datatype LevelCaption = MaxLevel | ToLevel(percent: int, level: int)

  /** The caption as written: "Max Level!" whenever the progress is exactly
      100, otherwise `progress || 0` percent to `currentLevel + 1` (2 when
      there are no metrics). */
  function LevelCaptionAsWritten(m: Option<Metrics.DashboardMetrics>): LevelCaption
  {
    if m.Some? && m.value.progressToNextLevel == 100 then MaxLevel
    else if m.None? then ToLevel(0, 2)
    else ToLevel(m.value.progressToNextLevel, if m.value.currentLevel != 0 then m.value.currentLevel + 1 else 2)
  }

  /** One UGX short of Silver, a Bronze supporter's progress rounds to 100
      and the dashboard calls level 1 the maximum. */
  lemma MaxLevelShownAtBronze(m: Metrics.DashboardMetrics)
    requires m.currentLevel == Metrics.LevelOf(99_999).currentLevel
    requires m.progressToNextLevel == Metrics.LevelOf(99_999).progress
    ensures Metrics.LevelIndex(99_999) == 0 && m.currentLevel == 1
    ensures LevelCaptionAsWritten(Some(m)) == MaxLevel
  {
    Metrics.RoundingAtRungBoundary();
  }

  /** The caption with "Max Level!" reserved for the top rung's level. */
  function LevelCaptionOf(m: Option<Metrics.DashboardMetrics>): LevelCaption
  {
    if m.Some? && m.value.currentLevel == Metrics.Ladder[Metrics.Top].level then MaxLevel
    else if m.None? then ToLevel(0, 2)
    else ToLevel(m.value.progressToNextLevel, if m.value.currentLevel != 0 then m.value.currentLevel + 1 else 2)
  }

  /** For metrics computed from an impact, the corrected caption says "Max
      Level!" exactly on the top rung, and otherwise names the next level. */
  lemma MaxLevelIffTopRung(m: Metrics.DashboardMetrics, impact: int)
    requires m.currentLevel == Metrics.LevelOf(impact).currentLevel
    requires m.progressToNextLevel == Metrics.LevelOf(impact).progress
    ensures LevelCaptionOf(Some(m)) == MaxLevel <==> Metrics.LevelIndex(impact) == Metrics.Top
    ensures LevelCaptionOf(Some(m)).ToLevel? ==>
      LevelCaptionOf(Some(m)).level == Metrics.LevelIndex(impact) + 2
  {
    Metrics.LadderIncreasing();
  }

  /** On the top rung the caption as written agrees with the corrected one. */
  lemma CaptionsAgreeAtTop(m: Metrics.DashboardMetrics, impact: int)
    requires m.currentLevel == Metrics.LevelOf(impact).currentLevel
    requires m.progressToNextLevel == Metrics.LevelOf(impact).progress
    requires Metrics.LevelIndex(impact) == Metrics.Top
    ensures LevelCaptionAsWritten(Some(m)) == LevelCaptionOf(Some(m)) == MaxLevel
  {
    Metrics.LadderIncreasing();
    Metrics.ProgressBounds(impact);
  }

  // ---- The page ----

  /** The metrics `loadUserData` sets: computed from `ds` and `ps` for a
      profile with a (non-zero) creation time; otherwise `current` stays. */
  method MetricsFor(u: User, now: int, b: Metrics.MonthBounds, ds: seq<Donation>, ps: seq<Pledge>,
                    current: Option<Metrics.DashboardMetrics>)
    returns (ms: Option<Metrics.DashboardMetrics>)
    ensures u.createdAt.Some? && u.createdAt.value != 0 ==>
      ms.Some? && Metrics.Describes(ms.value, u.createdAt.value, now, b, ds, ps)
    ensures !(u.createdAt.Some? && u.createdAt.value != 0) ==> ms == current
  {
    ms := current;
    if u.createdAt.Some? && u.createdAt.value != 0 {
      var m := Metrics.CalculateAllMetrics(u.createdAt.value, now, b, ds, ps);
      ms := Some(m);
    }
  }

  /** The page's state. `channels` holds the campaign ids of the open
      realtime subscriptions. */
  class DashboardPage {
    const api: Ledger
    var user: Option<User>
    var pledges: seq<Pledge>
    var donations: seq<Donation>
    var campaigns: seq<Campaign>
    var metrics: Option<Metrics.DashboardMetrics>
    var showUpdateNotification: bool
    var updatedCampaignTitle: string
    var loading: bool
    var redirectedToLogin: bool
    var channels: seq<string>

    constructor(api: Ledger)
      ensures this.api == api
      ensures user.None? && pledges == [] && donations == [] && campaigns == []
      ensures metrics.None? && !showUpdateNotification && updatedCampaignTitle == ""
      ensures loading && !redirectedToLogin && channels == []
    {
      this.api := api;
      user := None;
      pledges := [];
      donations := [];
      campaigns := [];
      metrics := None;
      showUpdateNotification := false;
      updatedCampaignTitle := "";
      loading := true;
      redirectedToLogin := false;
      channels := [];
    }

    /** The mount effect: wait for the session, redirect to the login page
        when there is none, otherwise load the user's data. */
    method Mount(session: nat -> Option<User>, now: int, b: Metrics.MonthBounds)
      modifies this
      ensures !loading && channels == old(channels)
      ensures redirectedToLogin <==> (forall k :: 0 <= k < MaxRetries ==> session(k).None?)
      ensures redirectedToLogin ==> user == old(user) && campaigns == old(campaigns) && metrics == old(metrics)
      ensures !redirectedToLogin ==> user.Some? && Loaded(user.value)
      ensures !redirectedToLogin && user.value.createdAt.Some? && user.value.createdAt.value != 0 ==>
        metrics.Some?
        && Metrics.Describes(metrics.value, user.value.createdAt.value, now, b, donations, pledges)
      ensures !redirectedToLogin && !(user.value.createdAt.Some? && user.value.createdAt.value != 0) ==>
        metrics == old(metrics)
    {
      var u, calls := EstablishSession(session);
      if u.None? {
        redirectedToLogin := true;
        loading := false;
        return;
      }
      Load(u.value, now, b);
      redirectedToLogin := false;
      loading := false;
    }

    /** The state after loading `u`'s data: the user, and the pledges,
        donations and campaigns the service returns for `u`. */
    ghost predicate Loaded(u: User)
      reads this, api
    {
      && user == Some(u)
      && pledges == api.GetUserPledges(u.id)
      && donations == api.GetUserDonations(u.id)
      && campaigns == api.GetUserCampaigns(u.id)
    }

    /** Loads `u`'s data, and computes the metrics from it when the profile
        has a (non-zero) creation time; otherwise the metrics are not
        touched. */
    method Load(u: User, now: int, b: Metrics.MonthBounds)
      modifies this
      ensures Loaded(u)
      ensures u.createdAt.Some? && u.createdAt.value != 0 ==>
        metrics.Some? && Metrics.Describes(metrics.value, u.createdAt.value, now, b, donations, pledges)
      ensures !(u.createdAt.Some? && u.createdAt.value != 0) ==> metrics == old(metrics)
      ensures channels == old(channels) && loading == old(loading) && redirectedToLogin == old(redirectedToLogin)
    {
      var ps := api.GetUserPledges(u.id);
      var ds := api.GetUserDonations(u.id);
      var cs := api.GetUserCampaigns(u.id);
      var ms := MetricsFor(u, now, b, ds, ps, metrics);
      user, pledges, donations, campaigns, metrics := Some(u), ps, ds, cs, ms;
    }

    /** The subscription callback: a row with content is merged into the
        list and its title announced; an empty payload changes nothing. */
    method OnCampaignUpdate(p: Payload)
      modifies this
      ensures p.changed.None? ==>
        && campaigns == old(campaigns)
        && showUpdateNotification == old(showUpdateNotification)
        && updatedCampaignTitle == old(updatedCampaignTitle)
      ensures p.changed.Some? ==>
        && campaigns == Merge(old(campaigns), p.changed.value)
        && showUpdateNotification
        && updatedCampaignTitle == p.changed.value.title
      ensures Ids(campaigns) == Ids(old(campaigns))
      ensures user == old(user) && pledges == old(pledges) && donations == old(donations)
      ensures metrics == old(metrics) && channels == old(channels)
      ensures loading == old(loading) && redirectedToLogin == old(redirectedToLogin)
    {
      if p.changed.Some? {
        MergeKeepsIds(campaigns, p.changed.value);
        campaigns := Merge(campaigns, p.changed.value);
        updatedCampaignTitle := p.changed.value.title;
        showUpdateNotification := true;
      }
    }

    /** The timer set by the callback hides the notification again. */
    method HideNotification()
      modifies this
      ensures !showUpdateNotification
      ensures campaigns == old(campaigns) && updatedCampaignTitle == old(updatedCampaignTitle)
      ensures user == old(user) && channels == old(channels) && metrics == old(metrics)
      ensures pledges == old(pledges) && donations == old(donations)
      ensures loading == old(loading) && redirectedToLogin == old(redirectedToLogin)
    {
      showUpdateNotification := false;
    }

    /** The subscription effect, run whenever `user` or `campaigns` changes:
        the previous run's cleanup closes every open channel, then one
        channel per campaign is opened, but none when there is no user or
        no campaign. */
    method SyncSubscriptions() returns (closed: seq<string>)
      modifies this
      ensures closed == old(channels)
      ensures channels == if user.None? || campaigns == [] then [] else Ids(campaigns)
      ensures |channels| <= |campaigns|
      ensures user == old(user) && campaigns == old(campaigns) && metrics == old(metrics)
      ensures showUpdateNotification == old(showUpdateNotification)
      ensures updatedCampaignTitle == old(updatedCampaignTitle)
    {
      closed := channels;
      channels := if user.None? || campaigns == [] then [] else Ids(campaigns);
    }
  }
}
