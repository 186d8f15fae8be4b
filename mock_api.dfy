/** The in-memory backend (services/mockApi.ts): module-level lists of
    campaigns, pledges and donations, the calls that append to them and add
    to a campaign's totals in place, and the read-only queries over them. The
    clock is the `now` parameter (milliseconds), and the artificial delays
    before each promise resolves are not modelled. */
module MockApi {
  import opened Seqs
  import opened Text
  import opened Domain

  // ---- Seed data ----

  /** `MOCK_USERS`; the seed profiles carry no creation time. */
  const MockUsers: seq<User> := [
    User("u1", "John Doe", "john@example.com", Regular, 500_000, None),
    User("u2", "Sarah K", "sarah@example.com", Creator, 0, None)
  ]

  /** `MOCK_CAMPAIGNS`, with the seed dates as UTC milliseconds. The HTML
      descriptions of the seeds are not reproduced. */
  const MockCampaigns: seq<Campaign> := [
    Campaign("c1", "u2", "Clean Water for Kla Village", "", "Community",
      5_000_000, 1_250_000, 500_000,
      ["https://picsum.photos/800/400?random=1", "https://picsum.photos/800/400?random=11",
       "https://picsum.photos/800/400?random=12"],
      1_696_118_400_000, 1_709_251_200_000, Approved),
    Campaign("c2", "u2", "School Fees for 50 Kids", "", "Education",
      2_000_000, 800_000, 100_000, ["https://picsum.photos/800/400?random=2"],
      1_698_796_800_000, 1_707_955_200_000, Approved),
    Campaign("c3", "u2", "Community Sports Center", "", "Sports",
      15_000_000, 0, 0, ["https://picsum.photos/800/400?random=3"],
      1_701_388_800_000, 1_717_200_000_000, CampaignStatus.Pending)
  ]

  // ---- Lookups and per-campaign sums ----

  /** `campaigns.findIndex(c => c.id === id)`, with `None` for -1. */
  function FindIndex(cs: seq<Campaign>, id: string): (r: Option<nat>)
    ensures r.Some? ==> r.value < |cs| && cs[r.value].id == id
    ensures r.Some? ==> forall j :: 0 <= j < r.value ==> cs[j].id != id
    ensures r.None? ==> forall j :: 0 <= j < |cs| ==> cs[j].id != id
  {
    if cs == [] then None
    else if cs[0].id == id then Some(0)
    else match FindIndex(cs[1..], id)
      case None => None
      case Some(k) => Some(k + 1)
  }

  /** No campaign before `i` has the id of campaign `i`. */
  predicate IsFirst(cs: seq<Campaign>, i: nat)
    requires i < |cs|
  {
    forall j :: 0 <= j < i ==> cs[j].id != cs[i].id
  }

  /** `FindIndex` finds campaign `i` exactly when `i` is the first with its id. */
  lemma FindIndexIsFirst(cs: seq<Campaign>, i: nat, id: string)
    requires i < |cs|
    ensures FindIndex(cs, id) == Some(i) <==> cs[i].id == id && IsFirst(cs, i)
  {
    if cs[i].id == id && IsFirst(cs, i) {
      assert FindIndex(cs, id).Some?;
    }
  }

  function RaisedOf(c: Campaign): int { c.raisedAmount }
  function PledgedOf(c: Campaign): int { c.pledgedAmount }
  function DonationCampaignId(d: Donation): string { d.campaignId }
  function DonationAmountOf(d: Donation): int { d.amount }
  function PledgeCampaignId(p: Pledge): string { p.campaignId }
  function PledgeAmountOf(p: Pledge): int { p.amount }

  /** The amounts of the events aimed at campaign `id`. */
  function SumTo<E>(events: seq<E>, target: E -> string, amount: E -> int, id: string): int
  {
    Sum(events, (e: E) => if target(e) == id then amount(e) else 0)
  }

  /** Each campaign's `total` is the value it was seeded with, plus, for the
      first campaign with its id, the events for that id recorded since it
      was added. */
  ghost predicate Accounted<E>(cs: seq<Campaign>, total: Campaign -> int, events: seq<E>,
                               target: E -> string, amount: E -> int, seed: seq<int>, since: seq<nat>)
  {
    && |seed| == |cs| && |since| == |cs|
    && forall i :: 0 <= i < |cs| ==>
         && since[i] <= |events|
         && total(cs[i]) == seed[i] + (if IsFirst(cs, i) then SumTo(events[since[i]..], target, amount, cs[i].id) else 0)
  }

  /** Recording one event and adding its amount to the campaign `findIndex`
      picks keeps the accounting; so does leaving every campaign as it was
      when no campaign has the event's id. */
  lemma {:induction false} CreditAccounted<E>(cs: seq<Campaign>, cs': seq<Campaign>, total: Campaign -> int,
                                              events: seq<E>, e: E, target: E -> string, amount: E -> int,
                                              seed: seq<int>, since: seq<nat>)
    requires Accounted(cs, total, events, target, amount, seed, since)
    requires |cs'| == |cs| && forall i :: 0 <= i < |cs| ==> cs'[i].id == cs[i].id
    requires forall i :: 0 <= i < |cs| ==>
      total(cs'[i]) == total(cs[i]) + (if FindIndex(cs, target(e)) == Some(i) then amount(e) else 0)
    ensures Accounted(cs', total, events + [e], target, amount, seed, since)
  {
    forall i | 0 <= i < |cs|
      ensures total(cs'[i]) == seed[i]
        + (if IsFirst(cs', i) then SumTo((events + [e])[since[i]..], target, amount, cs'[i].id) else 0)
    {
      var f := (x: E) => if target(x) == cs[i].id then amount(x) else 0;
      assert (events + [e])[since[i]..] == events[since[i]..] + [e];
      SumAppend(events[since[i]..], [e], f);
      FindIndexIsFirst(cs, i, target(e));
      assert IsFirst(cs', i) == IsFirst(cs, i);
    }
  }

  /** Appending a campaign whose total is 0 keeps the accounting, with seed 0
      and the events counted from now on. */
  lemma AppendAccounted<E>(cs: seq<Campaign>, c: Campaign, total: Campaign -> int, events: seq<E>,
                           target: E -> string, amount: E -> int, seed: seq<int>, since: seq<nat>)
    requires Accounted(cs, total, events, target, amount, seed, since)
    requires total(c) == 0
    ensures Accounted(cs + [c], total, events, target, amount, seed + [0], since + [|events|])
  {
    var cs' := cs + [c];
    forall i | 0 <= i < |cs|
      ensures IsFirst(cs', i) == IsFirst(cs, i)
    {
      assert forall j :: 0 <= j < i ==> cs'[j] == cs[j];
    }
    assert events[|events|..] == [];
  }

  /** A change that keeps every id and every `total` keeps the accounting. */
  lemma FrameAccounted<E>(cs: seq<Campaign>, cs': seq<Campaign>, total: Campaign -> int, events: seq<E>,
                          target: E -> string, amount: E -> int, seed: seq<int>, since: seq<nat>)
    requires Accounted(cs, total, events, target, amount, seed, since)
    requires |cs'| == |cs| && forall i :: 0 <= i < |cs| ==> cs'[i].id == cs[i].id && total(cs'[i]) == total(cs[i])
    ensures Accounted(cs', total, events, target, amount, seed, since)
  {
    forall i | 0 <= i < |cs|
      ensures IsFirst(cs', i) == IsFirst(cs, i)
    {
    }
  }

  // ---- Updates in place ----

  /** `campaigns[i].raisedAmount += amount` at the index `findIndex` returns,
      or no change when it returns -1. */
  function CreditRaised(cs: seq<Campaign>, id: string, amount: int): (r: seq<Campaign>)
    ensures |r| == |cs|
    ensures forall i :: 0 <= i < |cs| ==> r[i].id == cs[i].id && r[i].pledgedAmount == cs[i].pledgedAmount
    ensures forall i :: 0 <= i < |cs| ==>
      r[i] == if FindIndex(cs, id) == Some(i) then cs[i].(raisedAmount := cs[i].raisedAmount + amount) else cs[i]
  {
    match FindIndex(cs, id)
    case None => cs
    case Some(i) => cs[i := cs[i].(raisedAmount := cs[i].raisedAmount + amount)]
  }

  /** `campaigns[i].pledgedAmount += amount` at the index `findIndex` returns. */
  function CreditPledged(cs: seq<Campaign>, id: string, amount: int): (r: seq<Campaign>)
    ensures |r| == |cs|
    ensures forall i :: 0 <= i < |cs| ==> r[i].id == cs[i].id && r[i].raisedAmount == cs[i].raisedAmount
    ensures forall i :: 0 <= i < |cs| ==>
      r[i] == if FindIndex(cs, id) == Some(i) then cs[i].(pledgedAmount := cs[i].pledgedAmount + amount) else cs[i]
  {
    match FindIndex(cs, id)
    case None => cs
    case Some(i) => cs[i := cs[i].(pledgedAmount := cs[i].pledgedAmount + amount)]
  }

  /** Recording a pledge and crediting its campaign keeps both accounts. */
  lemma PledgeAccounted(cs: seq<Campaign>, ps: seq<Pledge>, ds: seq<Donation>, p: Pledge,
                        seedRaised: seq<int>, seedPledged: seq<int>, sinceDonation: seq<nat>, sincePledge: seq<nat>)
    requires Accounted(cs, RaisedOf, ds, DonationCampaignId, DonationAmountOf, seedRaised, sinceDonation)
    requires Accounted(cs, PledgedOf, ps, PledgeCampaignId, PledgeAmountOf, seedPledged, sincePledge)
    ensures var cs' := CreditPledged(cs, p.campaignId, p.amount);
      && Accounted(cs', RaisedOf, ds, DonationCampaignId, DonationAmountOf, seedRaised, sinceDonation)
      && Accounted(cs', PledgedOf, ps + [p], PledgeCampaignId, PledgeAmountOf, seedPledged, sincePledge)
  {
    var cs' := CreditPledged(cs, p.campaignId, p.amount);
    CreditAccounted(cs, cs', PledgedOf, ps, p, PledgeCampaignId, PledgeAmountOf, seedPledged, sincePledge);
    FrameAccounted(cs, cs', RaisedOf, ds, DonationCampaignId, DonationAmountOf, seedRaised, sinceDonation);
  }

  /** Recording a donation and crediting its campaign keeps both accounts. */
  lemma DonationAccounted(cs: seq<Campaign>, ps: seq<Pledge>, ds: seq<Donation>, d: Donation,
                          seedRaised: seq<int>, seedPledged: seq<int>, sinceDonation: seq<nat>, sincePledge: seq<nat>)
    requires Accounted(cs, RaisedOf, ds, DonationCampaignId, DonationAmountOf, seedRaised, sinceDonation)
    requires Accounted(cs, PledgedOf, ps, PledgeCampaignId, PledgeAmountOf, seedPledged, sincePledge)
    ensures var cs' := CreditRaised(cs, d.campaignId, d.amount);
      && Accounted(cs', RaisedOf, ds + [d], DonationCampaignId, DonationAmountOf, seedRaised, sinceDonation)
      && Accounted(cs', PledgedOf, ps, PledgeCampaignId, PledgeAmountOf, seedPledged, sincePledge)
  {
    var cs' := CreditRaised(cs, d.campaignId, d.amount);
    CreditAccounted(cs, cs', RaisedOf, ds, d, DonationCampaignId, DonationAmountOf, seedRaised, sinceDonation);
    FrameAccounted(cs, cs', PledgedOf, ps, PledgeCampaignId, PledgeAmountOf, seedPledged, sincePledge);
  }

  /** The sum of a field over all campaigns. */
  function TotalOf(cs: seq<Campaign>, total: Campaign -> int): int
  {
    Sum(cs, total)
  }

  lemma {:induction false} SumUpdate(cs: seq<Campaign>, i: nat, c: Campaign, total: Campaign -> int)
    requires i < |cs|
    ensures Sum(cs[i := c], total) == Sum(cs, total) - total(cs[i]) + total(c)
  {
    if i > 0 {
      assert cs[i := c][1..] == cs[1..][i - 1 := c];
      SumUpdate(cs[1..], i - 1, c, total);
    } else {
      assert cs[i := c][1..] == cs[1..];
    }
  }

  /** A donation raises the platform's raised total by its amount when its
      campaign exists, and leaves the pledged total alone. */
  lemma CreditRaisedTotals(cs: seq<Campaign>, id: string, amount: int)
    ensures TotalOf(CreditRaised(cs, id, amount), RaisedOf)
      == TotalOf(cs, RaisedOf) + (if FindIndex(cs, id).Some? then amount else 0)
    ensures TotalOf(CreditRaised(cs, id, amount), PledgedOf) == TotalOf(cs, PledgedOf)
  {
    match FindIndex(cs, id)
    case None =>
    case Some(i) =>
      var c := cs[i].(raisedAmount := cs[i].raisedAmount + amount);
      SumUpdate(cs, i, c, RaisedOf);
      SumUpdate(cs, i, c, PledgedOf);
  }

  /** A pledge raises the pledged total by its amount when its campaign
      exists, and leaves the raised total alone. */
  lemma CreditPledgedTotals(cs: seq<Campaign>, id: string, amount: int)
    ensures TotalOf(CreditPledged(cs, id, amount), PledgedOf)
      == TotalOf(cs, PledgedOf) + (if FindIndex(cs, id).Some? then amount else 0)
    ensures TotalOf(CreditPledged(cs, id, amount), RaisedOf) == TotalOf(cs, RaisedOf)
  {
    match FindIndex(cs, id)
    case None =>
    case Some(i) =>
      var c := cs[i].(pledgedAmount := cs[i].pledgedAmount + amount);
      SumUpdate(cs, i, c, RaisedOf);
      SumUpdate(cs, i, c, PledgedOf);
  }

  /** Nothing deduplicates: the same donation twice adds its amount twice. */
  lemma CreditTwice(cs: seq<Campaign>, id: string, amount: int)
    ensures CreditRaised(CreditRaised(cs, id, amount), id, amount) == CreditRaised(cs, id, 2 * amount)
  {
    var once := CreditRaised(cs, id, amount);
    match FindIndex(cs, id)
    case None =>
    case Some(i) =>
      assert FindIndex(once, id) == Some(i) by {
        FindIndexIsFirst(cs, i, id);
        FindIndexIsFirst(once, i, id);
      }
  }

  // ---- Campaign creation ----

  /** The fields a caller of `createCampaign` may supply; `None` is a field
      left out. The organizer fields of the form are not among them. */
  datatype CampaignDraft = CampaignDraft(
    title: Option<string>,
    description: Option<string>,
    category: Option<string>,
    targetAmount: Option<int>,
    imageUrls: Option<seq<string>>,
    endDate: Option<int>)

  /** `value || fallback` for a string: a missing or empty value gives the fallback. */
  function StringOr(v: Option<string>, fallback: string): (r: string)
    ensures v.Some? && v.value != "" ==> r == v.value
    ensures v.None? || v.value == "" ==> r == fallback
  {
    if v.Some? && v.value != "" then v.value else fallback
  }

  /** `value || fallback` for a number or a date: 0 counts as missing. */
  function IntOr(v: Option<int>, fallback: int): (r: int)
    ensures v.Some? && v.value != 0 ==> r == v.value
    ensures v.None? || v.value == 0 ==> r == fallback
  {
    if v.Some? && v.value != 0 then v.value else fallback
  }

  /** The placeholder picture of a campaign created without images. */
  function Placeholder(now: nat): string
  {
    "https://picsum.photos/800/400?random=" + DecimalString(now)
  }

  /** The record `createCampaign` builds at time `now`: id `c<now>`, owner
      `u2`, status PENDING, both totals 0, and the defaults 'Untitled', '',
      'General', target 0, a placeholder image and an end date of now. */
  function NewCampaign(d: CampaignDraft, now: nat): (c: Campaign)
    ensures c.id == "c" + DecimalString(now) && c.ownerId == "u2"
    ensures c.status == CampaignStatus.Pending && c.raisedAmount == 0 && c.pledgedAmount == 0
    ensures c.startDate == now
    ensures c.title == StringOr(d.title, "Untitled") && c.description == StringOr(d.description, "")
    ensures c.category == StringOr(d.category, "General")
    ensures c.targetAmount == IntOr(d.targetAmount, 0) && c.endDate == IntOr(d.endDate, now)
    ensures |c.imageUrls| > 0
    ensures d.imageUrls.Some? && |d.imageUrls.value| > 0 ==> c.imageUrls == d.imageUrls.value
    ensures !(d.imageUrls.Some? && |d.imageUrls.value| > 0) ==> c.imageUrls == [Placeholder(now)]
  {
    Campaign(
      "c" + DecimalString(now),
      "u2",
      StringOr(d.title, "Untitled"),
      StringOr(d.description, ""),
      StringOr(d.category, "General"),
      IntOr(d.targetAmount, 0),
      0,
      0,
      if d.imageUrls.Some? && |d.imageUrls.value| > 0 then d.imageUrls.value else [Placeholder(now)],
      now,
      IntOr(d.endDate, now),
      CampaignStatus.Pending)
  }

  /** Campaigns created at different times get different ids. */
  lemma NewCampaignIdsDiffer(d1: CampaignDraft, d2: CampaignDraft, t1: nat, t2: nat)
    requires t1 != t2
    ensures NewCampaign(d1, t1).id != NewCampaign(d2, t2).id
  {
    DecimalStringInjective(t1, t2);
    var a := NewCampaign(d1, t1).id;
    var b := NewCampaign(d2, t2).id;
    assert a[1..] == DecimalString(t1);
    assert b[1..] == DecimalString(t2);
  }

  // ---- The ledger ----

  datatype AdminStats = AdminStats(
    totalRaised: int,
    totalPledged: int,
    totalUsers: int,
    totalCampaigns: int,
    pendingCampaigns: int)

  predicate IsApproved(c: Campaign) { c.status == Approved }
  predicate IsPendingCampaign(c: Campaign) { c.status == CampaignStatus.Pending }

  /** The three module-level lists and the fixed user list. The ghost fields
      remember, for each campaign, the totals it started with and how many
      donations and pledges had been recorded when it was added. */
  class Ledger {
    var campaigns: seq<Campaign>
    var pledges: seq<Pledge>
    var donations: seq<Donation>
    const users: seq<User>
    ghost var seedRaised: seq<int>
    ghost var seedPledged: seq<int>
    ghost var sinceDonation: seq<nat>
    ghost var sincePledge: seq<nat>

    /** Every campaign's raised total is its seed plus the donations recorded
        for its id, and its pledged total its seed plus the pledges. */
    ghost predicate Valid()
      reads this
    {
      && Accounted(campaigns, RaisedOf, donations, DonationCampaignId, DonationAmountOf, seedRaised, sinceDonation)
      && Accounted(campaigns, PledgedOf, pledges, PledgeCampaignId, PledgeAmountOf, seedPledged, sincePledge)
    }

    /** The module's initial state: the seed campaigns, and no pledges or
        donations yet (`MockCampaigns` and `MockUsers` for the application). */
    constructor(seedCampaigns: seq<Campaign>, seedUsers: seq<User>)
      ensures Valid()
      ensures campaigns == seedCampaigns && pledges == [] && donations == [] && users == seedUsers
    {
      campaigns := seedCampaigns;
      pledges := [];
      donations := [];
      users := seedUsers;
      seedRaised := seq(|seedCampaigns|, i requires 0 <= i < |seedCampaigns| => seedCampaigns[i].raisedAmount);
      seedPledged := seq(|seedCampaigns|, i requires 0 <= i < |seedCampaigns| => seedCampaigns[i].pledgedAmount);
      sinceDonation := seq(|seedCampaigns|, i => 0);
      sincePledge := seq(|seedCampaigns|, i => 0);
    }

    /** `getCampaigns`: the APPROVED campaigns, in stored order. */
    function GetCampaigns(): (r: seq<Campaign>)
      reads this
      ensures forall c :: c in r <==> c in campaigns && c.status == Approved
      ensures forall c {:trigger multiset(r)[c]} :: multiset(r)[c] == if c.status == Approved then multiset(campaigns)[c] else 0
      ensures IsSubseq(r, campaigns)
    {
      FilterMultiset(campaigns, IsApproved);
      Filter(campaigns, IsApproved)
    }

    /** `getAllCampaigns`: a copy of the whole list. */
    function GetAllCampaigns(): (r: seq<Campaign>)
      reads this
      ensures |r| == |campaigns| && forall i :: 0 <= i < |r| ==> r[i] == campaigns[i]
    {
      campaigns
    }

    /** `getCampaignById`: the first campaign with that id, if any. */
    function GetCampaignById(id: string): (r: Option<Campaign>)
      reads this
      ensures r.None? <==> forall c :: c in campaigns ==> c.id != id
      ensures r.Some? ==> r.value in campaigns && r.value.id == id
      ensures r.Some? ==> exists i :: 0 <= i < |campaigns| && campaigns[i] == r.value && IsFirst(campaigns, i)
    {
      match FindIndex(campaigns, id)
      case None => None
      case Some(i) => Some(campaigns[i])
    }

    /** `getUserCampaigns`: the campaigns owned by `userId`. */
    function GetUserCampaigns(userId: string): (r: seq<Campaign>)
      reads this
      ensures forall c :: c in r <==> c in campaigns && c.ownerId == userId
      ensures forall c {:trigger multiset(r)[c]} :: multiset(r)[c] == if c.ownerId == userId then multiset(campaigns)[c] else 0
      ensures IsSubseq(r, campaigns)
    {
      FilterMultiset(campaigns, (c: Campaign) => c.ownerId == userId);
      Filter(campaigns, (c: Campaign) => c.ownerId == userId)
    }

    /** `getUserPledges`: the pledges made by `userId`. */
    function GetUserPledges(userId: string): (r: seq<Pledge>)
      reads this
      ensures forall p :: p in r <==> p in pledges && p.userId == userId
      ensures forall p {:trigger multiset(r)[p]} :: multiset(r)[p] == if p.userId == userId then multiset(pledges)[p] else 0
      ensures IsSubseq(r, pledges)
    {
      FilterMultiset(pledges, (p: Pledge) => p.userId == userId);
      Filter(pledges, (p: Pledge) => p.userId == userId)
    }

    /** `getUserDonations`: the donations made by `userId`. */
    function GetUserDonations(userId: string): (r: seq<Donation>)
      reads this
      ensures forall d :: d in r <==> d in donations && d.userId == userId
      ensures forall d {:trigger multiset(r)[d]} :: multiset(r)[d] == if d.userId == userId then multiset(donations)[d] else 0
      ensures IsSubseq(r, donations)
    {
      FilterMultiset(donations, (d: Donation) => d.userId == userId);
      Filter(donations, (d: Donation) => d.userId == userId)
    }

    /** `getCurrentUser`: the first seed user (absent if there is none). */
    function GetCurrentUser(): (u: Option<User>)
      reads this
      ensures u.Some? <==> |users| > 0
      ensures u.Some? ==> u.value == users[0]
    {
      if |users| > 0 then Some(users[0]) else None
    }

    /** `getAdminStats`: sums of both totals over every campaign, the user
        and campaign counts, and the number of PENDING campaigns. */
    function GetAdminStats(): (s: AdminStats)
      reads this
      ensures s.totalRaised == TotalOf(campaigns, RaisedOf)
      ensures s.totalPledged == TotalOf(campaigns, PledgedOf)
      ensures s.totalUsers == |users| && s.totalCampaigns == |campaigns|
      ensures s.pendingCampaigns == Count(campaigns, IsPendingCampaign)
      ensures 0 <= s.pendingCampaigns <= s.totalCampaigns
      ensures (forall c :: c in campaigns ==> c.status != CampaignStatus.Pending) <==> s.pendingCampaigns == 0
    {
      var pending := Filter(campaigns, IsPendingCampaign);
      FilterCount(campaigns, IsPendingCampaign);
      assert pending != [] ==> pending[0] in pending;
      AdminStats(TotalOf(campaigns, RaisedOf), TotalOf(campaigns, PledgedOf), |users|, |campaigns|, |pending|)
    }

    /** `createCampaign`: appends the new campaign, which has no pledges or
        donations to its name yet. */
    method CreateCampaign(d: CampaignDraft, now: nat) returns (c: Campaign)
      requires Valid()
      modifies this
      ensures Valid()
      ensures c == NewCampaign(d, now)
      ensures campaigns == old(campaigns) + [c]
      ensures pledges == old(pledges) && donations == old(donations)
      ensures seedRaised == old(seedRaised) + [0] && seedPledged == old(seedPledged) + [0]
      ensures sinceDonation == old(sinceDonation) + [|old(donations)|]
      ensures sincePledge == old(sincePledge) + [|old(pledges)|]
    {
      c := NewCampaign(d, now);
      AppendAccounted(campaigns, c, RaisedOf, donations, DonationCampaignId, DonationAmountOf, seedRaised, sinceDonation);
      AppendAccounted(campaigns, c, PledgedOf, pledges, PledgeCampaignId, PledgeAmountOf, seedPledged, sincePledge);
      campaigns := campaigns + [c];
      seedRaised := seedRaised + [0];
      seedPledged := seedPledged + [0];
      sinceDonation := sinceDonation + [|donations|];
      sincePledge := sincePledge + [|pledges|];
    }

    /** `createPledge`: records a PENDING pledge and adds its amount to the
        pledged total of the first campaign with that id. The amount is not
        checked and nothing is deduplicated. */
    method CreatePledge(userId: string, campaignId: string, amount: int, dueDate: int, now: nat)
      returns (p: Pledge)
      requires Valid()
      modifies this
      ensures Valid()
      ensures p == Pledge("p" + DecimalString(now), userId, campaignId, amount, dueDate, PledgeStatus.Pending, now, None)
      ensures pledges == old(pledges) + [p] && donations == old(donations)
      ensures campaigns == CreditPledged(old(campaigns), campaignId, amount)
      ensures seedRaised == old(seedRaised) && seedPledged == old(seedPledged)
      ensures sinceDonation == old(sinceDonation) && sincePledge == old(sincePledge)
    {
      p := Pledge("p" + DecimalString(now), userId, campaignId, amount, dueDate, PledgeStatus.Pending, now, None);
      PledgeAccounted(campaigns, pledges, donations, p, seedRaised, seedPledged, sinceDonation, sincePledge);
      pledges := pledges + [p];
      campaigns := CreditPledged(campaigns, campaignId, amount);
    }

    /** `createDonation`: records the donation and adds its amount to the
        raised total of the first campaign with that id. */
    method CreateDonation(userId: string, campaignId: string, amount: int, method_: PaymentMethod, now: nat)
      returns (d: Donation)
      requires Valid()
      modifies this
      ensures Valid()
      ensures d == Donation("d" + DecimalString(now), userId, campaignId, amount, method_, now, None)
      ensures donations == old(donations) + [d] && pledges == old(pledges)
      ensures campaigns == CreditRaised(old(campaigns), campaignId, amount)
      ensures seedRaised == old(seedRaised) && seedPledged == old(seedPledged)
      ensures sinceDonation == old(sinceDonation) && sincePledge == old(sincePledge)
    {
      d := Donation("d" + DecimalString(now), userId, campaignId, amount, method_, now, None);
      DonationAccounted(campaigns, pledges, donations, d, seedRaised, seedPledged, sinceDonation, sincePledge);
      donations := donations + [d];
      campaigns := CreditRaised(campaigns, campaignId, amount);
    }

    /** `updateCampaignStatus`: echoes its arguments and stores nothing. */
    method UpdateCampaignStatus(id: string, status: CampaignStatus) returns (echoedId: string, echoedStatus: CampaignStatus)
      ensures echoedId == id && echoedStatus == status
    {
      echoedId, echoedStatus := id, status;
    }
  }

  /** In a ledger whose campaigns all have distinct ids and were all seeded
      before any donation, each raised total is the seed value plus every
      donation recorded for that campaign. */
  lemma RaisedIsSeedPlusDonations(l: Ledger, i: nat)
    requires l.Valid() && i < |l.campaigns| && l.sinceDonation[i] == 0
    requires IsFirst(l.campaigns, i)
    ensures l.campaigns[i].raisedAmount
      == l.seedRaised[i] + SumTo(l.donations, DonationCampaignId, DonationAmountOf, l.campaigns[i].id)
  {
    assert l.donations[0..] == l.donations;
  }

  /** From the seed data, two donations to the first campaign: its raised
      total is then its seed value plus both amounts. */
  method TwoDonationsAddUp(a: int, b: int) returns (raised: int)
    ensures raised == MockCampaigns[0].raisedAmount + a + b
  {
    var l := new Ledger(MockCampaigns, MockUsers);
    var d1 := l.CreateDonation("u1", "c1", a, Mtn, 1);
    var d2 := l.CreateDonation("u1", "c1", b, Mtn, 2);
    assert l.donations == [d1, d2];
    RaisedIsSeedPlusDonations(l, 0);
    assert [d1, d2][1..] == [d2];
    raised := l.campaigns[0].raisedAmount;
  }
}
