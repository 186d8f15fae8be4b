/** The campaign page (pages/CampaignDetails.tsx): loading the campaign by
    its route id, the realtime update with its donation/pledge highlight, the
    pledge and donation handlers, and the figures above the progress bar. */
module CampaignDetails {
  import opened Seqs
  import opened Domain
  import opened MockApi
  import opened LiveUpdate
  import Text
  import Arith
  import CampaignCard
  import MyCampaignCard

  /** What a realtime update is announced as. */
  datatype UpdateKind = DonationUpdate | PledgeUpdate

  /** The figure that is highlighted after an update. */
  datatype Highlight = RaisedFigure | PledgedFigure

  /** The action the modal was opened for. */
  datatype Mode = Donate | PledgeMode

  /** `campaign?.raisedAmount || 0` and its pledged counterpart. */
  function OldRaised(c: Option<Campaign>): (r: int)
    ensures c.None? ==> r == 0
    ensures c.Some? ==> r == c.value.raisedAmount
  {
    if c.Some? then c.value.raisedAmount else 0
  }

  function OldPledged(c: Option<Campaign>): (r: int)
    ensures c.None? ==> r == 0
    ensures c.Some? ==> r == c.value.pledgedAmount
  {
    if c.Some? then c.value.pledgedAmount else 0
  }

  /** The kind of an update: a donation when the raised amount grew, else a
      pledge when the pledged amount grew, else none (the previous kind is
      then kept). A row that raises both is announced as a donation only. */
  function Classify(c: Option<Campaign>, r: Row): (k: Option<UpdateKind>)
    ensures k == Some(DonationUpdate) <==> r.raisedAmount > OldRaised(c)
    ensures k == Some(PledgeUpdate) <==> r.raisedAmount <= OldRaised(c) && r.pledgedAmount > OldPledged(c)
    ensures k.None? <==> r.raisedAmount <= OldRaised(c) && r.pledgedAmount <= OldPledged(c)
  {
    if r.raisedAmount > OldRaised(c) then Some(DonationUpdate)
    else if r.pledgedAmount > OldPledged(c) then Some(PledgeUpdate)
    else None
  }

  /** The figure each kind highlights. */
  function HighlightOf(k: UpdateKind): (h: Highlight)
    ensures h == RaisedFigure <==> k == DonationUpdate
  {
    match k
    case DonationUpdate => RaisedFigure
    case PledgeUpdate => PledgedFigure
  }

  /** The page's own merge: the shown campaign, if any, takes the row's
      amounts and status, without comparing ids (the channel only carries
      rows of this campaign). */
  function MergeShown(c: Option<Campaign>, r: Row): (c': Option<Campaign>)
    ensures c'.None? <==> c.None?
  {
    if c.None? then None else Some(Apply(c.value, r))
  }

  /** For a row of the shown campaign, the page's merge is the list merge of
      the other pages applied to a one-element list. */
  lemma MergeShownAgrees(c: Campaign, r: Row)
    requires c.id == r.id
    ensures Merge([c], r) == [MergeShown(Some(c), r).value]
  {
  }

  /** Re-reading a campaign after a pledge to it: the first campaign with
      that id is still found at the same place, and its pledged amount has
      grown by the pledge. */
  lemma RefetchShowsPledge(cs: seq<Campaign>, id: string, amount: int)
    requires FindIndex(cs, id).Some?
    ensures var i := FindIndex(cs, id).value;
      && FindIndex(CreditPledged(cs, id, amount), id) == Some(i)
      && CreditPledged(cs, id, amount)[i].pledgedAmount == cs[i].pledgedAmount + amount
      && CreditPledged(cs, id, amount)[i].raisedAmount == cs[i].raisedAmount
  {
    var i := FindIndex(cs, id).value;
    FindIndexIsFirst(cs, i, id);
    FindIndexIsFirst(CreditPledged(cs, id, amount), i, id);
  }

  // ---- The figures ----

  /** The page shows the owner card's percentage,
      `Math.round((total / targetAmount) * 100)`, as its bar width, uncapped.
      Where the target is not zero, that is the public card's percentage;
      with a zero target the public card divides by 1 instead. */
  lemma PercentAgreesWithCard(c: Campaign)
    requires c.targetAmount != 0
    ensures MyCampaignCard.Percent(c) == MyCampaignCard.Whole(CampaignCard.CardPercent(c))
  {
  }

  /** The bar is not capped: with a positive target it is drawn past 100%
      from 100.5% of the target on (150 of 100 draws 150%), and a zero
      target with some money draws an infinite width. */
  lemma BarNotCapped(c: Campaign)
    ensures c.targetAmount > 0 ==>
      && MyCampaignCard.Percent(c).Whole?
      && (MyCampaignCard.Percent(c).n > 100 <==> 200 * (c.raisedAmount + c.pledgedAmount) >= 201 * c.targetAmount)
    ensures c.targetAmount > 0 && c.raisedAmount + c.pledgedAmount > c.targetAmount ==>
      MyCampaignCard.Percent(c).n >= 100
    ensures c.targetAmount == 100 && c.raisedAmount + c.pledgedAmount == 150 ==>
      MyCampaignCard.Percent(c) == MyCampaignCard.Whole(150)
    ensures c.targetAmount == 0 && c.raisedAmount + c.pledgedAmount > 0 ==>
      MyCampaignCard.Percent(c) == MyCampaignCard.PlusInfinity
  {
    if c.targetAmount > 0 {
      Arith.RoundedPercent(c.raisedAmount + c.pledgedAmount, c.targetAmount);
    }
  }

  /** The countdown beside the progress figures: `daysLeft`, the number of
      days (of 1000 * 3600 * 24 ms) to the end date rounded up, labelled
      "N days left" while positive and "Ended" otherwise, as on the public
      card. */
  function PageCountdown(c: Campaign, now: int): (cd: CampaignCard.Countdown)
    ensures cd.DaysToGo? ==> cd.days > 0 && cd.days == CampaignCard.DaysLeft(c.endDate, now)
  {
    CampaignCard.CountdownLabel(CampaignCard.DaysLeft(c.endDate, now))
  }

  /** The page shows "Ended" exactly when the end date is not in the future,
      and otherwise a count `d` with the end date within the `d`-th day from
      now. */
  lemma {:induction false} PageCountdownEnded(c: Campaign, now: int)
    ensures PageCountdown(c, now).Ended? <==> c.endDate <= now
    ensures PageCountdown(c, now).DaysToGo? ==>
      var d := PageCountdown(c, now).days;
      CampaignCard.DayMs * (d - 1) < c.endDate - now <= CampaignCard.DayMs * d
  {
    CampaignCard.EndedIffPastEnd(c.endDate, now);
  }

  /** The ledger lists `cs'`, `ps'` and the shown campaign after `u` pledged
      `amount` due on `due` to `c`, starting from `cs`, `ps`: one PENDING
      pledge appended, the first campaign with that id credited, and the
      campaign read again (kept as it was if the ledger does not have it). */
  predicate PledgeRecorded(cs: seq<Campaign>, ps: seq<Pledge>, cs': seq<Campaign>, ps': seq<Pledge>,
                           shown: Option<Campaign>, c: Campaign, u: User, amount: int, due: int, now: nat)
  {
    && ps' == ps + [Pledge("p" + Text.DecimalString(now), u.id, c.id, amount, due, PledgeStatus.Pending, now, None)]
    && cs' == CreditPledged(cs, c.id, amount)
    && shown == match FindIndex(cs', c.id)
                case Some(i) => Some(cs'[i])
                case None => Some(c)
  }

  // ---- The page ----

  class DetailsPage {
    const api: Ledger
    /** The route's `:id` parameter; empty when there is none. */
    const routeId: string
    var campaign: Option<Campaign>
    var loading: bool
    var heroImage: string
    var showModal: bool
    var mode: Mode
    /** The amount field's text. */
    var amount: string
    /** The chosen due date of a pledge. */
    var pledgeDate: int
    var paymentMethod: PaymentMethod
    var processing: bool
    var pledgeRecorded: bool
    var showSimulation: bool
    var showUpdateNotification: bool
    var updateType: Option<UpdateKind>
    var highlight: Option<Highlight>
    var redirectedToLogin: bool

    constructor(api: Ledger, routeId: string)
      ensures this.api == api && this.routeId == routeId
      ensures campaign.None? && loading && heroImage == "" && !showModal && mode == Donate
      ensures amount == "" && paymentMethod == Mtn && !processing && !pledgeRecorded
      ensures !showSimulation && !showUpdateNotification && updateType.None? && highlight.None?
      ensures !redirectedToLogin
    {
      this.api := api;
      this.routeId := routeId;
      campaign := None;
      loading := true;
      heroImage := "";
      showModal := false;
      mode := Donate;
      amount := "";
      pledgeDate := 0;
      paymentMethod := Mtn;
      processing := false;
      pledgeRecorded := false;
      showSimulation := false;
      showUpdateNotification := false;
      updateType := None;
      highlight := None;
      redirectedToLogin := false;
    }

    /** The load effect: with a route id, the campaign is looked up, its
        first image becomes the hero image, and loading ends; without one
        nothing happens and the page keeps loading. */
    method Load()
      modifies this
      ensures routeId == "" ==> campaign == old(campaign) && loading == old(loading) && heroImage == old(heroImage)
      ensures routeId != "" ==> campaign == api.GetCampaignById(routeId) && !loading
      ensures routeId != "" && campaign.Some? && campaign.value.imageUrls != [] ==>
        && heroImage == campaign.value.imageUrls[0]
      ensures routeId != "" && (campaign.None? || campaign.value.imageUrls == []) ==>
        && heroImage == old(heroImage)
      ensures showModal == old(showModal) && redirectedToLogin == old(redirectedToLogin)
    {
      if routeId != "" {
        campaign := api.GetCampaignById(routeId);
        if campaign.Some? && campaign.value.imageUrls != [] {
          heroImage := campaign.value.imageUrls[0];
        }
        loading := false;
      }
    }

    /** The subscription callback. A row is classified against the campaign
        shown so far, announced, and merged into it; an empty payload changes
        nothing. */
    method OnCampaignUpdate(p: Payload)
      modifies this
      ensures p.changed.None? ==>
        && campaign == old(campaign)
        && updateType == old(updateType)
        && highlight == old(highlight)
        && showUpdateNotification == old(showUpdateNotification)
      ensures p.changed.Some? ==>
        var r := p.changed.value;
        var k := Classify(old(campaign), r);
        && campaign == MergeShown(old(campaign), r)
        && showUpdateNotification
        && updateType == (if k.Some? then k else old(updateType))
        && highlight == (if k.Some? then Some(HighlightOf(k.value)) else old(highlight))
      ensures loading == old(loading) && showModal == old(showModal) && amount == old(amount)
      ensures heroImage == old(heroImage) && mode == old(mode) && pledgeDate == old(pledgeDate)
      ensures paymentMethod == old(paymentMethod) && processing == old(processing)
      ensures pledgeRecorded == old(pledgeRecorded) && showSimulation == old(showSimulation)
      ensures redirectedToLogin == old(redirectedToLogin)
    {
      if p.changed.Some? {
        var r := p.changed.value;
        var k := Classify(campaign, r);
        if k.Some? {
          updateType := k;
          highlight := Some(HighlightOf(k.value));
        }
        showUpdateNotification := true;
        campaign := MergeShown(campaign, r);
      }
    }

    /** Opening the modal for an action clears the success message. */
    method OpenModal(m: Mode)
      modifies this
      ensures mode == m && showModal && !pledgeRecorded
      ensures campaign == old(campaign) && amount == old(amount)
    {
      mode := m;
      showModal := true;
      pledgeRecorded := false;
    }

    /** Submitting the modal's form. Without a campaign nothing happens;
        without a signed-in user the page goes to the login page; a donation
        only opens the payment simulation; a pledge is recorded for
        `Number(amount)` and the campaign is read again. */
    method HandleAction(now: nat)
      requires api.Valid()
      modifies this, api
      ensures api.Valid()
      ensures old(campaign).None? || api.GetCurrentUser().None? || mode == Donate ==>
        && api.pledges == old(api.pledges)
        && api.campaigns == old(api.campaigns)
        && campaign == old(campaign)
      ensures old(campaign).Some? && api.GetCurrentUser().None? ==> redirectedToLogin
      ensures old(campaign).Some? && api.GetCurrentUser().Some? && mode == Donate ==>
        showSimulation && !showModal
      ensures old(campaign).Some? && api.GetCurrentUser().Some? && mode == PledgeMode ==>
        && processing && pledgeRecorded
        && PledgeRecorded(old(api.campaigns), old(api.pledges), api.campaigns, api.pledges, campaign,
                          old(campaign).value, api.GetCurrentUser().value, Text.NumberOf(amount), pledgeDate, now)
      ensures api.donations == old(api.donations) && mode == old(mode) && amount == old(amount)
      ensures pledgeDate == old(pledgeDate)
    {
      if campaign.None? {
        return;
      }
      var user := api.GetCurrentUser();
      if user.None? {
        redirectedToLogin := true;
        return;
      }
      if mode == Donate {
        showModal := false;
        showSimulation := true;
        return;
      }
      SubmitPledge(user.value, campaign.value, Text.NumberOf(amount), pledgeDate, now);
    }

    /** Records the pledge of `value` due on `due` and reads the campaign
        again. */
    method SubmitPledge(u: User, c: Campaign, value: int, due: int, now: nat)
      requires api.Valid() && campaign == Some(c)
      modifies this, api
      ensures api.Valid()
      ensures processing && pledgeRecorded
      ensures PledgeRecorded(old(api.campaigns), old(api.pledges), api.campaigns, api.pledges, campaign,
                             c, u, value, due, now)
      ensures api.donations == old(api.donations) && mode == old(mode) && amount == old(amount)
      ensures pledgeDate == old(pledgeDate)
    {
      processing := true;
      var _ := api.CreatePledge(u.id, c.id, value, due, now);
      pledgeRecorded := true;
      var updated := api.GetCampaignById(c.id);
      if updated.Some? {
        campaign := updated;
      }
    }

    /** The payment simulation's success callback: the donation is recorded
        for the signed-in user; the shown campaign is left for the realtime
        update to refresh. */
    method HandlePaymentSuccess(now: nat)
      requires api.Valid()
      modifies this, api
      ensures api.Valid()
      ensures campaign == old(campaign) && api.pledges == old(api.pledges)
      ensures old(campaign).None? || api.GetCurrentUser().None? ==>
        && api.donations == old(api.donations)
        && api.campaigns == old(api.campaigns)
      ensures old(campaign).Some? && api.GetCurrentUser().None? ==> redirectedToLogin
      ensures old(campaign).Some? && api.GetCurrentUser().Some? ==>
        var cid := old(campaign).value.id;
        && api.donations == old(api.donations) + [Donation("d" + Text.DecimalString(now),
             api.GetCurrentUser().value.id, cid, Text.NumberOf(amount), paymentMethod, now, None)]
        && api.campaigns == CreditRaised(old(api.campaigns), cid, Text.NumberOf(amount))
      ensures amount == old(amount) && paymentMethod == old(paymentMethod)
    {
      if campaign.None? {
        return;
      }
      var user := api.GetCurrentUser();
      if user.None? {
        redirectedToLogin := true;
        return;
      }
      var _ := api.CreateDonation(user.value.id, campaign.value.id, Text.NumberOf(amount), paymentMethod, now);
    }
  }

  /** After a pledge from the page, the campaign it shows carries the
      pledge: its pledged amount has grown by the amount pledged. */
  lemma PledgeVisibleAfterRefetch(cs: seq<Campaign>, c: Campaign, amount: int)
    requires FindIndex(cs, c.id).Some?
    ensures var after := CreditPledged(cs, c.id, amount);
      var shown := if FindIndex(after, c.id).Some? then after[FindIndex(after, c.id).value] else c;
      shown.pledgedAmount == cs[FindIndex(cs, c.id).value].pledgedAmount + amount
  {
    RefetchShowsPledge(cs, c.id, amount);
  }
}
