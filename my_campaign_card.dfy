/** The organizer's own campaign card (components/MyCampaignCard.tsx) and the
    percentage it shares with the details page and the admin table:
    `Math.round((total / target) * 100)` with no fallback for a zero target,
    so that the value can be one of JavaScript's non-finite numbers. */
module MyCampaignCard {
  import opened Arith
  import opened Domain
  import CampaignCard

  /** A number as `Math.round` leaves it: a whole number, or one of the three
      non-finite values a division by a zero target produces. */
  datatype Percentage = Whole(n: int) | PlusInfinity | MinusInfinity | NotANumber

  /** `Math.round((total / target) * 100)`. */
  function PercentOf(total: int, target: int): (p: Percentage)
    ensures p.Whole? <==> target != 0
    ensures target > 0 ==> 2 * (target * p.n) - target <= 200 * total < 2 * (target * p.n) + target
    ensures target < 0 ==> 2 * (target * p.n) - target >= 200 * total > 2 * (target * p.n) + target
    ensures target == 0 ==> (p.PlusInfinity? <==> total > 0)
    ensures target == 0 ==> (p.MinusInfinity? <==> total < 0)
    ensures target == 0 ==> (p.NotANumber? <==> total == 0)
  {
    if target != 0 then Whole(RoundDiv(100 * total, target))
    else if total > 0 then PlusInfinity
    else if total < 0 then MinusInfinity
    else NotANumber
  }

  /** `raisedAmount + pledgedAmount`, the amount the card reports as raised. */
  function Total(c: Campaign): int
  {
    c.raisedAmount + c.pledgedAmount
  }

  function Percent(c: Campaign): Percentage
  {
    PercentOf(Total(c), c.targetAmount)
  }

  /** `Math.min(percent, 100)`: the width of the card's bar. */
  function BarWidth(p: Percentage): (w: Percentage)
    ensures w.Whole? ==> w.n <= 100
    ensures p.Whole? ==> w.Whole? && (w.n == p.n || w.n == 100)
    ensures p.PlusInfinity? ==> w == Whole(100)
    ensures p.MinusInfinity? || p.NotANumber? ==> w == p
  {
    match p
    case Whole(n) => Whole(if n <= 100 then n else 100)
    case PlusInfinity => Whole(100)
    case _ => p
  }

  /** The bar fills completely exactly when the campaign has raised and
      pledged at least 99.5% of a positive target. */
  lemma BarFullIffFunded(c: Campaign)
    requires c.targetAmount > 0
    ensures BarWidth(Percent(c)) == Whole(100) <==> 200 * Total(c) >= 199 * c.targetAmount
  {
    RoundedPercent(Total(c), c.targetAmount);
  }

  /** The text of the status badge, one per status. */
  function StatusBadge(s: CampaignStatus): (text: string)
    ensures s == CampaignStatus.Pending <==> text == "Awaiting Approval"
    ensures s == Approved <==> text == "Live & Active"
    ensures s == Suspended <==> text == "Suspended"
    ensures s == Completed <==> text == "Completed"
  {
    match s
    case Pending => "Awaiting Approval"
    case Approved => "Live & Active"
    case Suspended => "Suspended"
    case Completed => "Completed"
  }

  /** What one rendered card shows. */
  datatype CardView = CardView(
    percent: Percentage,
    countdown: CampaignCard.Countdown,
    barWidth: Percentage,
    badge: string,
    reviewNotice: bool,
    editLink: bool)

  /** The card for `c` at time `now`; `isPending` is the flag the dashboard
      passes (false by default), which alone decides the review notice and
      the Edit link. */
  function Render(c: Campaign, isPending: bool, now: int): (v: CardView)
    ensures v.percent == Percent(c) && v.barWidth == BarWidth(v.percent)
    ensures v.barWidth.Whole? ==> v.barWidth.n <= 100
    ensures v.countdown == CampaignCard.CountdownLabel(CampaignCard.DaysLeft(c.endDate, now))
    ensures v.countdown.Ended? <==> c.endDate <= now
    ensures v.editLink <==> isPending
    ensures v.reviewNotice <==> isPending
    ensures v.badge == StatusBadge(c.status)
  {
    CampaignCard.EndedIffPastEnd(c.endDate, now);
    var p := Percent(c);
    CardView(
      p,
      CampaignCard.CountdownLabel(CampaignCard.DaysLeft(c.endDate, now)),
      BarWidth(p),
      StatusBadge(c.status),
      isPending,
      isPending)
  }

  /** For a positive target the label shows the uncapped percentage while
      the bar stops at 100: past 100.5% of the target the label reads more
      than 100 and the bar is full. */
  lemma RenderLabelPassesFullBar(c: Campaign, isPending: bool, now: int)
    requires c.targetAmount > 0
    ensures var v := Render(c, isPending, now);
      && v.percent.Whole? && v.barWidth.Whole?
      && (v.percent.n > 100 <==> 200 * Total(c) >= 201 * c.targetAmount)
      && (v.barWidth.n == 100 <==> 200 * Total(c) >= 199 * c.targetAmount)
      && (v.percent.n <= 100 ==> v.barWidth == v.percent)
  {
    RoundedPercent(Total(c), c.targetAmount);
  }
}
