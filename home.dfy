/** The landing page (pages/Home.tsx): the approved campaigns it loads and
    keeps current through one realtime channel, the three it features, and
    the progress rings of the decorative bubbles around the hero. */
module Home {
  import opened Seqs
  import opened Domain
  import opened MockApi
  import opened LiveUpdate

  /** `campaigns.slice(0, 3)`: the first three campaigns, or all of them
      when there are fewer. */
  function Featured(cs: seq<Campaign>): (r: seq<Campaign>)
    ensures |r| == if |cs| < 3 then |cs| else 3
    ensures forall i :: 0 <= i < |r| ==> r[i] == cs[i]
  {
    if |cs| < 3 then cs else cs[..3]
  }

  /** A realtime update never changes which campaigns are featured, only
      their figures. */
  lemma FeaturedAfterUpdate(cs: seq<Campaign>, r: Row)
    ensures Ids(Featured(Merge(cs, r))) == Ids(Featured(cs))
  {
    MergeKeepsIds(cs, r);
    var a := Featured(Merge(cs, r));
    var b := Featured(cs);
    forall i | 0 <= i < |b|
      ensures a[i].id == b[i].id
    {
      MergeAt(cs, r, i);
    }
  }

  /** The length of the ring's dash (the SVG's `strokeDasharray`). */
  const RingLength: real := 289.0

  /** A progress value of the bubble's optional property: the ring's arc is
      drawn only for a truthy value, so not for 0 or a missing one. */
  predicate ArcShown(progress: Option<int>)
  {
    progress.Some? && progress.value != 0
  }

  /** `289 - (289 * progress) / 100`: the part of the ring left undrawn. */
  function RingOffset(progress: int): (o: real)
    ensures 0 <= progress <= 100 ==> 0.0 <= o <= RingLength
    ensures progress == 0 ==> o == RingLength
    ensures progress == 100 ==> o == 0.0
  {
    RingLength - (RingLength * progress as real) / 100.0
  }

  /** More progress leaves less of the ring undrawn. */
  lemma RingOffsetDecreasing(p: int, q: int)
    requires p < q
    ensures RingOffset(q) < RingOffset(p)
  {
  }

  datatype Bubble = Bubble(category: string, progress: Option<int>)

  /** The six bubbles of the hero and their fixed progress values. */
  const Bubbles: seq<Bubble> := [
    Bubble("Medical Care", Some(65)),
    Bubble("Education", Some(80)),
    Bubble("Clean Water", Some(45)),
    Bubble("Local Market", Some(90)),
    Bubble("Tech Hub", Some(30)),
    Bubble("Wildlife", Some(55))
  ]

  /** Any progress strictly between 0 and 100 draws an arc that is a proper
      part of the ring. */
  lemma ArcIsProperPart(progress: Option<int>)
    requires progress.Some? && 0 < progress.value < 100
    ensures ArcShown(progress)
    ensures 0.0 < RingOffset(progress.value) < RingLength
  {
    RingOffsetDecreasing(0, progress.value);
    RingOffsetDecreasing(progress.value, 100);
  }

  /** Every bubble draws an arc, and every arc is a proper part of the ring. */
  lemma BubblesDrawArcs()
    ensures forall b :: b in Bubbles ==> ArcShown(b.progress)
    ensures forall b :: b in Bubbles ==> 0.0 < RingOffset(b.progress.value) < RingLength
  {
    forall b | b in Bubbles
      ensures ArcShown(b.progress) && 0.0 < RingOffset(b.progress.value) < RingLength
    {
      ArcIsProperPart(b.progress);
    }
  }

  class HomePage {
    const api: Ledger
    var campaigns: seq<Campaign>
    var loading: bool
    /** Whether the page's realtime channel is open. */
    var subscribed: bool

    constructor(api: Ledger)
      ensures this.api == api && campaigns == [] && loading && !subscribed
    {
      this.api := api;
      campaigns := [];
      loading := true;
      subscribed := false;
    }

    /** The mount effect: the approved campaigns are loaded and one channel
        for all campaign updates is opened. */
    method Mount()
      modifies this
      ensures campaigns == api.GetCampaigns() && !loading && subscribed
      ensures forall c :: c in campaigns ==> c.status == Approved
    {
      campaigns := api.GetCampaigns();
      loading := false;
      subscribed := true;
    }

    /** The channel's callback: any row with content is merged. */
    method OnCampaignUpdate(p: Payload)
      modifies this
      ensures p.changed.None? ==> campaigns == old(campaigns)
      ensures p.changed.Some? ==> campaigns == Merge(old(campaigns), p.changed.value)
      ensures loading == old(loading) && subscribed == old(subscribed)
    {
      if p.changed.Some? {
        campaigns := Merge(campaigns, p.changed.value);
      }
    }

    /** The effect's cleanup closes the channel. */
    method Unmount()
      modifies this
      ensures !subscribed && campaigns == old(campaigns)
    {
      subscribed := false;
    }
  }
}
