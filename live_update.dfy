/** The realtime update every page with a campaign list applies when the
    backend announces a changed campaign row (the dashboard, the home page and
    the admin dashboard): the list is mapped, and the campaign whose id
    matches the row takes the row's raised amount, pledged amount and status,
    keeping everything else. */
module LiveUpdate {
  import opened Seqs
  import opened Domain

  /** The changed row as the backend sends it (`payload.new`), with its
      amounts already converted by `Number(...)`. */
  datatype Row = Row(
    id: string,
    raisedAmount: int,
    pledgedAmount: int,
    status: CampaignStatus,
    title: string)

  /** A realtime payload; `changed` is `payload.new`, which may be absent. */
  datatype Payload = Payload(changed: Option<Row>)

  /** `{...c, raisedAmount, pledgedAmount, status}` taken from the row. */
  function Apply(c: Campaign, r: Row): (c': Campaign)
    ensures c'.raisedAmount == r.raisedAmount && c'.pledgedAmount == r.pledgedAmount
    ensures c'.status == r.status
    ensures c'.(raisedAmount := c.raisedAmount, pledgedAmount := c.pledgedAmount, status := c.status) == c
  {
    c.(raisedAmount := r.raisedAmount, pledgedAmount := r.pledgedAmount, status := r.status)
  }

  /** `cs.map(c => c.id === r.id ? Apply(c, r) : c)`. */
  function Merge(cs: seq<Campaign>, r: Row): (out: seq<Campaign>)
    ensures |out| == |cs|
  {
    if cs == [] then []
    else [if cs[0].id == r.id then Apply(cs[0], r) else cs[0]] + Merge(cs[1..], r)
  }

  /** Every position is the old campaign, updated from the row exactly when
      its id matches: the list keeps its length and its order, and only
      campaigns with the row's id change. */
  lemma {:induction false} MergeAt(cs: seq<Campaign>, r: Row, i: nat)
    requires i < |cs|
    ensures cs[i].id == r.id ==> Merge(cs, r)[i] == Apply(cs[i], r)
    ensures cs[i].id != r.id ==> Merge(cs, r)[i] == cs[i]
    ensures Merge(cs, r)[i].id == cs[i].id
    ensures Merge(cs, r)[i].title == cs[i].title
    ensures Merge(cs, r)[i].targetAmount == cs[i].targetAmount
  {
    if i > 0 {
      MergeAt(cs[1..], r, i - 1);
    }
  }

  /** A row whose id is in no campaign of the list leaves the list as it is. */
  lemma {:induction false} MergeUnknownId(cs: seq<Campaign>, r: Row)
    requires forall c :: c in cs ==> c.id != r.id
    ensures Merge(cs, r) == cs
  {
    if cs != [] {
      assert forall c :: c in cs[1..] ==> c in cs;
      MergeUnknownId(cs[1..], r);
    }
  }

  /** Receiving the same row twice has the effect of receiving it once. */
  lemma {:induction false} MergeIdempotent(cs: seq<Campaign>, r: Row)
    ensures Merge(Merge(cs, r), r) == Merge(cs, r)
  {
    if cs != [] {
      MergeIdempotent(cs[1..], r);
      var m := Merge(cs, r);
      assert m[1..] == Merge(cs[1..], r);
    }
  }

  /** Rows about two different campaigns may arrive in either order. */
  lemma {:induction false} MergeCommutes(cs: seq<Campaign>, r1: Row, r2: Row)
    requires r1.id != r2.id
    ensures Merge(Merge(cs, r1), r2) == Merge(Merge(cs, r2), r1)
  {
    if cs != [] {
      MergeCommutes(cs[1..], r1, r2);
      assert Merge(cs, r1)[1..] == Merge(cs[1..], r1);
      assert Merge(cs, r2)[1..] == Merge(cs[1..], r2);
    }
  }

  /** The ids of a list, in order (the channels a page opens, one per campaign). */
  function Ids(cs: seq<Campaign>): (ids: seq<string>)
    ensures |ids| == |cs|
    ensures forall i :: 0 <= i < |cs| ==> ids[i] == cs[i].id
  {
    if cs == [] then [] else [cs[0].id] + Ids(cs[1..])
  }

  /** A merge never changes which campaigns the page is subscribed to. */
  lemma MergeKeepsIds(cs: seq<Campaign>, r: Row)
    ensures Ids(Merge(cs, r)) == Ids(cs)
  {
    forall i | 0 <= i < |cs|
      ensures Ids(Merge(cs, r))[i] == Ids(cs)[i]
    {
      MergeAt(cs, r, i);
    }
  }
}
