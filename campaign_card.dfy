/** The public campaign card (components/CampaignCard.tsx): the days-left
    countdown, the funded percentage with its fallbacks, and the plain-text
    preview made by deleting every match of the pattern `<[^>]+>`. */
module CampaignCard {
  import opened Seqs
  import opened Arith
  import opened Domain

  /** Milliseconds in a day (`1000 * 3600 * 24`). */
  const DayMs: int := 86_400_000

  /** `Math.ceil((endDate - now) / DayMs)`: the whole days left, counting a
      started day as a whole one. */
  function DaysLeft(endDate: int, now: int): (d: int)
    ensures DayMs * (d - 1) < endDate - now <= DayMs * d
  {
    CeilDiv(endDate - now, DayMs)
  }

  datatype Countdown = DaysToGo(days: int) | Ended

  /** The countdown label: "N days left" while `daysLeft > 0`, otherwise "Ended". */
  function CountdownLabel(daysLeft: int): (c: Countdown)
    ensures c.Ended? <==> daysLeft <= 0
    ensures c.DaysToGo? ==> c.days == daysLeft
  {
    if daysLeft > 0 then DaysToGo(daysLeft) else Ended
  }

  /** A campaign reads "Ended" exactly when its end date is not in the future. */
  lemma EndedIffPastEnd(endDate: int, now: int)
    ensures CountdownLabel(DaysLeft(endDate, now)).Ended? <==> endDate <= now
  {
    var d := DaysLeft(endDate, now);
    if d >= 1 {
      assert DayMs * (d - 1) >= 0;
    }
  }

  /** The denominator the card divides by: `targetAmount || 1`. */
  function EffectiveTarget(c: Campaign): (t: int)
    ensures t != 0
    ensures c.targetAmount != 0 ==> t == c.targetAmount
  {
    if c.targetAmount == 0 then 1 else c.targetAmount
  }

  /** `Math.round((raised + pledged) / (target || 1) * 100)`: the nearest
      whole percentage of the target that is raised or pledged. It is defined
      for every campaign (a zero target is read as 1) and is not capped at 100. */
  function CardPercent(c: Campaign): (p: int)
    ensures var t := EffectiveTarget(c);
      t > 0 ==> 2 * (t * p) - t <= 200 * (c.raisedAmount + c.pledgedAmount) < 2 * (t * p) + t
  {
    RoundDiv(100 * (c.raisedAmount + c.pledgedAmount), EffectiveTarget(c))
  }

  /** The card percentage is not capped: for a positive target it reaches
      100 from 99.5% of the target on and goes past 100 from 100.5% on, so
      150 raised of 100 shows 150. */
  lemma CardPercentNotCapped(c: Campaign)
    requires c.targetAmount > 0
    ensures CardPercent(c) >= 100 <==> 200 * (c.raisedAmount + c.pledgedAmount) >= 199 * c.targetAmount
    ensures CardPercent(c) > 100 <==> 200 * (c.raisedAmount + c.pledgedAmount) >= 201 * c.targetAmount
    ensures c.raisedAmount + c.pledgedAmount > c.targetAmount ==> CardPercent(c) >= 100
    ensures c.targetAmount == 100 && c.raisedAmount + c.pledgedAmount == 150 ==> CardPercent(c) == 150
  {
    RoundedPercent(c.raisedAmount + c.pledgedAmount, c.targetAmount);
  }

  // ---- The description preview: `description.replace(/<[^>]+>/g, '')` ----

  /** The position of the first '>' at or after `i`, if there is one. */
  function FirstClose(s: string, i: nat): (r: Option<nat>)
    requires i <= |s|
    ensures r.Some? ==> i <= r.value < |s| && s[r.value] == '>'
    ensures r.Some? ==> forall k :: i <= k < r.value ==> s[k] != '>'
    ensures r.None? ==> forall k :: i <= k < |s| ==> s[k] != '>'
    decreases |s| - i
  {
    if i == |s| then None
    else if s[i] == '>' then Some(i)
    else FirstClose(s, i + 1)
  }

  /** The length of the match of `<[^>]+>` that starts at the first character
      of `s`, or 0 when none starts there: a '<', at least one character other
      than '>', then the first '>'. */
  function TagAt(s: string): (k: nat)
    ensures k <= |s|
    ensures k > 0 ==> k >= 3 && s[0] == '<' && s[k - 1] == '>'
    ensures k > 0 ==> forall i :: 1 <= i < k - 1 ==> s[i] != '>'
  {
    if |s| > 0 && s[0] == '<' then
      match FirstClose(s, 1)
      case Some(j) => if j >= 2 then j + 1 else 0
      case None => 0
    else 0
  }

  /** The scan of a global replace: at each position either a match is
      deleted and the scan resumes after it, or one character is kept. */
  function StripTags(s: string): string
    decreases |s|
  {
    if s == [] then []
    else
      var k := TagAt(s);
      if k > 0 then StripTags(s[k..]) else [s[0]] + StripTags(s[1..])
  }

  /** The card's preview of a description. */
  function DescriptionPreview(description: string): string
  {
    StripTags(description)
  }

  /** `s` holds no match of the pattern at any position. */
  predicate NoTags(s: string)
  {
    s == [] || (TagAt(s) == 0 && NoTags(s[1..]))
  }

  /** The preview keeps characters of the description in their order and
      adds none; in particular it is never longer. */
  lemma {:induction false} StripTagsSubsequence(s: string)
    ensures IsSubseq(StripTags(s), s)
    ensures |StripTags(s)| <= |s|
    decreases |s|
  {
    if s != [] {
      var k := TagAt(s);
      if k > 0 {
        StripTagsSubsequence(s[k..]);
        SubseqOfSuffix(StripTags(s[k..]), s, k);
      } else {
        StripTagsSubsequence(s[1..]);
      }
      SubseqShorter(StripTags(s), s);
    }
  }

  lemma {:induction false} SubseqOfSuffix(a: string, s: string, k: nat)
    requires k <= |s| && IsSubseq(a, s[k..])
    ensures IsSubseq(a, s)
    decreases k
  {
    if k > 0 {
      assert s[1..][k - 1..] == s[k..];
      SubseqOfSuffix(a, s[1..], k - 1);
      SubseqTail(a, s);
    }
  }

  /** Text without any '<' holds no match. */
  lemma {:induction false} NoOpenNoTags(s: string)
    requires forall i :: 0 <= i < |s| ==> s[i] != '<'
    ensures NoTags(s)
    decreases |s|
  {
    if s != [] {
      NoOpenNoTags(s[1..]);
    }
  }

  /** Text that holds no match is returned unchanged. */
  lemma {:induction false} StripTagsNoTags(s: string)
    requires NoTags(s)
    ensures StripTags(s) == s
    decreases |s|
  {
    if s != [] {
      StripTagsNoTags(s[1..]);
    }
  }

  /** A description without any '<' is its own preview. */
  lemma NoOpenUnchanged(s: string)
    requires forall i :: 0 <= i < |s| ==> s[i] != '<'
    ensures DescriptionPreview(s) == s
  {
    NoOpenNoTags(s);
    StripTagsNoTags(s);
  }

  /** The preview holds no further match: deleting a tag never joins the
      text around it into a new one. */
  lemma {:induction false} StripTagsLeavesNoTags(s: string)
    ensures NoTags(StripTags(s))
    decreases |s|
  {
    if s != [] {
      var k := TagAt(s);
      if k > 0 {
        StripTagsLeavesNoTags(s[k..]);
      } else {
        var rest := StripTags(s[1..]);
        StripTagsLeavesNoTags(s[1..]);
        var r := [s[0]] + rest;
        assert r[1..] == rest;
        if s[0] == '<' {
          match FirstClose(s, 1)
          case None =>
            StripTagsSubsequence(s[1..]);
            SubseqMembers(rest, s[1..]);
            forall i | 1 <= i < |r|
              ensures r[i] != '>'
            {
              assert r[i] == rest[i - 1];
              assert rest[i - 1] in s[1..];
            }
            assert FirstClose(r, 1).None?;
          case Some(j) =>
            assert j == 1;
            assert s[1..][0] == '>';
            assert TagAt(s[1..]) == 0;
            assert r[1] == '>';
            assert FirstClose(r, 1) == Some(1);
        }
        assert TagAt(r) == 0;
      }
    }
  }

  /** Making the preview of a preview changes nothing. */
  lemma StripTagsIdempotent(s: string)
    ensures StripTags(StripTags(s)) == StripTags(s)
  {
    StripTagsLeavesNoTags(s);
    StripTagsNoTags(StripTags(s));
  }
}
