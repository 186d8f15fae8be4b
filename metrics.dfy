/** The supporter metrics the dashboard shows (lib/dashboardHelpers.ts): the
    account age in weeks, the per-category totals and top category, the level
    on a seven-rung ladder with the progress to the next rung, and the
    month-over-month growth of a user's giving. */
module Metrics {
  import opened Seqs
  import opened Arith
  import opened Domain

  // ---- Account age ----

  /** Milliseconds in a week (`1000 * 60 * 60 * 24 * 7`). */
  const WeekMs: int := 604_800_000

  /** `Math.max(1, Math.floor((now - createdAt) / WeekMs))`. */
  function AccountAgeWeeks(now: int, createdAt: int): (w: int)
    ensures w >= 1
    ensures now - createdAt >= WeekMs ==> WeekMs * w <= now - createdAt < WeekMs * (w + 1)
    ensures now - createdAt < 2 * WeekMs ==> w == 1
  {
    var weeks := FloorDiv(now - createdAt, WeekMs);
    if weeks >= 1 then weeks else 1
  }

  // ---- Per-category totals ----

  /** One amount credited to a category. */
  datatype Entry = Entry(category: string, amount: int)

  /** `if (category)`: a category counts only when present and not empty. */
  predicate Named(c: Option<string>)
  {
    c.Some? && c.value != ""
  }

  /** The donations the category map counts, in order, as entries. */
  function DonationEntries(ds: seq<Donation>): (es: seq<Entry>)
    ensures |es| <= |ds|
  {
    if ds == [] then []
    else
      var d := ds[|ds| - 1];
      DonationEntries(ds[..|ds| - 1]) + (if Named(d.category) then [Entry(d.category.value, d.amount)] else [])
  }

  /** The pledges the category map counts: FULFILLED ones with a category. */
  function PledgeEntries(ps: seq<Pledge>): (es: seq<Entry>)
    ensures |es| <= |ps|
  {
    if ps == [] then []
    else
      var p := ps[|ps| - 1];
      PledgeEntries(ps[..|ps| - 1])
        + (if p.status == PledgeStatus.Fulfilled && Named(p.category) then [Entry(p.category.value, p.amount)] else [])
  }

  /** Everything the category map is built from, donations first. */
  function Contributions(ds: seq<Donation>, ps: seq<Pledge>): seq<Entry>
  {
    DonationEntries(ds) + PledgeEntries(ps)
  }

  function Amount(e: Entry): int
  {
    e.amount
  }

  function AmountKey(e: Entry): real
  {
    e.amount as real
  }

  /** The keys of a map held as its entries in insertion order. */
  function Keys(m: seq<Entry>): (ks: seq<string>)
    ensures |ks| == |m|
  {
    if m == [] then [] else [m[0].category] + Keys(m[1..])
  }

  predicate Distinct(ks: seq<string>)
  {
    forall i, j :: 0 <= i < j < |ks| ==> ks[i] != ks[j]
  }

  /** `map.get(k) || 0`. */
  function Get(m: seq<Entry>, k: string): (v: int)
    ensures k !in Keys(m) ==> v == 0
  {
    if m == [] then 0 else if m[0].category == k then m[0].amount else Get(m[1..], k)
  }

  /** `map.set(k, v)`: an existing key keeps its place and takes the new
      value; a new key is added at the end. */
  function Set(m: seq<Entry>, k: string, v: int): (r: seq<Entry>)
    ensures k in Keys(m) ==> Keys(r) == Keys(m)
    ensures k !in Keys(m) ==> Keys(r) == Keys(m) + [k]
    ensures forall k' :: Get(r, k') == if k' == k then v else Get(m, k')
    ensures Sum(r, Amount) == Sum(m, Amount) - Get(m, k) + v
  {
    if m == [] then [Entry(k, v)]
    else if m[0].category == k then
      assert ([Entry(k, v)] + m[1..])[1..] == m[1..];
      [Entry(k, v)] + m[1..]
    else
      var rest := Set(m[1..], k, v);
      assert ([m[0]] + rest)[1..] == rest;
      assert ([m[0].category] + Keys(m[1..])) + [k] == [m[0].category] + (Keys(m[1..]) + [k]);
      [m[0]] + rest
  }

  /** `map.set(c, (map.get(c) || 0) + amount)` for one counted entry. */
  function Add(m: seq<Entry>, e: Entry): seq<Entry>
  {
    Set(m, e.category, Get(m, e.category) + e.amount)
  }

  lemma AddKeepsDistinct(m: seq<Entry>, e: Entry)
    requires Distinct(Keys(m))
    ensures Distinct(Keys(Add(m, e)))
  {
    var ks := Keys(m);
    if e.category !in ks {
      var ks' := ks + [e.category];
      forall i, j | 0 <= i < j < |ks'|
        ensures ks'[i] != ks'[j]
      {
        if j == |ks| {
          assert ks'[i] == ks[i];
        }
      }
    }
  }

  /** The category map built from `cs`, one `Add` per entry in order. */
  function Breakdown(cs: seq<Entry>): (m: seq<Entry>)
    ensures Distinct(Keys(m))
  {
    if cs == [] then []
    else
      var m0 := Breakdown(cs[..|cs| - 1]);
      AddKeepsDistinct(m0, cs[|cs| - 1]);
      Add(m0, cs[|cs| - 1])
  }

  /** The amounts of `cs` credited to `k`. */
  function SumFor(cs: seq<Entry>, k: string): int
  {
    Sum(cs, (e: Entry) => if e.category == k then e.amount else 0)
  }

  function Categories(cs: seq<Entry>): set<string>
  {
    set e | e in cs :: e.category
  }

  lemma SplitLast(cs: seq<Entry>)
    requires cs != []
    ensures cs == cs[..|cs| - 1] + [cs[|cs| - 1]]
    ensures Categories(cs) == Categories(cs[..|cs| - 1]) + {cs[|cs| - 1].category}
  {
    assert cs == cs[..|cs| - 1] + [cs[|cs| - 1]];
    var p := cs[..|cs| - 1];
    forall c | c in Categories(cs)
      ensures c in Categories(p) + {cs[|cs| - 1].category}
    {
      var e :| e in cs && e.category == c;
      var i :| 0 <= i < |cs| && cs[i] == e;
      if i < |cs| - 1 {
        assert p[i] == e;
      }
    }
    forall c | c in Categories(p)
      ensures c in Categories(cs)
    {
      var e :| e in p && e.category == c;
      assert e in cs;
    }
  }

  /** Each category's total is the sum of its counted amounts. */
  lemma {:induction false} BreakdownGet(cs: seq<Entry>, k: string)
    ensures Get(Breakdown(cs), k) == SumFor(cs, k)
  {
    if cs != [] {
      var p := cs[..|cs| - 1];
      var e := cs[|cs| - 1];
      SplitLast(cs);
      BreakdownGet(p, k);
      SumAppend(p, [e], (x: Entry) => if x.category == k then x.amount else 0);
    }
  }

  /** A category is a key exactly when some counted entry names it. */
  lemma {:induction false} BreakdownKeys(cs: seq<Entry>, k: string)
    ensures k in Keys(Breakdown(cs)) <==> k in Categories(cs)
  {
    if cs != [] {
      SplitLast(cs);
      BreakdownKeys(cs[..|cs| - 1], k);
      BreakdownKeys(cs[..|cs| - 1], cs[|cs| - 1].category);
    }
  }

  /** The map has one entry per distinct category. */
  lemma {:induction false} BreakdownSize(cs: seq<Entry>)
    ensures |Breakdown(cs)| == |Categories(cs)|
  {
    if cs != [] {
      var p := cs[..|cs| - 1];
      var c := cs[|cs| - 1].category;
      SplitLast(cs);
      BreakdownSize(p);
      BreakdownKeys(p, c);
      if c in Categories(p) {
        assert Categories(cs) == Categories(p);
      } else {
        assert |Categories(p) + {c}| == |Categories(p)| + 1;
      }
    }
  }

  /** The map's values add up to the sum of the counted amounts. */
  lemma {:induction false} BreakdownTotal(cs: seq<Entry>)
    ensures Sum(Breakdown(cs), Amount) == Sum(cs, Amount)
  {
    if cs != [] {
      var p := cs[..|cs| - 1];
      SplitLast(cs);
      BreakdownTotal(p);
      SumAppend(p, [cs[|cs| - 1]], Amount);
    }
  }

  /** A pledge that is not FULFILLED contributes nothing, whatever its category. */
  lemma UnfulfilledPledgeIgnored(ds: seq<Donation>, ps: seq<Pledge>, p: Pledge)
    requires p.status != PledgeStatus.Fulfilled
    ensures Contributions(ds, ps + [p]) == Contributions(ds, ps)
  {
    assert (ps + [p])[..|ps|] == ps;
  }

  /** A donation without a category contributes nothing. */
  lemma UnnamedDonationIgnored(ds: seq<Donation>, ps: seq<Pledge>, d: Donation)
    requires !Named(d.category)
    ensures Contributions(ds + [d], ps) == Contributions(ds, ps)
  {
    assert (ds + [d])[..|ds|] == ds;
  }

  lemma BreakdownSnoc(cs: seq<Entry>, e: Entry)
    ensures Breakdown(cs + [e]) == Add(Breakdown(cs), e)
  {
    assert (cs + [e])[..|cs|] == cs;
  }

  /** One step of the donation loop: the map after `ds[i]`. */
  lemma DonationStep(ds: seq<Donation>, i: nat)
    requires i < |ds|
    ensures var before := Breakdown(DonationEntries(ds[..i]));
      Breakdown(DonationEntries(ds[..i + 1]))
      == if Named(ds[i].category) then Add(before, Entry(ds[i].category.value, ds[i].amount)) else before
  {
    assert ds[..i + 1][..i] == ds[..i];
    var es := DonationEntries(ds[..i]);
    if Named(ds[i].category) {
      BreakdownSnoc(es, Entry(ds[i].category.value, ds[i].amount));
    } else {
      assert es + [] == es;
    }
  }

  /** One step of the pledge loop: the map after `ps[j]`. */
  lemma PledgeStep(ds: seq<Donation>, ps: seq<Pledge>, j: nat)
    requires j < |ps|
    ensures var before := Breakdown(DonationEntries(ds) + PledgeEntries(ps[..j]));
      Breakdown(DonationEntries(ds) + PledgeEntries(ps[..j + 1]))
      == if ps[j].status == PledgeStatus.Fulfilled && Named(ps[j].category)
         then Add(before, Entry(ps[j].category.value, ps[j].amount)) else before
  {
    assert ps[..j + 1][..j] == ps[..j];
    var es := DonationEntries(ds) + PledgeEntries(ps[..j]);
    if ps[j].status == PledgeStatus.Fulfilled && Named(ps[j].category) {
      var e := Entry(ps[j].category.value, ps[j].amount);
      assert DonationEntries(ds) + PledgeEntries(ps[..j + 1]) == es + [e];
      BreakdownSnoc(es, e);
    } else {
      assert PledgeEntries(ps[..j + 1]) == PledgeEntries(ps[..j]) + [];
      assert PledgeEntries(ps[..j]) + [] == PledgeEntries(ps[..j]);
    }
  }

  /** `getCategoryBreakdown`: a `forEach` over the donations, then one over
      the pledges, each calling `map.set` for the entries it counts. */
  method GetCategoryBreakdown(ds: seq<Donation>, ps: seq<Pledge>) returns (m: seq<Entry>)
    ensures m == Breakdown(Contributions(ds, ps))
  {
    m := [];
    var i := 0;
    assert ds[..i] == [];
    while i < |ds|
      invariant 0 <= i <= |ds|
      invariant m == Breakdown(DonationEntries(ds[..i]))
    {
      var d := ds[i];
      DonationStep(ds, i);
      if d.category.Some? && d.category.value != "" {
        m := Add(m, Entry(d.category.value, d.amount));
      }
      i := i + 1;
    }
    assert ds[..i] == ds;
    var j := 0;
    assert ps[..j] == [];
    assert DonationEntries(ds) + PledgeEntries(ps[..j]) == DonationEntries(ds);
    while j < |ps|
      invariant 0 <= j <= |ps|
      invariant m == Breakdown(DonationEntries(ds) + PledgeEntries(ps[..j]))
    {
      var p := ps[j];
      PledgeStep(ds, ps, j);
      if p.status == PledgeStatus.Fulfilled {
        if p.category.Some? && p.category.value != "" {
          m := Add(m, Entry(p.category.value, p.amount));
        }
      }
      j := j + 1;
    }
    assert ps[..j] == ps;
  }

  // ---- Top category ----

  datatype TopCategory = TopCategory(category: Option<string>, uniqueCount: int)

  /** The key of the first entry after sorting by amount, largest first, and
      the number of keys; no key when the map is empty. */
  function TopOf(m: seq<Entry>): (t: TopCategory)
    ensures t.uniqueCount == |m|
    ensures t.category.None? <==> m == []
    ensures t.category.Some? ==> t.category.value == m[FirstMaxIndex(m, AmountKey)].category
  {
    if |m| == 0 then TopCategory(None, 0)
    else
      SortDescHead(m, AmountKey);
      TopCategory(Some(SortDesc(m, AmountKey)[0].category), |m|)
  }

  /** `getTopCategory`. */
  function GetTopCategory(ds: seq<Donation>, ps: seq<Pledge>): TopCategory
  {
    TopOf(Breakdown(Contributions(ds, ps)))
  }

  /** There is no top category, and the count is 0, exactly when nothing was
      counted; otherwise the count is the number of distinct categories. */
  lemma TopCategoryCount(ds: seq<Donation>, ps: seq<Pledge>)
    ensures GetTopCategory(ds, ps).uniqueCount == |Categories(Contributions(ds, ps))|
    ensures GetTopCategory(ds, ps).category.None? <==> Contributions(ds, ps) == []
  {
    var cs := Contributions(ds, ps);
    BreakdownSize(cs);
    if cs != [] {
      assert cs[0].category in Categories(cs);
    }
  }

  /** The top category is a counted category whose total is at least every
      other category's, and no category inserted before it ties with it. */
  lemma TopCategoryIsFirstLargest(ds: seq<Donation>, ps: seq<Pledge>)
    requires GetTopCategory(ds, ps).category.Some?
    ensures var m := Breakdown(Contributions(ds, ps));
      var top := GetTopCategory(ds, ps).category.value;
      && top in Keys(m)
      && (forall k :: k in Keys(m) ==> Get(m, k) <= Get(m, top))
      && (forall j :: 0 <= j < |m| && Keys(m)[j] != top ==> m[j].amount <= Get(m, top))
      && (forall j, k :: 0 <= j < k < |m| && m[k].category == top ==> m[j].amount < Get(m, top))
  {
    var m := Breakdown(Contributions(ds, ps));
    var i := FirstMaxIndex(m, AmountKey);
    KeyAt(m, i);
    forall k | k in Keys(m)
      ensures Get(m, k) <= Get(m, m[i].category)
    {
      var j := GetAt(m, k);
      KeyAt(m, j);
    }
    forall j | 0 <= j < |m|
      ensures m[j].amount <= m[i].amount
    {
    }
    forall j, k | 0 <= j < k < |m| && m[k].category == m[i].category
      ensures m[j].amount < m[i].amount
    {
      KeyAt(m, k);
      assert k == i;
    }
  }

  /** In a map with distinct keys, the entry at `i` is the one `Get` finds. */
  lemma {:induction false} KeyAt(m: seq<Entry>, i: nat)
    requires Distinct(Keys(m)) && i < |m|
    ensures Keys(m)[i] == m[i].category
    ensures Get(m, m[i].category) == m[i].amount
  {
    if i > 0 {
      assert Keys(m)[1..] == Keys(m[1..]);
      KeyAt(m[1..], i - 1);
      assert Keys(m)[0] == m[0].category;
    }
  }

  /** A key's position in the map. */
  lemma {:induction false} GetAt(m: seq<Entry>, k: string) returns (j: nat)
    requires k in Keys(m)
    ensures j < |m| && m[j].category == k
  {
    if m[0].category == k {
      j := 0;
    } else {
      assert Keys(m) == [m[0].category] + Keys(m[1..]);
      var j' := GetAt(m[1..], k);
      j := j' + 1;
    }
  }

  // ---- Levels ----

  datatype Rung = Rung(level: int, name: string, minAmount: int)

  /** `LEVEL_THRESHOLDS`: the minimum cumulative amounts of the seven rungs. */
  const Ladder: seq<Rung> := [
    Rung(1, "Bronze Supporter", 0),
    Rung(2, "Silver Supporter", 100_000),
    Rung(3, "Gold Supporter", 500_000),
    Rung(4, "Platinum Supporter", 1_000_000),
    Rung(5, "Diamond Supporter", 2_000_000),
    Rung(6, "Legacy Supporter", 5_000_000),
    Rung(7, "Champion Supporter", 10_000_000)
  ]

  const Top: nat := 6

  lemma LadderIncreasing()
    ensures |Ladder| == Top + 1
    ensures forall i, j :: 0 <= i < j < |Ladder| ==> Ladder[i].minAmount < Ladder[j].minAmount
    ensures forall i :: 0 <= i < |Ladder| ==> Ladder[i].level == i + 1
  {
  }

  function DonationAmount(d: Donation): int
  {
    d.amount
  }

  function PledgeAmount(p: Pledge): int
  {
    p.amount
  }

  predicate IsFulfilled(p: Pledge)
  {
    p.status == PledgeStatus.Fulfilled
  }

  /** The total of all donations plus the FULFILLED pledges. */
  function TotalImpact(ds: seq<Donation>, ps: seq<Pledge>): int
  {
    Sum(ds, DonationAmount) + Sum(Filter(ps, IsFulfilled), PledgeAmount)
  }

  /** Adding a pledge that is PENDING, DUE or EXPIRED leaves the impact, and so
      the level, as it was; a FULFILLED one adds its amount. */
  lemma {:induction false} ImpactOfNewPledge(ds: seq<Donation>, ps: seq<Pledge>, p: Pledge)
    ensures TotalImpact(ds, ps + [p]) == TotalImpact(ds, ps) + (if IsFulfilled(p) then p.amount else 0)
  {
    FilterAppend(ps, [p], IsFulfilled);
    SumAppend(Filter(ps, IsFulfilled), Filter([p], IsFulfilled), PledgeAmount);
  }

  /** The index of the last rung among the first `n` whose minimum is at most
      `impact`, or 0 when there is none. */
  function LastReached(impact: int, n: nat): (i: nat)
    requires n <= |Ladder|
    ensures i <= Top
    ensures n > 0 ==> i < n
  {
    if n == 0 then 0
    else if Ladder[n - 1].minAmount <= impact then n - 1
    else LastReached(impact, n - 1)
  }

  function LevelIndex(impact: int): nat
  {
    LastReached(impact, |Ladder|)
  }

  lemma {:induction false} LastReachedBrackets(impact: int, n: nat)
    requires 0 < n <= |Ladder|
    ensures var i := LastReached(impact, n);
      && (impact >= 0 ==> Ladder[i].minAmount <= impact)
      && (forall j :: i < j < n ==> impact < Ladder[j].minAmount)
      && (impact < 0 ==> i == 0)
  {
    LadderIncreasing();
    if n > 1 && Ladder[n - 1].minAmount > impact {
      LastReachedBrackets(impact, n - 1);
    }
  }

  /** The current rung is the highest one reached; a negative impact reaches
      none and stays on the first. */
  lemma LevelIndexBrackets(impact: int)
    ensures var c := LevelIndex(impact);
      && (impact >= 0 ==> Ladder[c].minAmount <= impact)
      && (c < Top ==> impact < Ladder[c + 1].minAmount)
      && (impact < 0 ==> c == 0)
  {
    LastReachedBrackets(impact, |Ladder|);
  }

  /** A larger impact never gives a lower level. */
  lemma LevelMonotone(a: int, b: int)
    requires a <= b
    ensures LevelIndex(a) <= LevelIndex(b)
  {
    LevelIndexBrackets(a);
    LevelIndexBrackets(b);
    LadderIncreasing();
  }

  datatype LevelInfo = LevelInfo(currentLevel: int, levelName: string, progress: int, nextLevelName: string)

  /** `Math.round(Math.min(100, Math.max(0, (inRange / range) * 100)))` between
      rungs `c` and `n`, and 100 when they are the same rung. */
  function Progress(impact: int, c: nat, n: nat): (p: int)
    requires c <= Top && n <= Top
    requires c != n ==> n == c + 1
    ensures 0 <= p <= 100
    ensures c == n ==> p == 100
    ensures c != n && impact >= Ladder[n].minAmount ==> p == 100
    ensures c != n && impact <= Ladder[c].minAmount ==> p == 0
  {
    if c == n then 100
    else
      var range := Ladder[n].minAmount - Ladder[c].minAmount;
      var inRange := impact - Ladder[c].minAmount;
      if inRange <= 0 then 0
      else if inRange >= range then 100
      else
        var r := RoundDiv(100 * inRange, range);
        MulMonotone(range, r, -1);
        MulMonotone(range, 101, r);
        r
  }

  /** The level record for a given impact. */
  function LevelOf(impact: int): (info: LevelInfo)
  {
    var c := LevelIndex(impact);
    var n := if c < Top then c + 1 else c;
    LevelInfo(Ladder[c].level, Ladder[c].name, Progress(impact, c, n), Ladder[n].name)
  }

  /** `calculateUserLevel`: the impact, then one pass over the ladder keeping
      the last rung reached and the one after it. */
  method CalculateUserLevel(ds: seq<Donation>, ps: seq<Pledge>) returns (info: LevelInfo)
    ensures info == LevelOf(TotalImpact(ds, ps))
  {
    var impact := TotalImpact(ds, ps);
    var current := 0;
    var next := 1;
    for i := 0 to |Ladder|
      invariant current == LastReached(impact, i)
      invariant next == if current < Top then current + 1 else current
    {
      if impact >= Ladder[i].minAmount {
        current := i;
        next := if i + 1 < |Ladder| then i + 1 else i;
      }
    }
    info := LevelInfo(Ladder[current].level, Ladder[current].name, Progress(impact, current, next), Ladder[next].name);
  }

  /** Progress lies in [0, 100] and is 100 on the top rung, where the next
      level's name is the current one's. */
  lemma ProgressBounds(impact: int)
    ensures 0 <= LevelOf(impact).progress <= 100
    ensures LevelIndex(impact) == Top ==> LevelOf(impact).progress == 100
    ensures LevelIndex(impact) == Top <==> LevelOf(impact).nextLevelName == LevelOf(impact).levelName
  {
  }

  /** The first Silver amount is Silver at 0%; one UGX less is Bronze, yet its
      progress rounds up to 100%. */
  lemma RoundingAtRungBoundary()
    ensures LevelOf(100_000) == LevelInfo(2, "Silver Supporter", 0, "Gold Supporter")
    ensures LevelOf(99_999) == LevelInfo(1, "Bronze Supporter", 100, "Silver Supporter")
  {
    assert LevelIndex(100_000) == 1;
    assert LevelIndex(99_999) == 0;
    assert RoundDiv(100 * 99_999, 100_000) == 100;
  }

  // ---- Monthly growth ----

  /** The calendar boundaries, in local time, that `calculateMonthlyGrowth`
      derives from the clock: midnight on the first of this month and of last
      month, and `new Date(year, month, 0)`, midnight at the start of the last
      day of last month. */
  datatype MonthBounds = MonthBounds(thisMonthStart: int, lastMonthStart: int, lastMonthEnd: int)

  /** `new Date(year, month, 0)` is one day before the first of the month,
      and a month is at least 28 days long. */
  predicate CalendarBounds(b: MonthBounds)
  {
    && b.lastMonthEnd == b.thisMonthStart - 86_400_000
    && b.lastMonthStart <= b.thisMonthStart - 28 * 86_400_000
  }

  /** The impact of the donations and FULFILLED pledges created at a time
      that `inWindow` accepts. */
  function WindowImpact(ds: seq<Donation>, ps: seq<Pledge>, inWindow: int -> bool): int
  {
    Sum(Filter(ds, (d: Donation) => inWindow(d.createdAt)), DonationAmount)
      + Sum(Filter(ps, (p: Pledge) => inWindow(p.createdAt) && p.status == PledgeStatus.Fulfilled), PledgeAmount)
  }

  /** The growth figure from the two months' impacts. */
  function Growth(thisMonth: int, lastMonth: int): (g: int)
    ensures lastMonth == 0 ==> (g == 100 <==> thisMonth > 0) && (g == 0 <==> thisMonth <= 0)
    ensures lastMonth > 0 ==> 2 * (lastMonth * g) - lastMonth <= 200 * (thisMonth - lastMonth) < 2 * (lastMonth * g) + lastMonth
    ensures lastMonth < 0 ==> 2 * (lastMonth * g) + lastMonth < 200 * (thisMonth - lastMonth) <= 2 * (lastMonth * g) - lastMonth
    ensures lastMonth > 0 && thisMonth >= 0 ==> g >= -100
    ensures lastMonth != 0 && thisMonth == lastMonth ==> g == 0
  {
    if lastMonth == 0 then (if thisMonth > 0 then 100 else 0)
    else
      var g := RoundDiv(100 * (thisMonth - lastMonth), lastMonth);
      RoundedGrowthFacts(thisMonth, lastMonth, g);
      g
  }

  lemma RoundedGrowthFacts(thisMonth: int, lastMonth: int, g: int)
    requires lastMonth != 0 && g == RoundDiv(100 * (thisMonth - lastMonth), lastMonth)
    ensures lastMonth > 0 && thisMonth >= 0 ==> g >= -100
    ensures thisMonth == lastMonth ==> g == 0
  {
    MulMonotone(lastMonth, g, -101);
    if thisMonth == lastMonth {
      RoundDivIs(0, if lastMonth > 0 then lastMonth else -lastMonth, 0);
    }
  }

  /** `calculateMonthlyGrowth` as written: this month is everything from its
      first midnight on, and last month is `[lastMonthStart, lastMonthEnd]`
      with both ends included. */
  function MonthlyGrowthAsWritten(ds: seq<Donation>, ps: seq<Pledge>, b: MonthBounds): int
  {
    Growth(
      WindowImpact(ds, ps, t => t >= b.thisMonthStart),
      WindowImpact(ds, ps, t => b.lastMonthStart <= t <= b.lastMonthEnd))
  }

  /** Last month as it was meant: from its first midnight up to, and not
      including, the first midnight of this month. */
  predicate InLastMonth(t: int, b: MonthBounds)
  {
    b.lastMonthStart <= t < b.thisMonthStart
  }

  /** `calculateMonthlyGrowth` with last month taken as a whole: the
      corrected reading of the finding below (the metrics themselves keep
      the figure as written). */
  function MonthlyGrowth(ds: seq<Donation>, ps: seq<Pledge>, b: MonthBounds): int
  {
    Growth(
      WindowImpact(ds, ps, t => t >= b.thisMonthStart),
      WindowImpact(ds, ps, t => InLastMonth(t, b)))
  }

  /** As written, a donation made during the last day of last month falls in
      neither month: a single positive one made an hour before this month
      began reports growth 0, where the whole-month reading reports -100. */
  lemma LastDayOfMonthDropped(d: Donation, b: MonthBounds)
    requires CalendarBounds(b)
    requires d.amount > 0 && d.createdAt == b.thisMonthStart - 3_600_000
    ensures MonthlyGrowthAsWritten([d], [], b) == 0
    ensures MonthlyGrowth([d], [], b) == -100
  {
    var inThis := (t: int) => t >= b.thisMonthStart;
    var asWritten := (t: int) => b.lastMonthStart <= t <= b.lastMonthEnd;
    var whole := (t: int) => InLastMonth(t, b);
    assert Filter([d], (x: Donation) => inThis(x.createdAt)) == [];
    assert Filter([d], (x: Donation) => asWritten(x.createdAt)) == [];
    assert Filter([d], (x: Donation) => whole(x.createdAt)) == [d];
    assert WindowImpact([d], [], inThis) == 0;
    assert WindowImpact([d], [], asWritten) == 0;
    assert WindowImpact([d], [], whole) == d.amount;
    RoundDivIs(100 * (0 - d.amount), d.amount, -100);
  }

  /** With whole months, every moment from the start of last month on lies in
      exactly one of the two windows. */
  lemma MonthsPartitionTime(t: int, b: MonthBounds)
    requires CalendarBounds(b) && t >= b.lastMonthStart
    ensures (t >= b.thisMonthStart) != InLastMonth(t, b)
  {
  }

  /** With whole months, the money counted this month and last month adds up
      to all the money counted since last month began: nothing is dropped
      and nothing is counted twice. */
  lemma MonthsSplitImpact(ds: seq<Donation>, ps: seq<Pledge>, b: MonthBounds)
    requires CalendarBounds(b)
    ensures WindowImpact(ds, ps, t => t >= b.thisMonthStart) + WindowImpact(ds, ps, t => InLastMonth(t, b))
         == WindowImpact(ds, ps, t => t >= b.lastMonthStart)
  {
    var inThis := (t: int) => t >= b.thisMonthStart;
    var inLast := (t: int) => InLastMonth(t, b);
    var since := (t: int) => t >= b.lastMonthStart;
    FilterSumSplit(ds, (d: Donation) => inThis(d.createdAt), (d: Donation) => inLast(d.createdAt),
                   (d: Donation) => since(d.createdAt), DonationAmount);
    FilterSumSplit(ps, (p: Pledge) => inThis(p.createdAt) && p.status == PledgeStatus.Fulfilled,
                   (p: Pledge) => inLast(p.createdAt) && p.status == PledgeStatus.Fulfilled,
                   (p: Pledge) => since(p.createdAt) && p.status == PledgeStatus.Fulfilled, PledgeAmount);
  }

  // ---- All metrics ----

  datatype DashboardMetrics = DashboardMetrics(
    accountAgeWeeks: int,
    uniqueCategories: int,
    topCategory: Option<string>,
    currentLevel: int,
    currentLevelName: string,
    progressToNextLevel: int,
    nextLevelName: string,
    monthlyGrowthPercentage: int)

  /** `m` holds the metrics of a profile created at `createdAt`, for the
      given donations and pledges, read at time `now` in the month `b`. */
  predicate Describes(m: DashboardMetrics, createdAt: int, now: int, b: MonthBounds,
                      ds: seq<Donation>, ps: seq<Pledge>)
  {
    var info := LevelOf(TotalImpact(ds, ps));
    && m.accountAgeWeeks == AccountAgeWeeks(now, createdAt)
    && m.topCategory == GetTopCategory(ds, ps).category
    && m.uniqueCategories == |Categories(Contributions(ds, ps))|
    && m.currentLevel == info.currentLevel
    && m.currentLevelName == info.levelName
    && m.progressToNextLevel == info.progress
    && m.nextLevelName == info.nextLevelName
    && m.monthlyGrowthPercentage == MonthlyGrowthAsWritten(ds, ps, b)
  }

  /** `calculateAllMetrics`: every figure above for one user. */
  method CalculateAllMetrics(createdAt: int, now: int, b: MonthBounds, ds: seq<Donation>, ps: seq<Pledge>)
    returns (m: DashboardMetrics)
    ensures Describes(m, createdAt, now, b, ds, ps)
    ensures m.accountAgeWeeks >= 1
    ensures 0 <= m.progressToNextLevel <= 100
  {
    var top := GetTopCategory(ds, ps);
    TopCategoryCount(ds, ps);
    var info := CalculateUserLevel(ds, ps);
    ProgressBounds(TotalImpact(ds, ps));
    m := DashboardMetrics(
      AccountAgeWeeks(now, createdAt),
      top.uniqueCount,
      top.category,
      info.currentLevel,
      info.levelName,
      info.progress,
      info.nextLevelName,
      MonthlyGrowthAsWritten(ds, ps, b));
  }
}
