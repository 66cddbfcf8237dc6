/**
 * The demographic view: per-gender totals, the per-age-group spend and
 * revenue pivots, and the per-gender table rows.
 *
 * Every aggregate is specified over `OwnedSlices(campaigns)`, the slices of
 * all campaigns in campaign-then-slice order, each paired with the campaign
 * that owns it; a slice's spend and revenue are derived from that
 * campaign's `cpa` and `averageOrderValue`. The methods mirror the page's
 * nested `forEach` accumulators and are proved equal to those functions.
 */
module Demographics {
  import opened Marketing
  import opened Seqs

  /** A slice together with its owning campaign. */
  datatype Owned = Owned(campaign: Campaign, slice: DemographicSlice)

  function DerivedSpend(o: Owned): real
  {
    o.slice.performance.conversions as real * o.campaign.cpa
  }

  function DerivedRevenue(o: Owned): real
  {
    o.slice.performance.conversions as real * o.campaign.averageOrderValue
  }

  function Tagged(c: Campaign, ds: seq<DemographicSlice>): seq<Owned>
  {
    seq(|ds|, j requires 0 <= j < |ds| => Owned(c, ds[j]))
  }

  function Breakdowns(cs: seq<Campaign>): seq<seq<Owned>>
  {
    seq(|cs|, i requires 0 <= i < |cs| => Tagged(cs[i], cs[i].demographicBreakdown))
  }

  /** All slices of all campaigns, campaign by campaign, each with its owner. */
  function OwnedSlices(cs: seq<Campaign>): seq<Owned>
  {
    Flatten(Breakdowns(cs))
  }

  /** The number of demographic slices over all campaigns. */
  function SliceCount(cs: seq<Campaign>): nat
  {
    TotalLength(Breakdowns(cs))
  }

  lemma TaggedSnoc(c: Campaign, ds: seq<DemographicSlice>, j: int)
    requires 0 <= j < |ds|
    ensures Tagged(c, ds[..j + 1]) == Tagged(c, ds[..j]) + [Owned(c, ds[j])]
  {
  }

  lemma OwnedSlicesSnoc(cs: seq<Campaign>, i: int)
    requires 0 <= i < |cs|
    ensures OwnedSlices(cs[..i + 1]) == OwnedSlices(cs[..i]) + Tagged(cs[i], cs[i].demographicBreakdown)
  {
    assert Breakdowns(cs[..i + 1]) == Breakdowns(cs[..i]) + [Tagged(cs[i], cs[i].demographicBreakdown)];
    FlattenSnoc(Breakdowns(cs[..i]), Tagged(cs[i], cs[i].demographicBreakdown));
  }

  lemma SeenSnoc(cs: seq<Campaign>, i: int, j: int)
    requires 0 <= i < |cs| && 0 <= j < |cs[i].demographicBreakdown|
    ensures OwnedSlices(cs[..i]) + Tagged(cs[i], cs[i].demographicBreakdown[..j + 1])
         == OwnedSlices(cs[..i]) + Tagged(cs[i], cs[i].demographicBreakdown[..j]) + [Owned(cs[i], cs[i].demographicBreakdown[j])]
  {
    TaggedSnoc(cs[i], cs[i].demographicBreakdown, j);
  }

  /**
   * Campaign-then-slice order, and owner-scoped derivation: slice `j` of
   * campaign `i` is paired with campaign `i`, so its derived spend and
   * revenue use campaign `i`'s own `cpa` and `averageOrderValue`.
   */
  lemma OwnedSliceAt(cs: seq<Campaign>, i: int, j: int)
    requires 0 <= i < |cs| && 0 <= j < |cs[i].demographicBreakdown|
    ensures SliceCount(cs[..i]) + j < SliceCount(cs) == |OwnedSlices(cs)|
    ensures OwnedSlices(cs)[SliceCount(cs[..i]) + j] == Owned(cs[i], cs[i].demographicBreakdown[j])
    ensures DerivedSpend(OwnedSlices(cs)[SliceCount(cs[..i]) + j])
         == cs[i].demographicBreakdown[j].performance.conversions as real * cs[i].cpa
    ensures DerivedRevenue(OwnedSlices(cs)[SliceCount(cs[..i]) + j])
         == cs[i].demographicBreakdown[j].performance.conversions as real * cs[i].averageOrderValue
  {
    assert Breakdowns(cs[..i]) == Breakdowns(cs)[..i];
    FlattenAt(Breakdowns(cs), i, j);
  }

  /** Every paired slice belongs to its paired campaign, and that campaign is an input. */
  lemma OwnedSlicesOwners(cs: seq<Campaign>, o: Owned)
    requires o in OwnedSlices(cs)
    ensures o.campaign in cs && o.slice in o.campaign.demographicBreakdown
  {
    FlattenMember(Breakdowns(cs), o);
    var i :| 0 <= i < |cs| && o in Breakdowns(cs)[i];
    var j :| 0 <= j < |cs[i].demographicBreakdown| && Tagged(cs[i], cs[i].demographicBreakdown)[j] == o;
  }

  // ---------------------------------------------------------------------
  // Gender totals (maleMetrics, femaleMetrics)
  // ---------------------------------------------------------------------

  datatype GenderTotals = GenderTotals(clicks: int, spend: real, revenue: real)

  const NO_TOTALS := GenderTotals(0, 0.0, 0.0)

  function Plus(a: GenderTotals, b: GenderTotals): GenderTotals
  {
    GenderTotals(a.clicks + b.clicks, a.spend + b.spend, a.revenue + b.revenue)
  }

  function SliceTotals(o: Owned): GenderTotals
  {
    GenderTotals(o.slice.performance.clicks, DerivedSpend(o), DerivedRevenue(o))
  }

  /** Clicks, derived spend and derived revenue summed over `os`. */
  function Totals(os: seq<Owned>): GenderTotals
  {
    if os == [] then NO_TOTALS else Plus(Totals(os[..|os| - 1]), SliceTotals(os[|os| - 1]))
  }

  /** The slices of `os` whose gender is one of `genders`, in their order. */
  function WithGender(os: seq<Owned>, genders: set<string>): seq<Owned>
  {
    if os == [] then []
    else if os[|os| - 1].slice.gender in genders then WithGender(os[..|os| - 1], genders) + [os[|os| - 1]]
    else WithGender(os[..|os| - 1], genders)
  }

  lemma TotalsSnoc(os: seq<Owned>, o: Owned)
    ensures Totals(os + [o]) == Plus(Totals(os), SliceTotals(o))
  {
    assert (os + [o])[..|os|] == os;
  }

  lemma WithGenderSnoc(os: seq<Owned>, o: Owned, genders: set<string>)
    ensures WithGender(os + [o], genders)
         == if o.slice.gender in genders then WithGender(os, genders) + [o] else WithGender(os, genders)
  {
    assert (os + [o])[..|os|] == os;
  }

  lemma ChosenTotalsSnoc(os: seq<Owned>, o: Owned, genders: set<string>)
    ensures Totals(WithGender(os + [o], genders))
         == if o.slice.gender in genders then Plus(Totals(WithGender(os, genders)), SliceTotals(o))
            else Totals(WithGender(os, genders))
  {
    WithGenderSnoc(os, o, genders);
    if o.slice.gender in genders {
      TotalsSnoc(WithGender(os, genders), o);
    }
  }

  /** The gender filter keeps exactly the slices of the chosen genders. */
  lemma {:induction false} WithGenderMembers(os: seq<Owned>, genders: set<string>, o: Owned)
    ensures o in WithGender(os, genders) <==> o in os && o.slice.gender in genders
  {
    if os != [] {
      var front, last := os[..|os| - 1], os[|os| - 1];
      assert os == front + [last];
      WithGenderMembers(front, genders, o);
      WithGenderSnoc(front, last, genders);
    }
  }

  /**
   * Totals over two disjoint gender sets add up to the totals over their
   * union: no slice is counted twice and none of those genders is left out.
   */
  lemma {:induction false} GenderSplit(os: seq<Owned>, a: set<string>, b: set<string>)
    requires a !! b
    ensures Plus(Totals(WithGender(os, a)), Totals(WithGender(os, b))) == Totals(WithGender(os, a + b))
  {
    if os == [] {
      assert WithGender(os, a) == WithGender(os, b) == WithGender(os, a + b) == [];
    } else {
      var front, last := os[..|os| - 1], os[|os| - 1];
      assert os == front + [last];
      GenderSplit(front, a, b);
      ChosenTotalsSnoc(front, last, a);
      ChosenTotalsSnoc(front, last, b);
      ChosenTotalsSnoc(front, last, a + b);
      var x, y, z := Totals(WithGender(front, a)), Totals(WithGender(front, b)), Totals(WithGender(front, a + b));
      PlusStep(x, y, z, SliceTotals(last));
      if last.slice.gender in a {
        assert last.slice.gender !in b;
      }
    }
  }

  lemma PlusStep(x: GenderTotals, y: GenderTotals, z: GenderTotals, t: GenderTotals)
    requires Plus(x, y) == z
    ensures Plus(Plus(x, t), y) == Plus(z, t) && Plus(x, Plus(y, t)) == Plus(z, t)
  {
  }

  /** When every slice has one of the chosen genders, the filter keeps all of them. */
  lemma {:induction false} WithAllGenders(os: seq<Owned>, genders: set<string>)
    requires forall k :: 0 <= k < |os| ==> os[k].slice.gender in genders
    ensures WithGender(os, genders) == os
  {
    if os != [] {
      var front, last := os[..|os| - 1], os[|os| - 1];
      assert os == front + [last];
      WithAllGenders(front, genders);
      WithGenderSnoc(front, last, genders);
    }
  }

  const KNOWN_GENDERS: set<string> := {"Male", "Female"}

  /**
   * The male and female totals add up to the totals over the Male and
   * Female slices; a slice of any other gender counts in neither.
   */
  lemma MaleFemalePartition(cs: seq<Campaign>)
    ensures Plus(Totals(WithGender(OwnedSlices(cs), {"Male"})), Totals(WithGender(OwnedSlices(cs), {"Female"})))
         == Totals(WithGender(OwnedSlices(cs), KNOWN_GENDERS))
  {
    assert {"Male"} + {"Female"} == KNOWN_GENDERS;
    GenderSplit(OwnedSlices(cs), {"Male"}, {"Female"});
  }

  /**
   * When every slice is Male or Female, the male and female totals add up
   * to the totals over all slices of all campaigns.
   */
  lemma MaleFemaleCoverAll(cs: seq<Campaign>)
    requires forall k :: 0 <= k < |OwnedSlices(cs)| ==> OwnedSlices(cs)[k].slice.gender in KNOWN_GENDERS
    ensures Plus(Totals(WithGender(OwnedSlices(cs), {"Male"})), Totals(WithGender(OwnedSlices(cs), {"Female"})))
         == Totals(OwnedSlices(cs))
  {
    MaleFemalePartition(cs);
    WithAllGenders(OwnedSlices(cs), KNOWN_GENDERS);
  }

  /** Adding a slice's totals is the inner loop's three `+=`, with spend and revenue from the owner. */
  lemma AddSlice(clicks: int, spend: real, revenue: real, c: Campaign, d: DemographicSlice)
    ensures Plus(GenderTotals(clicks, spend, revenue), SliceTotals(Owned(c, d)))
         == GenderTotals(clicks + d.performance.clicks,
                         spend + d.performance.conversions as real * c.cpa,
                         revenue + d.performance.conversions as real * c.averageOrderValue)
  {
  }

  /**
   * One pass of the inner loop: slice `j` of campaign `i` extends the
   * slices seen, and the totals grow by that slice exactly when it has the
   * chosen gender.
   */
  lemma GenderStep(seen: seq<Owned>, c: Campaign, d: DemographicSlice, gender: string,
                   clicks: int, spend: real, revenue: real)
    requires GenderTotals(clicks, spend, revenue) == Totals(WithGender(seen, {gender}))
    ensures Totals(WithGender(seen + [Owned(c, d)], {gender}))
         == if d.gender == gender
            then GenderTotals(clicks + d.performance.clicks,
                              spend + d.performance.conversions as real * c.cpa,
                              revenue + d.performance.conversions as real * c.averageOrderValue)
            else GenderTotals(clicks, spend, revenue)
  {
    ChosenTotalsSnoc(seen, Owned(c, d), {gender});
    AddSlice(clicks, spend, revenue, c, d);
  }

  /**
   * `maleMetrics` (gender "Male") and `femaleMetrics` (gender "Female"):
   * clicks, derived spend and derived revenue summed over the slices of
   * exactly that gender in all campaigns.
   */
  method GenderMetrics(campaigns: seq<Campaign>, gender: string) returns (m: GenderTotals)
    ensures m == Totals(WithGender(OwnedSlices(campaigns), {gender}))
  {
    var clicks, spend, revenue := 0, 0.0, 0.0;
    ghost var seen: seq<Owned> := [];
    assert Breakdowns(campaigns[..0]) == [];
    var i := 0;
    while i < |campaigns|
      invariant 0 <= i <= |campaigns|
      invariant seen == OwnedSlices(campaigns[..i])
      invariant GenderTotals(clicks, spend, revenue) == Totals(WithGender(seen, {gender}))
    {
      var c := campaigns[i];
      var ds := c.demographicBreakdown;
      var j := 0;
      while j < |ds|
        invariant 0 <= j <= |ds|
        invariant seen == OwnedSlices(campaigns[..i]) + Tagged(c, ds[..j])
        invariant GenderTotals(clicks, spend, revenue) == Totals(WithGender(seen, {gender}))
      {
        var d := ds[j];
        GenderStep(seen, c, d, gender, clicks, spend, revenue);
        SeenSnoc(campaigns, i, j);
        if d.gender == gender {
          clicks := clicks + d.performance.clicks;
          revenue := revenue + d.performance.conversions as real * c.averageOrderValue;
          spend := spend + d.performance.conversions as real * c.cpa;
        }
        seen := seen + [Owned(c, d)];
        j := j + 1;
      }
      assert ds[..j] == ds;
      OwnedSlicesSnoc(campaigns, i);
      i := i + 1;
    }
    assert campaigns[..i] == campaigns;
    m := GenderTotals(clicks, spend, revenue);
  }

  // ---------------------------------------------------------------------
  // Age-group pivots (spendByAgeGroup, revenueByAgeGroup)
  // ---------------------------------------------------------------------

  datatype Metric = Spend | Revenue

  function Amount(o: Owned, metric: Metric): real
  {
    match metric
    case Spend => DerivedSpend(o)
    case Revenue => DerivedRevenue(o)
  }

  function MetricOf(t: GenderTotals, metric: Metric): real
  {
    match metric
    case Spend => t.spend
    case Revenue => t.revenue
  }

  /** The distinct age groups of `os`, in the order they are first observed. */
  function AgeGroups(os: seq<Owned>): seq<string>
  {
    if os == [] then []
    else
      var groups := AgeGroups(os[..|os| - 1]);
      if os[|os| - 1].slice.ageGroup in groups then groups else groups + [os[|os| - 1].slice.ageGroup]
  }

  /** The metric summed over the slices of `os` in age group `group`, of any gender. */
  function GroupTotal(os: seq<Owned>, group: string, metric: Metric): real
  {
    if os == [] then 0.0
    else GroupTotal(os[..|os| - 1], group, metric)
         + (if os[|os| - 1].slice.ageGroup == group then Amount(os[|os| - 1], metric) else 0.0)
  }

  function GroupBars(os: seq<Owned>, groups: seq<string>, metric: Metric): seq<Bar>
  {
    seq(|groups|, k requires 0 <= k < |groups| => Bar(groups[k], GroupTotal(os, groups[k], metric)))
  }

  /** The pivot: one bar per observed age group, first-observed order, valued by its group total. */
  function Pivot(os: seq<Owned>, metric: Metric): seq<Bar>
  {
    GroupBars(os, AgeGroups(os), metric)
  }

  function BarSum(bars: seq<Bar>): real
  {
    if bars == [] then 0.0 else BarSum(bars[..|bars| - 1]) + bars[|bars| - 1].value
  }

  ghost predicate NoDuplicates(s: seq<string>)
  {
    forall a, b :: 0 <= a < b < |s| ==> s[a] != s[b]
  }

  lemma AgeGroupsSnoc(os: seq<Owned>, o: Owned)
    ensures AgeGroups(os + [o])
         == if o.slice.ageGroup in AgeGroups(os) then AgeGroups(os) else AgeGroups(os) + [o.slice.ageGroup]
  {
    assert (os + [o])[..|os|] == os;
  }

  lemma GroupTotalSnoc(os: seq<Owned>, o: Owned, group: string, metric: Metric)
    ensures GroupTotal(os + [o], group, metric)
         == GroupTotal(os, group, metric) + (if o.slice.ageGroup == group then Amount(o, metric) else 0.0)
  {
    assert (os + [o])[..|os|] == os;
  }

  /** The pivot's groups are distinct. */
  lemma {:induction false} AgeGroupsDistinct(os: seq<Owned>)
    ensures NoDuplicates(AgeGroups(os))
  {
    if os != [] {
      var front, last := os[..|os| - 1], os[|os| - 1];
      assert os == front + [last];
      AgeGroupsDistinct(front);
      AgeGroupsSnoc(front, last);
    }
  }

  /** A group is in the pivot exactly when some slice has that age group. */
  lemma {:induction false} AgeGroupsMembers(os: seq<Owned>, group: string)
    ensures group in AgeGroups(os) <==> exists k :: 0 <= k < |os| && os[k].slice.ageGroup == group
  {
    if os != [] {
      var front, last := os[..|os| - 1], os[|os| - 1];
      assert os == front + [last];
      AgeGroupsMembers(front, group);
      AgeGroupsSnoc(front, last);
      assert forall k :: 0 <= k < |front| ==> front[k] == os[k];
      if group in AgeGroups(os) && group != last.slice.ageGroup {
        var k :| 0 <= k < |front| && front[k].slice.ageGroup == group;
        assert os[k].slice.ageGroup == group;
      }
    }
  }

  /**
   * First-observed order: the groups seen in any prefix of the slices form a
   * prefix of the groups of all slices, so a later slice never moves a group
   * that was seen earlier.
   */
  lemma {:induction false} AgeGroupsPrefix(os: seq<Owned>, n: int)
    requires 0 <= n <= |os|
    ensures AgeGroups(os[..n]) <= AgeGroups(os)
    decreases |os| - n
  {
    if n < |os| {
      AgeGroupsPrefix(os, n + 1);
      assert os[..n + 1] == os[..n] + [os[n]];
      AgeGroupsSnoc(os[..n], os[n]);
    } else {
      assert os[..n] == os;
    }
  }

  /** A group never observed totals zero. */
  lemma {:induction false} GroupTotalUnseen(os: seq<Owned>, group: string, metric: Metric)
    requires group !in AgeGroups(os)
    ensures GroupTotal(os, group, metric) == 0.0
  {
    if os != [] {
      var front, last := os[..|os| - 1], os[|os| - 1];
      assert os == front + [last];
      AgeGroupsSnoc(front, last);
      GroupTotalUnseen(front, group, metric);
    }
  }

  lemma GroupBarsSnocLabel(os: seq<Owned>, groups: seq<string>, group: string, metric: Metric)
    ensures GroupBars(os, groups + [group], metric) == GroupBars(os, groups, metric) + [Bar(group, GroupTotal(os, group, metric))]
    ensures BarSum(GroupBars(os, groups + [group], metric)) == BarSum(GroupBars(os, groups, metric)) + GroupTotal(os, group, metric)
  {
    var bars := GroupBars(os, groups + [group], metric);
    assert bars[..|groups|] == GroupBars(os, groups, metric);
  }

  /** Adding one slice to distinct groups adds its amount once if its group is among them. */
  lemma {:induction false} GroupBarsSnocSlice(os: seq<Owned>, o: Owned, groups: seq<string>, metric: Metric)
    requires NoDuplicates(groups)
    ensures BarSum(GroupBars(os + [o], groups, metric))
         == BarSum(GroupBars(os, groups, metric)) + (if o.slice.ageGroup in groups then Amount(o, metric) else 0.0)
  {
    if groups == [] {
      assert GroupBars(os + [o], groups, metric) == [];
      assert GroupBars(os, groups, metric) == [];
    } else {
      var front, last := groups[..|groups| - 1], groups[|groups| - 1];
      assert groups == front + [last];
      assert NoDuplicates(front);
      assert last !in front;
      GroupBarsSnocSlice(os, o, front, metric);
      GroupBarsSnocLabel(os + [o], front, last, metric);
      GroupBarsSnocLabel(os, front, last, metric);
      GroupTotalSnoc(os, o, last, metric);
    }
  }

  lemma {:induction false} PivotSum(os: seq<Owned>, metric: Metric)
    ensures BarSum(Pivot(os, metric)) == MetricOf(Totals(os), metric)
  {
    if os == [] {
      assert Pivot(os, metric) == [];
    } else {
      var front, last := os[..|os| - 1], os[|os| - 1];
      assert os == front + [last];
      PivotSum(front, metric);
      AgeGroupsDistinct(front);
      AgeGroupsSnoc(front, last);
      TotalsSnoc(front, last);
      var groups := AgeGroups(front);
      GroupBarsSnocSlice(front, last, groups, metric);
      if last.slice.ageGroup !in groups {
        GroupBarsSnocLabel(os, groups, last.slice.ageGroup, metric);
        GroupTotalSnoc(front, last, last.slice.ageGroup, metric);
        GroupTotalUnseen(front, last.slice.ageGroup, metric);
      }
    }
  }

  /**
   * Summing the bars of the spend (revenue) pivot gives the derived spend
   * (revenue) over every slice of every campaign: each slice lands in
   * exactly one group.
   */
  lemma PivotTotal(cs: seq<Campaign>, metric: Metric)
    ensures BarSum(Pivot(OwnedSlices(cs), metric)) == MetricOf(Totals(OwnedSlices(cs)), metric)
  {
    PivotSum(OwnedSlices(cs), metric);
  }

  ghost predicate GroupsMatch(groups: map<string, real>, order: seq<string>, seen: seq<Owned>, metric: Metric)
  {
    && order == AgeGroups(seen)
    && (forall l :: l in groups <==> l in order)
    && (forall l :: l in groups ==> groups[l] == GroupTotal(seen, l, metric))
  }

  /** One slice of an age group already in the record adds its amount to that group's entry. */
  lemma GroupsMatchKnown(groups: map<string, real>, order: seq<string>, seen: seq<Owned>, o: Owned, metric: Metric)
    requires GroupsMatch(groups, order, seen, metric)
    requires o.slice.ageGroup in groups
    ensures GroupsMatch(groups[o.slice.ageGroup := groups[o.slice.ageGroup] + Amount(o, metric)], order, seen + [o], metric)
  {
    var g := o.slice.ageGroup;
    var next := groups[g := groups[g] + Amount(o, metric)];
    AgeGroupsSnoc(seen, o);
    forall l | l in next
      ensures next[l] == GroupTotal(seen + [o], l, metric)
    {
      GroupTotalSnoc(seen, o, l, metric);
    }
  }

  /** One slice of a new age group inserts the group at 0, appends it to the order, then adds its amount. */
  lemma GroupsMatchNew(groups: map<string, real>, order: seq<string>, seen: seq<Owned>, o: Owned, metric: Metric)
    requires GroupsMatch(groups, order, seen, metric)
    requires o.slice.ageGroup !in groups
    ensures GroupsMatch(groups[o.slice.ageGroup := 0.0 + Amount(o, metric)], order + [o.slice.ageGroup], seen + [o], metric)
  {
    var g := o.slice.ageGroup;
    var next := groups[g := 0.0 + Amount(o, metric)];
    AgeGroupsSnoc(seen, o);
    forall l | l in next
      ensures next[l] == GroupTotal(seen + [o], l, metric)
    {
      GroupTotalSnoc(seen, o, l, metric);
      if l == g {
        GroupTotalUnseen(seen, g, metric);
      }
    }
  }

  /** Reading the record out in insertion order gives the pivot. */
  lemma GroupsMatchPivot(groups: map<string, real>, order: seq<string>, os: seq<Owned>, metric: Metric)
    requires GroupsMatch(groups, order, os, metric)
    ensures forall k :: 0 <= k < |order| ==> order[k] in groups
    ensures seq(|order|, k requires 0 <= k < |order| => Bar(order[k], groups[order[k]])) == Pivot(os, metric)
  {
  }

  /**
   * The body of the inner `forEach`: a group seen for the first time is
   * inserted at 0 (and so goes last in the key order), then the slice's
   * amount is added to its group.
   */
  method RecordSlice(groups: map<string, real>, order: seq<string>, c: Campaign, d: DemographicSlice, metric: Metric,
                     ghost seen: seq<Owned>)
    returns (groups': map<string, real>, order': seq<string>)
    requires GroupsMatch(groups, order, seen, metric)
    ensures GroupsMatch(groups', order', seen + [Owned(c, d)], metric)
  {
    var amount := match metric
      case Spend => d.performance.conversions as real * c.cpa
      case Revenue => d.performance.conversions as real * c.averageOrderValue;
    assert amount == Amount(Owned(c, d), metric);
    groups', order' := groups, order;
    if d.ageGroup !in groups' {
      GroupsMatchNew(groups, order, seen, Owned(c, d), metric);
      groups' := groups'[d.ageGroup := 0.0];
      order' := order' + [d.ageGroup];
    } else {
      GroupsMatchKnown(groups, order, seen, Owned(c, d), metric);
    }
    groups' := groups'[d.ageGroup := groups'[d.ageGroup] + amount];
  }

  /**
   * `spendByAgeGroup` (metric Spend) and `revenueByAgeGroup` (metric
   * Revenue). The record keyed by age group is a map together with the
   * order in which its keys were inserted, which is the order
   * `Object.entries` yields them in.
   */
  method AgeGroupPivot(campaigns: seq<Campaign>, metric: Metric) returns (bars: seq<Bar>)
    ensures bars == Pivot(OwnedSlices(campaigns), metric)
  {
    var groups: map<string, real> := map[];
    var order: seq<string> := [];
    ghost var seen: seq<Owned> := [];
    assert Breakdowns(campaigns[..0]) == [];
    var i := 0;
    while i < |campaigns|
      invariant 0 <= i <= |campaigns|
      invariant seen == OwnedSlices(campaigns[..i])
      invariant GroupsMatch(groups, order, seen, metric)
    {
      var c := campaigns[i];
      var ds := c.demographicBreakdown;
      var j := 0;
      while j < |ds|
        invariant 0 <= j <= |ds|
        invariant seen == OwnedSlices(campaigns[..i]) + Tagged(c, ds[..j])
        invariant GroupsMatch(groups, order, seen, metric)
      {
        var d := ds[j];
        groups, order := RecordSlice(groups, order, c, d, metric, seen);
        SeenSnoc(campaigns, i, j);
        seen := seen + [Owned(c, d)];
        j := j + 1;
      }
      assert ds[..j] == ds;
      OwnedSlicesSnoc(campaigns, i);
      i := i + 1;
    }
    assert campaigns[..i] == campaigns;
    GroupsMatchPivot(groups, order, seen, metric);
    bars := seq(|order|, k requires 0 <= k < |order| => Bar(order[k], groups[order[k]]));
  }

  /**
   * With no campaigns, or only campaigns without demographic slices, both
   * gender totals are zero and both pivots are empty.
   */
  lemma NoSlicesNoTotals(cs: seq<Campaign>, genders: set<string>, metric: Metric)
    requires forall i :: 0 <= i < |cs| ==> cs[i].demographicBreakdown == []
    ensures Totals(WithGender(OwnedSlices(cs), genders)) == NO_TOTALS
    ensures Pivot(OwnedSlices(cs), metric) == []
  {
    TotalLengthZero(Breakdowns(cs));
    FlattenLength(Breakdowns(cs));
    assert OwnedSlices(cs) == [];
    assert AgeGroups([]) == [];
  }

  // ---------------------------------------------------------------------
  // Table rows (tableDataByGender)
  // ---------------------------------------------------------------------

  datatype Row = Row(
    campaignName: string,
    ageGroup: string,
    impressions: int,
    clicks: int,
    conversions: int,
    ctr: real,
    conversionRate: real)

  /** A row copies the campaign name and the slice's stored figures and rates. */
  function RowOf(o: Owned): Row
  {
    var p := o.slice.performance;
    Row(o.campaign.name, o.slice.ageGroup, p.impressions, p.clicks, p.conversions, p.ctr, p.conversionRate)
  }

  /**
   * `tableDataByGender`: one row for each slice of the given gender, in
   * campaign-then-slice order.
   */
  method TableDataByGender(campaigns: seq<Campaign>, gender: string) returns (rows: seq<Row>)
    ensures |rows| == |WithGender(OwnedSlices(campaigns), {gender})|
    ensures forall k :: 0 <= k < |rows| ==> rows[k] == RowOf(WithGender(OwnedSlices(campaigns), {gender})[k])
  {
    rows := [];
    ghost var seen: seq<Owned> := [];
    assert Breakdowns(campaigns[..0]) == [];
    var i := 0;
    while i < |campaigns|
      invariant 0 <= i <= |campaigns|
      invariant seen == OwnedSlices(campaigns[..i])
      invariant |rows| == |WithGender(seen, {gender})|
      invariant forall k :: 0 <= k < |rows| ==> rows[k] == RowOf(WithGender(seen, {gender})[k])
    {
      var c := campaigns[i];
      var ds := c.demographicBreakdown;
      var j := 0;
      while j < |ds|
        invariant 0 <= j <= |ds|
        invariant seen == OwnedSlices(campaigns[..i]) + Tagged(c, ds[..j])
        invariant |rows| == |WithGender(seen, {gender})|
        invariant forall k :: 0 <= k < |rows| ==> rows[k] == RowOf(WithGender(seen, {gender})[k])
      {
        var d := ds[j];
        if d.gender == gender {
          rows := rows + [Row(c.name, d.ageGroup, d.performance.impressions, d.performance.clicks,
                              d.performance.conversions, d.performance.ctr, d.performance.conversionRate)];
        }
        WithGenderSnoc(seen, Owned(c, d), {gender});
        TaggedSnoc(c, ds, j);
        seen := seen + [Owned(c, d)];
        j := j + 1;
      }
      assert ds[..j] == ds;
      OwnedSlicesSnoc(campaigns, i);
      i := i + 1;
    }
    assert campaigns[..i] == campaigns;
  }

  /**
   * A worked example: one campaign "A" with cpa 10 and
   * average order value 50, and one Male slice with 100 clicks and 5
   * conversions, gives Male totals of 100 clicks, spend 50 and revenue 250.
   */
  lemma SingleCampaignExample()
    ensures
      var slice := DemographicSlice("Male", "18-24", Performance(1000, 100, 5, 10.0, 5.0));
      var cs := [Campaign("A", 50.0, 10.0, [slice], [], [], [])];
      Totals(WithGender(OwnedSlices(cs), {"Male"})) == GenderTotals(100, 50.0, 250.0)
  {
    var slice := DemographicSlice("Male", "18-24", Performance(1000, 100, 5, 10.0, 5.0));
    var c := Campaign("A", 50.0, 10.0, [slice], [], [], []);
    assert Tagged(c, c.demographicBreakdown) == [Owned(c, slice)];
    assert Breakdowns([c]) == [[Owned(c, slice)]];
    FlattenSnoc([], [Owned(c, slice)]);
    assert OwnedSlices([c]) == [Owned(c, slice)];
    WithGenderSnoc([], Owned(c, slice), {"Male"});
    TotalsSnoc([], Owned(c, slice));
  }
}
