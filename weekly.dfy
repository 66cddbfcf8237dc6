/**
 * The weekly view: every campaign's weekly entries laid end to end, in
 * campaign order and then week order, each turned into one chart point
 * labelled with its week range. Entries of different campaigns for the
 * same week are kept apart, never grouped or summed.
 */
module Weekly {
  import opened Marketing
  import opened Seqs

  /** One point of the weekly line charts. */
  datatype WeekPoint = WeekPoint(week: string, spend: real, revenue: real)

  const SEPARATOR := " - "

  /** The weekly lists of the campaigns, one block per campaign. */
  function WeeklyLists(cs: seq<Campaign>): seq<seq<WeeklyPerformance>>
  {
    seq(|cs|, i requires 0 <= i < |cs| => cs[i].weeklyPerformance)
  }

  /** `weeklyData`: the flatMap over the campaigns, empty while no data is loaded. */
  function WeeklyData(data: Option<MarketingData>): (ws: seq<WeeklyPerformance>)
    ensures |ws| == WeekCount(CampaignsOf(data))
    ensures data == None ==> ws == []
  {
    FlattenLength(WeeklyLists(CampaignsOf(data)));
    TotalLengthIsWeekCount(CampaignsOf(data));
    Flatten(WeeklyLists(CampaignsOf(data)))
  }

  /** The number of weekly entries over all campaigns, counted campaign by campaign. */
  function WeekCount(cs: seq<Campaign>): nat
  {
    if cs == [] then 0 else WeekCount(cs[..|cs| - 1]) + |cs[|cs| - 1].weeklyPerformance|
  }

  /** The composite label: the week start, the separator, then the week end. */
  function WeekLabel(w: WeeklyPerformance): (week: string)
    ensures |week| == |w.weekStart| + |SEPARATOR| + |w.weekEnd|
    ensures week[..|w.weekStart|] == w.weekStart
    ensures week[|w.weekStart|..|w.weekStart| + |SEPARATOR|] == SEPARATOR
    ensures week[|w.weekStart| + |SEPARATOR|..] == w.weekEnd
  {
    var week := w.weekStart + SEPARATOR + w.weekEnd;
    assert week[..|w.weekStart|] == w.weekStart;
    assert week[|w.weekStart|..|w.weekStart| + |SEPARATOR|] == SEPARATOR;
    week
  }

  /** One chart point: the entry's label, with its spend and revenue copied unchanged. */
  function PointOf(w: WeeklyPerformance): (p: WeekPoint)
    ensures p.week == WeekLabel(w) && p.spend == w.spend && p.revenue == w.revenue
  {
    WeekPoint(WeekLabel(w), w.spend, w.revenue)
  }

  /** `chartData`: one point per weekly entry, in the same order. */
  function ChartData(ws: seq<WeeklyPerformance>): (pts: seq<WeekPoint>)
    ensures |pts| == |ws|
    ensures forall k :: 0 <= k < |ws| ==>
              pts[k].week == WeekLabel(ws[k]) && pts[k].spend == ws[k].spend && pts[k].revenue == ws[k].revenue
  {
    seq(|ws|, k requires 0 <= k < |ws| => PointOf(ws[k]))
  }

  /** The series the two line charts draw. */
  function WeeklyChart(data: Option<MarketingData>): (pts: seq<WeekPoint>)
    ensures |pts| == WeekCount(CampaignsOf(data))
    ensures data == None ==> pts == []
  {
    ChartData(WeeklyData(data))
  }

  lemma WeeklyListsPrefix(cs: seq<Campaign>, i: int)
    requires 0 <= i <= |cs|
    ensures WeeklyLists(cs)[..i] == WeeklyLists(cs[..i])
  {
  }

  /** The block lengths of the flattening add up to the campaign-by-campaign count. */
  lemma {:induction false} TotalLengthIsWeekCount(cs: seq<Campaign>)
    ensures TotalLength(WeeklyLists(cs)) == WeekCount(cs)
  {
    if cs != [] {
      var front := cs[..|cs| - 1];
      TotalLengthIsWeekCount(front);
      assert WeeklyLists(cs) == WeeklyLists(front) + [cs[|cs| - 1].weeklyPerformance];
      FlattenSnoc(WeeklyLists(front), cs[|cs| - 1].weeklyPerformance);
    }
  }

  /**
   * Campaign-then-week order: week `j` of campaign `i` is the point after
   * all weeks of the campaigns before `i` and the first `j` weeks of `i`;
   * its label is that entry's range and its spend and revenue are copied.
   */
  lemma WeeklyPointAt(cs: seq<Campaign>, i: int, j: int)
    requires 0 <= i < |cs| && 0 <= j < |cs[i].weeklyPerformance|
    ensures WeekCount(cs[..i]) + j < |WeeklyChart(Some(MarketingData(cs)))|
    ensures var w := cs[i].weeklyPerformance[j];
            WeeklyChart(Some(MarketingData(cs)))[WeekCount(cs[..i]) + j] == WeekPoint(WeekLabel(w), w.spend, w.revenue)
  {
    FlattenAt(WeeklyLists(cs), i, j);
    WeeklyListsPrefix(cs, i);
    TotalLengthIsWeekCount(cs[..i]);
  }

  /** The series is empty exactly when no campaign has a weekly entry, in particular with no data. */
  lemma EmptyWeeklySeries(data: Option<MarketingData>)
    ensures WeeklyChart(data) == [] <==>
            forall i :: 0 <= i < |CampaignsOf(data)| ==> CampaignsOf(data)[i].weeklyPerformance == []
    ensures data == None ==> WeeklyChart(data) == []
  {
    var ls := WeeklyLists(CampaignsOf(data));
    FlattenLength(ls);
    TotalLengthZero(ls);
    assert forall i :: 0 <= i < |ls| ==> ls[i] == CampaignsOf(data)[i].weeklyPerformance;
  }

  /**
   * Two campaigns reporting the same single week give two points with the
   * same label and each campaign's own amounts: nothing is grouped.
   */
  lemma SameWeekNotGrouped(a: Campaign, b: Campaign)
    requires |a.weeklyPerformance| == 1 && |b.weeklyPerformance| == 1
    requires a.weeklyPerformance[0].weekStart == b.weeklyPerformance[0].weekStart
    requires a.weeklyPerformance[0].weekEnd == b.weeklyPerformance[0].weekEnd
    ensures var chart := WeeklyChart(Some(MarketingData([a, b])));
            && |chart| == 2
            && chart[0].week == chart[1].week
            && chart[0].spend == a.weeklyPerformance[0].spend && chart[1].spend == b.weeklyPerformance[0].spend
            && chart[0].revenue == a.weeklyPerformance[0].revenue && chart[1].revenue == b.weeklyPerformance[0].revenue
  {
    var cs := [a, b];
    assert cs[..0] == [] && cs[..1] == [a];
    WeeklyPointAt(cs, 0, 0);
    WeeklyPointAt(cs, 1, 0);
  }
}
