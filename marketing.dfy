/**
 * The fetched marketing dataset: a list of campaigns, each owning its
 * demographic, device, regional and weekly breakdowns.
 *
 * Counts are unbounded integers; money, rates and coordinates are exact
 * reals (the dashboard's JavaScript numbers are IEEE-754 doubles).
 */
module Marketing {

  datatype Option<T> = None | Some(value: T)

  /** The volume counts and stored per-record rates of one demographic slice. */
  datatype Performance = Performance(
    impressions: int,
    clicks: int,
    conversions: int,
    ctr: real,
    conversionRate: real)

  /** A slice records no money: spend and revenue are derived from its campaign. */
  datatype DemographicSlice = DemographicSlice(
    gender: string,
    ageGroup: string,
    performance: Performance)

  /** Unlike a demographic slice, a device entry carries spend and revenue itself. */
  datatype DevicePerformance = DevicePerformance(
    device: string,
    impressions: int,
    clicks: int,
    conversions: int,
    spend: real,
    revenue: real,
    ctr: real,
    conversionRate: real,
    percentageOfTraffic: real)

  /** A regional entry; its region is a free-text city name. */
  datatype RegionalPerformance = RegionalPerformance(
    region: string,
    impressions: int,
    clicks: int,
    conversions: int,
    spend: real,
    revenue: real)

  datatype WeeklyPerformance = WeeklyPerformance(
    weekStart: string,
    weekEnd: string,
    spend: real,
    revenue: real)

  datatype Campaign = Campaign(
    name: string,
    averageOrderValue: real,
    cpa: real,
    demographicBreakdown: seq<DemographicSlice>,
    devicePerformance: seq<DevicePerformance>,
    regionalPerformance: seq<RegionalPerformance>,
    weeklyPerformance: seq<WeeklyPerformance>)

  datatype MarketingData = MarketingData(campaigns: seq<Campaign>)

  /**
   * One bar of a bar chart: its `label` (called `name` here, since `label`
   * is a Dafny keyword) and its `value`; the colour is styling and is not
   * modelled.
   */
  datatype Bar = Bar(name: string, value: real)

  /** `marketingData?.campaigns`, read as an empty list while no data is loaded. */
  function CampaignsOf(data: Option<MarketingData>): (cs: seq<Campaign>)
    ensures data == None ==> cs == []
    ensures data.Some? ==> cs == data.value.campaigns
  {
    match data
    case None => []
    case Some(d) => d.campaigns
  }

  /**
   * JavaScript's `x || 0` on an optional number: a missing value becomes 0.
   * A present 0 is falsy too, and becomes the same 0.
   */
  function OrZero(v: Option<real>): (r: real)
    ensures v == None ==> r == 0.0
    ensures v.Some? ==> r == v.value
  {
    match v
    case None => 0.0
    case Some(x) => x
  }
}
