/**
 * The region view: every campaign's regional entries laid end to end,
 * each extended with coordinates looked up by its exact region name in a
 * static city table (unknown names fall back to (0, 0)), and drawn on the
 * bubble map by revenue.
 */
module Regions {
  import opened Marketing
  import opened Seqs
  import opened BubbleMap

  datatype Coord = Coord(lat: real, lng: real)

  /** `cityCoords`: the seven known cities. */
  const CITY_COORDS: map<string, Coord> := map[
    "Abu Dhabi" := Coord(24.4539, 54.3773),
    "Dubai" := Coord(25.276987, 55.296249),
    "Sharjah" := Coord(25.357964, 55.3913),
    "Riyadh" := Coord(24.7136, 46.6753),
    "Doha" := Coord(25.2854, 51.531),
    "Kuwait City" := Coord(29.3759, 47.9774),
    "Manama" := Coord(26.2235, 50.5876)]

  /** A regional entry spread into a new record, with `lat` and `lng` added. */
  datatype RegionPoint = RegionPoint(
    region: string,
    impressions: int,
    clicks: int,
    conversions: int,
    spend: real,
    revenue: real,
    lat: real,
    lng: real)

  /** `cityCoords[name]?.lat` and `?.lng`: absent for a name not in the table. */
  function LatOf(table: map<string, Coord>, name: string): (lat: Option<real>)
    ensures lat.Some? <==> name in table
    ensures lat.Some? ==> lat.value == table[name].lat
  {
    if name in table then Some(table[name].lat) else None
  }

  function LngOf(table: map<string, Coord>, name: string): (lng: Option<real>)
    ensures lng.Some? <==> name in table
    ensures lng.Some? ==> lng.value == table[name].lng
  {
    if name in table then Some(table[name].lng) else None
  }

  /** The entry a point was spread from: the point without its coordinates. */
  function Entry(p: RegionPoint): RegionalPerformance
  {
    RegionalPerformance(p.region, p.impressions, p.clicks, p.conversions, p.spend, p.revenue)
  }

  /**
   * One entry geocoded: all its fields kept, the table's coordinates for a
   * known name, (0, 0) for any other name.
   */
  function Geocoded(table: map<string, Coord>, r: RegionalPerformance): (p: RegionPoint)
    ensures Entry(p) == r
    ensures r.region in table ==> p.lat == table[r.region].lat && p.lng == table[r.region].lng
    ensures r.region !in table ==> p.lat == 0.0 && p.lng == 0.0
  {
    RegionPoint(r.region, r.impressions, r.clicks, r.conversions, r.spend, r.revenue,
                OrZero(LatOf(table, r.region)), OrZero(LngOf(table, r.region)))
  }

  function RegionLists(cs: seq<Campaign>): seq<seq<RegionalPerformance>>
  {
    seq(|cs|, i requires 0 <= i < |cs| => cs[i].regionalPerformance)
  }

  /** The number of regional entries over all campaigns, counted campaign by campaign. */
  function RegionCount(cs: seq<Campaign>): nat
  {
    if cs == [] then 0 else RegionCount(cs[..|cs| - 1]) + |cs[|cs| - 1].regionalPerformance|
  }

  /** `regions`: the flatMap over the campaigns, each entry geocoded with `table`. */
  function RegionPoints(data: MarketingData, table: map<string, Coord>): (ps: seq<RegionPoint>)
    ensures |ps| == RegionCount(data.campaigns)
  {
    FlattenLength(RegionLists(data.campaigns));
    TotalLengthIsRegionCount(data.campaigns);
    var entries := Flatten(RegionLists(data.campaigns));
    seq(|entries|, k requires 0 <= k < |entries| => Geocoded(table, entries[k]))
  }

  /**
   * `allRegions`, the points the page passes to the map: one per regional
   * entry, each placed at its city's coordinates from the city table, or
   * at (0, 0) for a city not in the table.
   */
  function AllRegions(data: MarketingData): (ps: seq<RegionPoint>)
    ensures |ps| == RegionCount(data.campaigns)
    ensures forall k :: 0 <= k < |ps| && ps[k].region in CITY_COORDS ==>
              ps[k].lat == CITY_COORDS[ps[k].region].lat && ps[k].lng == CITY_COORDS[ps[k].region].lng
    ensures forall k :: 0 <= k < |ps| && ps[k].region !in CITY_COORDS ==> ps[k].lat == 0.0 && ps[k].lng == 0.0
  {
    RegionPoints(data, CITY_COORDS)
  }

  lemma {:induction false} TotalLengthIsRegionCount(cs: seq<Campaign>)
    ensures TotalLength(RegionLists(cs)) == RegionCount(cs)
  {
    if cs != [] {
      var front := cs[..|cs| - 1];
      TotalLengthIsRegionCount(front);
      assert RegionLists(cs) == RegionLists(front) + [cs[|cs| - 1].regionalPerformance];
      FlattenSnoc(RegionLists(front), cs[|cs| - 1].regionalPerformance);
    }
  }

  /**
   * Campaign-then-entry order: entry `j` of campaign `i` is geocoded into
   * the point after all entries of the campaigns before `i` and the
   * first `j` entries of `i`.
   */
  lemma RegionPointAt(data: MarketingData, table: map<string, Coord>, i: int, j: int)
    requires 0 <= i < |data.campaigns| && 0 <= j < |data.campaigns[i].regionalPerformance|
    ensures RegionCount(data.campaigns[..i]) + j < |RegionPoints(data, table)|
    ensures RegionPoints(data, table)[RegionCount(data.campaigns[..i]) + j]
            == Geocoded(table, data.campaigns[i].regionalPerformance[j])
  {
    var cs := data.campaigns;
    FlattenAt(RegionLists(cs), i, j);
    assert RegionLists(cs)[..i] == RegionLists(cs[..i]);
    TotalLengthIsRegionCount(cs[..i]);
  }

  /** Two campaigns with one entry each for the same region give two points. */
  lemma SharedRegionNotMerged(a: Campaign, b: Campaign, table: map<string, Coord>)
    requires |a.regionalPerformance| == 1 && |b.regionalPerformance| == 1
    requires a.regionalPerformance[0].region == b.regionalPerformance[0].region
    ensures var ps := RegionPoints(MarketingData([a, b]), table);
            && |ps| == 2
            && ps[0].region == ps[1].region
            && Entry(ps[0]) == a.regionalPerformance[0] && Entry(ps[1]) == b.regionalPerformance[0]
  {
    var data := MarketingData([a, b]);
    assert data.campaigns[..0] == [] && data.campaigns[..1] == [a];
    RegionPointAt(data, table, 0, 0);
    RegionPointAt(data, table, 1, 0);
  }

  /** A known city gets its table coordinates; the lookup is by exact name, so case matters. */
  lemma CityLookups(r: RegionalPerformance)
    ensures r.region == "Dubai" ==> Geocoded(CITY_COORDS, r).lat == 25.276987 && Geocoded(CITY_COORDS, r).lng == 55.296249
    ensures r.region == "Kuwait City" ==> Geocoded(CITY_COORDS, r).lat == 29.3759 && Geocoded(CITY_COORDS, r).lng == 47.9774
    ensures r.region == "dubai" ==> Geocoded(CITY_COORDS, r).lat == 0.0 && Geocoded(CITY_COORDS, r).lng == 0.0
    ensures r.region == "Cairo" ==> Geocoded(CITY_COORDS, r).lat == 0.0 && Geocoded(CITY_COORDS, r).lng == 0.0
  {
    assert "dubai" !in CITY_COORDS by {
      assert "dubai"[0] != "Dubai"[0];
    }
  }

  /** The point as a bubble-map item: its coordinates and its numeric fields by name. */
  function MapItemOf(p: RegionPoint): (item: MapItem)
    ensures item.lat == p.lat && item.lng == p.lng
    ensures item.fields.Keys == {"impressions", "clicks", "conversions", "spend", "revenue"}
    ensures item.fields["revenue"] == p.revenue && item.fields["spend"] == p.spend
    ensures item.fields["clicks"] == p.clicks as real
  {
    MapItem(p.lat, p.lng, map[
      "impressions" := p.impressions as real,
      "clicks" := p.clicks as real,
      "conversions" := p.conversions as real,
      "spend" := p.spend,
      "revenue" := p.revenue])
  }

  /** The map is shown only when there is at least one point; its items follow the points. */
  function RegionMap(data: MarketingData): (items: Option<seq<MapItem>>)
    ensures items.Some? <==> RegionCount(data.campaigns) > 0
    ensures items.Some? ==> |items.value| == |AllRegions(data)|
    ensures items.Some? ==> forall k :: 0 <= k < |items.value| ==> items.value[k] == MapItemOf(AllRegions(data)[k])
  {
    var ps := AllRegions(data);
    if |ps| > 0 then Some(seq(|ps|, k requires 0 <= k < |ps| => MapItemOf(ps[k]))) else None
  }

  /** The map, when shown, has one circle per point, coloured by that point's revenue. */
  lemma RegionColorsByRevenue(data: MarketingData)
    ensures RegionMap(data).Some? <==> AllRegions(data) != []
    ensures RegionMap(data).Some? ==>
            var colors := CircleColors(RegionMap(data).value, "revenue");
            |colors| == |AllRegions(data)| &&
            forall k :: 0 <= k < |colors| ==> colors[k] == GetColor(AllRegions(data)[k].revenue)
  {
  }

  /**
   * When the map is shown it is centred on the first regional entry of the
   * first campaign that has one, geocoded.
   */
  lemma RegionMapCenter(data: MarketingData, i: int)
    requires 0 <= i < |data.campaigns| && data.campaigns[i].regionalPerformance != []
    requires forall h :: 0 <= h < i ==> data.campaigns[h].regionalPerformance == []
    ensures RegionMap(data).Some?
    ensures var first := Geocoded(CITY_COORDS, data.campaigns[i].regionalPerformance[0]);
            Center(RegionMap(data).value) == (first.lat, first.lng)
  {
    var cs := data.campaigns;
    TotalLengthZero(RegionLists(cs[..i]));
    TotalLengthIsRegionCount(cs[..i]);
    RegionPointAt(data, CITY_COORDS, i, 0);
  }
}
