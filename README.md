# Marketing dashboard aggregation, in Dafny

This project models the aggregation and transform layer of the amana-marketing
dashboard. The dashboard fetches one `MarketingData` record, a list of
campaigns. Each campaign owns demographic slices, device entries, regional
entries and weekly entries. The page components turn these into chart-ready
summaries:

- **Demographic view** (`Demographics`):
  - per-gender totals of clicks, derived spend and derived revenue. A slice
    records no money: its spend is its conversions times the owning campaign's
    `cpa`, and its revenue is its conversions times the owning campaign's
    `average_order_value`;
  - the per-age-group spend and revenue pivots. Groups are keyed dynamically
    and come out in first-observed order;
  - the per-gender table rows.
- **Device view** (`Devices`): a closed table of two buckets, Mobile and
  Desktop. It starts at zero and is updated in place by summing the entries
  whose device is one of the two buckets. The table is then read out as two
  ordered bar series.
- **Weekly view** (`Weekly`): all weekly entries end to end, each labelled
  with its week range. Entries are not grouped by week.
- **Region view** (`Regions`): all regional entries end to end, each given
  coordinates by exact-name lookup in a static city table. Unknown names get
  (0, 0).
- **Bubble map** (`BubbleMap`): the three-band colour threshold and the
  choice of map centre.

`Marketing` holds the data model. `Seqs` holds the flattening of nested
sequences, which is the shape of the `flatMap` over campaigns.

The source computes the demographic and device aggregates with accumulators
inside nested `forEach` loops. These are modelled as methods with `while`
loops. Each method is proved equal to a reference function over the
flattened input:

- `OwnedSlices(cs)` for the demographic methods: every slice paired with its
  owning campaign, in campaign-then-slice order;
- `DeviceSum(cs, device)` for the device method.

The lemmas then prove the promised properties about those functions. The
weekly, region and bubble-map code is a `map`/`flatMap` or a conditional, and
is modelled as functions.

Points of the code worth noting:

- The weekly label puts `" - "` between the week start and the week end.
- The region view computes no per-region totals. It only flattens and
  geocodes the entries.
- The demographic and device aggregates are accumulator loops.

## Model

| member | source | states |
|---|---|---|
| Demographics.OwnedSliceAt | app/demographic-view/page.tsx:35-42 | Slice j of campaign i sits at position (slices before campaign i) + j of the flattened slices, paired with campaign i. Its derived spend and revenue use campaign i's own cpa and average order value. |
| Demographics.OwnedSlicesOwners | app/demographic-view/page.tsx:35-42 | Every paired slice belongs to its paired campaign, and that campaign is one of the inputs. |
| Demographics.WithGenderMembers | app/demographic-view/page.tsx:37 | The gender filter keeps a slice exactly when the slice's gender is one of the chosen genders (both directions). |
| Demographics.GenderSplit | app/demographic-view/page.tsx:31-61 | For disjoint gender sets, the two totals add up to the total over their union: no slice is counted twice or left out. |
| Demographics.MaleFemalePartition | app/demographic-view/page.tsx:31-61 | Male totals plus female totals equal the totals over exactly the Male and Female slices. A slice of any other gender is in neither. |
| Demographics.MaleFemaleCoverAll | app/demographic-view/page.tsx:31-61 | When every slice is Male or Female, male plus female totals equal the totals over all slices of all campaigns. |
| Demographics.GenderStep | app/demographic-view/page.tsx:38-42 | One pass of the inner loop: the totals grow by the slice's clicks, derived spend and derived revenue exactly when the slice has the chosen gender, and are unchanged otherwise. |
| Demographics.AddSlice | app/demographic-view/page.tsx:39-41 | The three `+=` of the inner loop add exactly one slice's clicks, derived spend and derived revenue. |
| Demographics.GenderMetrics | app/demographic-view/page.tsx:31-61 | The nested loops return the clicks, derived spend and derived revenue summed over exactly the slices of the given gender, across all campaigns. |
| Demographics.AgeGroupsDistinct | app/demographic-view/page.tsx:63-76 | The pivot's age groups are pairwise distinct. |
| Demographics.AgeGroupsMembers | app/demographic-view/page.tsx:63-76 | An age group is in the pivot exactly when some slice of some campaign has it (both directions). |
| Demographics.AgeGroupsPrefix | app/demographic-view/page.tsx:63-76 | First-observed order: the groups seen in any prefix of the slices are a prefix of the final group order. |
| Demographics.GroupTotalUnseen | app/demographic-view/page.tsx:67-68 | A group that was never observed totals zero. |
| Demographics.PivotSum | app/demographic-view/page.tsx:66-69 | The pivot's bar values add up to the derived spend (revenue) over all the slices: each slice lands in exactly one group. |
| Demographics.PivotTotal | app/demographic-view/page.tsx:63-92 | The same sum property for the pivot over all campaigns. |
| Demographics.GroupsMatchKnown | app/demographic-view/page.tsx:67-68 | A slice of a group already in the record adds its amount to that group's entry. The key order and the other groups keep matching the reference. |
| Demographics.GroupsMatchNew | app/demographic-view/page.tsx:67-68 | A slice of a new group creates the entry at 0, adds its amount, and puts the group last in the key order. |
| Demographics.RecordSlice | app/demographic-view/page.tsx:66-69 | The inner callback keeps the keyed record and its insertion order equal to the reference pivot over the slices seen, with one more slice. |
| Demographics.GroupsMatchPivot | app/demographic-view/page.tsx:71-75 | Reading the record out in key-insertion order gives one bar per group, valued by that group's total. |
| Demographics.AgeGroupPivot | app/demographic-view/page.tsx:63-92 | The loops return the reference pivot: one bar per distinct observed age group, in first-observed order, valued by the group's derived spend or revenue over all genders. |
| Demographics.NoSlicesNoTotals | app/demographic-view/page.tsx:31-92 | With no campaigns, or only campaigns without slices, the gender totals are all zero and both pivots are empty. |
| Demographics.TableDataByGender | app/demographic-view/page.tsx:94-112 | Returns one row per slice of the given gender, in campaign-then-slice order. Each row copies the campaign name and the slice's age group, counts and stored rates. |
| Demographics.SingleCampaignExample | app/demographic-view/page.tsx:35-42 | One campaign (cpa 10, average order value 50) with one Male slice (100 clicks, 5 conversions) gives Male totals of 100 clicks, spend 50 and revenue 250. |
| Devices.Accumulate | app/device-view/page.tsx:42-46 | The five in-place `+=` on one bucket are adding the entry's contribution (its five summed fields, zero rates); the bucket's rates are unchanged. |
| Devices.SumByPermutation | app/device-view/page.tsx:39-49 | A sum of bucket contributions does not depend on the order of the summed elements. |
| Devices.CampaignOrderIrrelevant | app/device-view/page.tsx:39-49 | Reordering the campaigns does not change any device's totals. |
| Devices.EntryOrderIrrelevant | app/device-view/page.tsx:39-49 | Reordering the device entries inside each campaign does not change any device's totals. |
| Devices.DeviceSumIsDirect | app/device-view/page.tsx:39-49 | The campaign-by-campaign totals equal the direct sums over all device entries of all campaigns. |
| Devices.OtherDevicesIgnored | app/device-view/page.tsx:41 | Entries with any other device name leave a bucket unchanged. |
| Devices.DeviceRatesStayZero | app/device-view/page.tsx:35-46 | ctr, conversion rate and percentage of traffic are never accumulated, so they stay zero in every bucket. |
| Devices.NoEntriesAllZero | app/device-view/page.tsx:34-39 | With no campaigns, or only campaigns without device entries, a bucket stays all-zero. |
| Devices.EntryStep | app/device-view/page.tsx:41-46 | Adding an entry's share is the page's five in-place `+=` when the device names match, and no change otherwise. |
| Devices.BucketStep | app/device-view/page.tsx:41-47 | An entry of a known device updates only its own bucket. The table keeps exactly the two keys. |
| Devices.BucketUpdate | app/device-view/page.tsx:41-47 | After an entry, each bucket equals its reference sum over the entries seen. |
| Devices.CampaignStep | app/device-view/page.tsx:39-40 | A campaign adds the sum of its own entries to each bucket. |
| Devices.DeviceMetrics | app/device-view/page.tsx:33-52 | The table has exactly the keys Mobile and Desktop, starting at zero. Each bucket ends with the direct sums of impressions, clicks, conversions, spend and revenue over the entries with exactly that device name. Missing data leaves both buckets at zero. |
| Devices.RevenueByDevice | app/device-view/page.tsx:54-59 | Exactly two bars, Mobile then Desktop, each valued by that bucket's revenue. |
| Devices.SpendByDevice | app/device-view/page.tsx:61-66 | Exactly two bars, Mobile then Desktop, each valued by that bucket's spend. |
| Marketing.CampaignsOf | app/weekly-view/page.tsx:63-64 | `marketingData?.campaigns`: the campaigns of the loaded data, or no campaigns while nothing is loaded. The device view reads them the same way (app/device-view/page.tsx:39). |
| Marketing.OrZero | app/region-view/page.tsx:42-43 | The page's fallback to 0 on an optional number: a missing value becomes 0, a present value is kept. |
| Weekly.WeeklyData | app/weekly-view/page.tsx:63-64 | `weeklyData`, the flatMap over the campaigns: as many entries as all campaigns have weekly entries, and none without data. |
| Weekly.PointOf | app/weekly-view/page.tsx:66-70 | One chart point: the entry's week label, with its spend and revenue copied unchanged. |
| Weekly.ChartData | app/weekly-view/page.tsx:66-70 | `chartData`: one point per entry, in the same order, each with the entry's label, spend and revenue. |
| Weekly.WeeklyChart | app/weekly-view/page.tsx:63-70 | The series the line charts draw: one point per weekly entry of every campaign, and no points without data. |
| Weekly.WeekLabel | app/weekly-view/page.tsx:67 | The label is the week start, then `" - "`, then the week end. Length and all three parts are stated. |
| Weekly.TotalLengthIsWeekCount | app/weekly-view/page.tsx:63-64 | The flatMap's block lengths add up to the campaign-by-campaign count of weekly entries. |
| Weekly.WeeklyPointAt | app/weekly-view/page.tsx:63-70 | Campaign-then-week order: week j of campaign i is the point after all weeks of earlier campaigns and the first j weeks of i. Its label is its range, and its spend and revenue are copied. |
| Weekly.EmptyWeeklySeries | app/weekly-view/page.tsx:63-64 | The series is empty exactly when no campaign has a weekly entry (both directions). In particular it is empty with no data. |
| Weekly.SameWeekNotGrouped | app/weekly-view/page.tsx:63-70 | Two campaigns reporting the same week give two points with equal labels, each with its own campaign's amounts. |
| Regions.LatOf | app/region-view/page.tsx:42 | `cityCoords[name]?.lat`: present exactly when the name is in the table, and then the table's latitude. |
| Regions.LngOf | app/region-view/page.tsx:43 | `cityCoords[name]?.lng`: present exactly when the name is in the table, and then the table's longitude. |
| Regions.Geocoded | app/region-view/page.tsx:40-44 | A point keeps every field of its entry. A name in the city table gets exactly the table's lat and lng; any other name gets (0, 0). |
| Regions.TotalLengthIsRegionCount | app/region-view/page.tsx:39-45 | The flatMap's block lengths add up to the count of regional entries. |
| Regions.RegionPoints | app/region-view/page.tsx:39-45 | The flatMap-and-geocode join with a given table: one point per regional entry of every campaign. |
| Regions.AllRegions | app/region-view/page.tsx:22-45 | `regions` with the page's city table: one point per regional entry; a point of a listed city has that city's coordinates, any other point has (0, 0). |
| Regions.RegionPointAt | app/region-view/page.tsx:39-45 | Campaign-then-entry order: entry j of campaign i becomes the geocoded point after all entries of earlier campaigns and the first j entries of i. |
| Regions.SharedRegionNotMerged | app/region-view/page.tsx:39-45 | Two campaigns with an entry for the same region give two points, each with its own entry. |
| Regions.CityLookups | app/region-view/page.tsx:22-31 | Dubai and Kuwait City get their table coordinates. A differently-cased name ("dubai") and an unknown city get (0, 0). |
| Regions.MapItemOf | app/region-view/page.tsx:95 | A point handed to the map keeps its coordinates and offers its numeric fields by name, with `revenue` and `spend` copied. |
| Regions.RegionMap | app/region-view/page.tsx:94-95 | The map is shown exactly when there is at least one regional entry; its items are the points, in order. |
| Regions.RegionColorsByRevenue | app/region-view/page.tsx:94-95 | The map is shown exactly when there is at least one point. Its circles, one per point, are coloured by that point's revenue. |
| Regions.RegionMapCenter | app/region-view/page.tsx:39-45 | When shown, the map is centred on the geocoded first entry of the first campaign that has a regional entry. |
| BubbleMap.GetColor | src/components/ui/BubbleMap.tsx:22-26 | Red exactly when the value is > 20000. Yellow exactly when it is in (10000, 20000]. Green exactly when it is <= 10000. |
| BubbleMap.BandsPartition | src/components/ui/BubbleMap.tsx:22-26 | Every value gets one of three pairwise-different colours. |
| BubbleMap.GetColorMonotone | src/components/ui/BubbleMap.tsx:22-26 | A larger value never gets a cooler band. |
| BubbleMap.ValueOf | src/components/ui/BubbleMap.tsx:44-45 | The metric is the item's field of that name, or 0 when the item has no such field. |
| BubbleMap.CircleColors | src/components/ui/BubbleMap.tsx:40-53 | One colour per item, in item order, banded from the item's metric. |
| BubbleMap.MissingOrZeroIsGreen | src/components/ui/BubbleMap.tsx:44-45 | A missing or zero metric is read as 0 and drawn green. |
| BubbleMap.Center | src/components/ui/BubbleMap.tsx:16-17 | The centre is the first item's (lat, lng), or (0, 0) with no items. |

## Left out

- React state, effects and memoisation, and the loading and error branches of every page. They only decide when the aggregates are computed.
- `fetchMarketingData` and the dataset's type module: asynchronous I/O outside the core. The data is a parameter, and `Option` models "not loaded yet".
- All rendering: navbar, footer, metric cards, bar and line charts, tables, and the Leaflet map, tiles and circles. `src/components/ui/line-chart.tsx` is not part of this model.
- Bar colours, `toFixed` and `toLocaleString` formatting: styling and float-to-text conversion.
- `getRadius` (`Math.sqrt(value) * 400`): floating-point square root.
- Floating-point arithmetic. Counts are unbounded integers, and money, rates and coordinates are exact reals, so IEEE-754 rounding of the sums is not modelled. NaN, which `|| 0` would also map to 0, is not modelled either.
- JavaScript object key order. `Object.entries` lists integer-like keys first; the pivot is an insertion-ordered record.
- Devices.DeviceMetrics, Demographics.AgeGroupPivot: prototype keys are not modelled. In JavaScript a device such as `"toString"` passes the `metrics[perf.device]` guard. In the age-group record, a group `"toString"` is never set to 0, so `+=` turns its value into text, and a group `"__proto__"` never becomes an entry. In the model the device table's keys are exactly Mobile and Desktop, and every age group is an ordinary key.
- Demographics.AgeGroupPivot: `if (!ageGroups[k]) ageGroups[k] = 0` also resets a present 0. That changes nothing, so it is modelled as "insert when absent".
- Regions.RegionPoint: the regional records may carry fields beyond the six listed, but the dataset's type module is not part of this model. The spread copies the six modelled fields.
- Regions.RegionPoints: the region view reads `data.campaigns` where `data` is the successful fetch result, so it takes a loaded dataset and has no "not loaded" case.
- Regions.MapItemOf: the region view passes its points to the map with `valueKey="revenue"`. Only the numeric fields are carried into a map item; the `labelKey` field is used only in a commented-out tooltip.
- Grouping weekly entries by week and recomputing rates from summed counts: the code does neither.
