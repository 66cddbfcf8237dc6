/**
 * The device view: a closed table of two device buckets, Mobile and
 * Desktop, that starts at zero and is updated in place by summing the
 * device entries of every campaign, followed by the revenue and spend bar
 * series read from it.
 */
module Devices {
  import opened Marketing
  import opened Seqs

  /** A device entry without its device name, used as the running totals of one bucket. */
  datatype DeviceTotals = DeviceTotals(
    impressions: int,
    clicks: int,
    conversions: int,
    spend: real,
    revenue: real,
    ctr: real,
    conversionRate: real,
    percentageOfTraffic: real)

  const ZERO := DeviceTotals(0, 0, 0, 0.0, 0.0, 0.0, 0.0, 0.0)

  /** The fixed bucket set; any other device name is dropped. */
  const KNOWN_DEVICES: set<string> := {"Mobile", "Desktop"}

  function Plus(a: DeviceTotals, b: DeviceTotals): DeviceTotals
  {
    DeviceTotals(
      a.impressions + b.impressions, a.clicks + b.clicks, a.conversions + b.conversions,
      a.spend + b.spend, a.revenue + b.revenue,
      a.ctr + b.ctr, a.conversionRate + b.conversionRate, a.percentageOfTraffic + b.percentageOfTraffic)
  }

  lemma PlusAssociative(a: DeviceTotals, b: DeviceTotals, c: DeviceTotals)
    ensures Plus(a, Plus(b, c)) == Plus(Plus(a, b), c)
  {
  }

  /** What one entry adds to its bucket: the five summed fields; the rates are not summed. */
  function Contribution(e: DevicePerformance): DeviceTotals
  {
    DeviceTotals(e.impressions, e.clicks, e.conversions, e.spend, e.revenue, 0.0, 0.0, 0.0)
  }

  /** The in-place update of one bucket: five `+=` on the summed fields. */
  function Accumulate(t: DeviceTotals, e: DevicePerformance): (r: DeviceTotals)
    ensures r == Plus(t, Contribution(e))
    ensures r.ctr == t.ctr && r.conversionRate == t.conversionRate && r.percentageOfTraffic == t.percentageOfTraffic
  {
    t.(impressions := t.impressions + e.impressions,
       clicks := t.clicks + e.clicks,
       conversions := t.conversions + e.conversions,
       spend := t.spend + e.spend,
       revenue := t.revenue + e.revenue)
  }

  /** `f` summed over `s` with `Plus`, from `ZERO`. */
  function SumBy<T>(s: seq<T>, f: T -> DeviceTotals): DeviceTotals
  {
    if s == [] then ZERO else Plus(SumBy(s[..|s| - 1], f), f(s[|s| - 1]))
  }

  /** An entry's contribution to the bucket of `device`: nothing unless the names match exactly. */
  function EntryShare(device: string): DevicePerformance -> DeviceTotals
  {
    (e: DevicePerformance) => if e.device == device then Contribution(e) else ZERO
  }

  /** The totals of one device over a list of entries. */
  function EntrySum(entries: seq<DevicePerformance>, device: string): DeviceTotals
  {
    SumBy(entries, EntryShare(device))
  }

  function CampaignShare(device: string): Campaign -> DeviceTotals
  {
    (c: Campaign) => EntrySum(c.devicePerformance, device)
  }

  /** The totals of one device over all campaigns, campaign by campaign. */
  function DeviceSum(cs: seq<Campaign>, device: string): DeviceTotals
  {
    SumBy(cs, CampaignShare(device))
  }

  /** Every device entry of every campaign, in campaign-then-entry order. */
  function DeviceEntries(cs: seq<Campaign>): seq<DevicePerformance>
  {
    Flatten(seq(|cs|, i requires 0 <= i < |cs| => cs[i].devicePerformance))
  }

  lemma SumBySnoc<T>(s: seq<T>, x: T, f: T -> DeviceTotals)
    ensures SumBy(s + [x], f) == Plus(SumBy(s, f), f(x))
  {
    assert (s + [x])[..|s|] == s;
  }

  lemma {:induction false} SumByAppend<T>(a: seq<T>, b: seq<T>, f: T -> DeviceTotals)
    ensures SumBy(a + b, f) == Plus(SumBy(a, f), SumBy(b, f))
    decreases |b|
  {
    if b == [] {
      assert a + b == a;
    } else {
      var front, last := b[..|b| - 1], b[|b| - 1];
      assert a + b == (a + front) + [last];
      assert b == front + [last];
      SumBySnoc(a + front, last, f);
      SumBySnoc(front, last, f);
      SumByAppend(a, front, f);
    }
  }

  lemma MultisetRemove<T>(s: seq<T>, t: seq<T>, k: int)
    requires multiset(s) == multiset(t) && s != [] && 0 <= k < |t| && t[k] == s[|s| - 1]
    ensures multiset(t[..k] + t[k + 1..]) == multiset(s[..|s| - 1])
  {
    var front, x := s[..|s| - 1], s[|s| - 1];
    var before, after := t[..k], t[k + 1..];
    assert s == front + [x];
    assert t == before + [x] + after;
    assert multiset(t) == multiset(before) + multiset([x]) + multiset(after);
    assert multiset(s) == multiset(front) + multiset([x]);
    assert multiset(before + after) == multiset(before) + multiset(after);
    assert multiset(front) == multiset(s) - multiset([x]);
    assert multiset(before + after) == multiset(t) - multiset([x]);
  }

  lemma PlusSwap(a: DeviceTotals, b: DeviceTotals, c: DeviceTotals)
    ensures Plus(Plus(a, b), c) == Plus(Plus(a, c), b)
  {
  }

  /** Sums do not depend on order: two lists with the same elements have the same sum. */
  lemma {:induction false} SumByPermutation<T>(s: seq<T>, t: seq<T>, f: T -> DeviceTotals)
    requires multiset(s) == multiset(t)
    ensures SumBy(s, f) == SumBy(t, f)
    decreases |s|
  {
    if s == [] {
      assert |t| == |multiset(t)| == 0;
    } else {
      var front, x := s[..|s| - 1], s[|s| - 1];
      assert s == front + [x];
      assert x in multiset(t);
      var k :| 0 <= k < |t| && t[k] == x;
      var before, after := t[..k], t[k + 1..];
      assert t == (before + [x]) + after;
      MultisetRemove(s, t, k);
      SumByPermutation(front, before + after, f);
      SumBySnoc(front, x, f);
      SumByAppend(before, after, f);
      SumByAppend(before + [x], after, f);
      SumBySnoc(before, x, f);
      PlusSwap(SumBy(before, f), f(x), SumBy(after, f));
    }
  }

  /** Sums of two lists that agree position by position are equal. */
  lemma {:induction false} SumByPointwise<T>(s: seq<T>, t: seq<T>, f: T -> DeviceTotals)
    requires |s| == |t|
    requires forall k :: 0 <= k < |s| ==> f(s[k]) == f(t[k])
    ensures SumBy(s, f) == SumBy(t, f)
  {
    if s != [] {
      SumByPointwise(s[..|s| - 1], t[..|t| - 1], f);
    }
  }

  /** A sum of terms with zero rates has zero rates. */
  lemma {:induction false} SumByRatesZero<T>(s: seq<T>, f: T -> DeviceTotals)
    requires forall x :: f(x).ctr == 0.0 && f(x).conversionRate == 0.0 && f(x).percentageOfTraffic == 0.0
    ensures SumBy(s, f).ctr == 0.0 && SumBy(s, f).conversionRate == 0.0 && SumBy(s, f).percentageOfTraffic == 0.0
  {
    if s != [] {
      SumByRatesZero(s[..|s| - 1], f);
    }
  }

  /**
   * `ctr`, `conversion_rate` and `percentage_of_traffic` are never
   * accumulated: they stay zero in every bucket.
   */
  lemma DeviceRatesStayZero(cs: seq<Campaign>, device: string)
    ensures DeviceSum(cs, device).ctr == 0.0
    ensures DeviceSum(cs, device).conversionRate == 0.0
    ensures DeviceSum(cs, device).percentageOfTraffic == 0.0
  {
    forall c: Campaign
      ensures CampaignShare(device)(c).ctr == 0.0 && CampaignShare(device)(c).conversionRate == 0.0
           && CampaignShare(device)(c).percentageOfTraffic == 0.0
    {
      SumByRatesZero(c.devicePerformance, EntryShare(device));
    }
    SumByRatesZero(cs, CampaignShare(device));
  }

  /** Reordering the campaigns does not change any device's totals. */
  lemma CampaignOrderIrrelevant(cs: seq<Campaign>, reordered: seq<Campaign>, device: string)
    requires multiset(cs) == multiset(reordered)
    ensures DeviceSum(cs, device) == DeviceSum(reordered, device)
  {
    SumByPermutation(cs, reordered, CampaignShare(device));
  }

  /**
   * Reordering the entries inside each campaign does not change any
   * device's totals.
   */
  lemma EntryOrderIrrelevant(cs: seq<Campaign>, reordered: seq<Campaign>, device: string)
    requires |cs| == |reordered|
    requires forall i :: 0 <= i < |cs| ==> multiset(cs[i].devicePerformance) == multiset(reordered[i].devicePerformance)
    ensures DeviceSum(cs, device) == DeviceSum(reordered, device)
  {
    forall k | 0 <= k < |cs|
      ensures CampaignShare(device)(cs[k]) == CampaignShare(device)(reordered[k])
    {
      SumByPermutation(cs[k].devicePerformance, reordered[k].devicePerformance, EntryShare(device));
    }
    SumByPointwise(cs, reordered, CampaignShare(device));
  }

  /**
   * The campaign-by-campaign totals are the direct sums over all device
   * entries of all campaigns.
   */
  lemma {:induction false} DeviceSumIsDirect(cs: seq<Campaign>, device: string)
    ensures DeviceSum(cs, device) == EntrySum(DeviceEntries(cs), device)
  {
    if cs != [] {
      var front, last := cs[..|cs| - 1], cs[|cs| - 1];
      DeviceSumIsDirect(front, device);
      var blocks := seq(|cs|, i requires 0 <= i < |cs| => cs[i].devicePerformance);
      var frontBlocks := seq(|front|, i requires 0 <= i < |front| => front[i].devicePerformance);
      assert blocks == frontBlocks + [last.devicePerformance];
      FlattenSnoc(frontBlocks, last.devicePerformance);
      SumByAppend(DeviceEntries(front), last.devicePerformance, EntryShare(device));
    }
  }

  /** Entries of other devices (or of no known device) leave a bucket unchanged. */
  lemma {:induction false} OtherDevicesIgnored(entries: seq<DevicePerformance>, others: seq<DevicePerformance>, device: string)
    requires forall k :: 0 <= k < |others| ==> others[k].device != device
    ensures EntrySum(entries + others, device) == EntrySum(entries, device)
  {
    if others == [] {
      assert entries + others == entries;
    } else {
      var front, last := others[..|others| - 1], others[|others| - 1];
      assert entries + others == (entries + front) + [last];
      OtherDevicesIgnored(entries, front, device);
      SumBySnoc(entries + front, last, EntryShare(device));
    }
  }

  /** With no data, or only campaigns without device entries, both buckets stay zero. */
  lemma {:induction false} NoEntriesAllZero(cs: seq<Campaign>, device: string)
    requires forall i :: 0 <= i < |cs| ==> cs[i].devicePerformance == []
    ensures DeviceSum(cs, device) == ZERO
  {
    if cs != [] {
      var front, last := cs[..|cs| - 1], cs[|cs| - 1];
      NoEntriesAllZero(front, device);
      assert last.devicePerformance == [];
      assert CampaignShare(device)(last) == EntrySum([], device) == ZERO;
      assert DeviceSum(cs, device) == Plus(DeviceSum(front, device), CampaignShare(device)(last));
    }
  }

  /** Adding an entry's share is the page's in-place update, or nothing for another device. */
  lemma EntryStep(sum: DeviceTotals, e: DevicePerformance, device: string)
    ensures Plus(sum, EntryShare(device)(e)) == if e.device == device then Accumulate(sum, e) else sum
  {
  }

  /** The record holds exactly the two buckets, with these totals. */
  ghost predicate BucketsAre(metrics: map<string, DeviceTotals>, mobile: DeviceTotals, desktop: DeviceTotals)
  {
    metrics.Keys == KNOWN_DEVICES && metrics["Mobile"] == mobile && metrics["Desktop"] == desktop
  }

  /** One entry updates the record as the page does: only the bucket named by the entry changes. */
  lemma BucketStep(metrics: map<string, DeviceTotals>, mobile: DeviceTotals, desktop: DeviceTotals, e: DevicePerformance)
    requires BucketsAre(metrics, mobile, desktop)
    ensures BucketsAre(if e.device in metrics then metrics[e.device := Accumulate(metrics[e.device], e)] else metrics,
                       if e.device == "Mobile" then Accumulate(mobile, e) else mobile,
                       if e.device == "Desktop" then Accumulate(desktop, e) else desktop)
  {
  }

  lemma BucketUpdate(bucket: DeviceTotals, prior: DeviceTotals, entries: seq<DevicePerformance>, e: DevicePerformance, device: string)
    requires bucket == Plus(prior, EntrySum(entries, device))
    ensures (if e.device == device then Accumulate(bucket, e) else bucket) == Plus(prior, EntrySum(entries + [e], device))
  {
    var q := EntrySum(entries, device);
    SumBySnoc(entries, e, EntryShare(device));
    assert EntrySum(entries + [e], device) == Plus(q, EntryShare(device)(e));
    PlusAssociative(prior, q, EntryShare(device)(e));
    EntryStep(bucket, e, device);
  }

  lemma CampaignStep(cs: seq<Campaign>, i: int, device: string)
    requires 0 <= i < |cs|
    ensures DeviceSum(cs[..i + 1], device) == Plus(DeviceSum(cs[..i], device), EntrySum(cs[i].devicePerformance, device))
  {
    assert cs[..i + 1] == cs[..i] + [cs[i]];
    SumBySnoc(cs[..i], cs[i], CampaignShare(device));
  }

  /**
   * `deviceMetrics`: the record starts with exactly the Mobile and Desktop
   * buckets at zero; each device entry of each campaign whose name is a
   * bucket key is added into that bucket in place.
   */
  method DeviceMetrics(data: Option<MarketingData>) returns (metrics: map<string, DeviceTotals>)
    ensures metrics.Keys == KNOWN_DEVICES
    ensures forall device :: device in KNOWN_DEVICES ==> metrics[device] == DeviceSum(CampaignsOf(data), device)
  {
    metrics := map["Mobile" := ZERO, "Desktop" := ZERO];
    var campaigns := CampaignsOf(data);
    assert campaigns[..0] == [];
    var i := 0;
    while i < |campaigns|
      invariant 0 <= i <= |campaigns|
      invariant BucketsAre(metrics, DeviceSum(campaigns[..i], "Mobile"), DeviceSum(campaigns[..i], "Desktop"))
    {
      var entries := campaigns[i].devicePerformance;
      var j := 0;
      while j < |entries|
        invariant 0 <= j <= |entries|
        invariant BucketsAre(metrics,
                             Plus(DeviceSum(campaigns[..i], "Mobile"), EntrySum(entries[..j], "Mobile")),
                             Plus(DeviceSum(campaigns[..i], "Desktop"), EntrySum(entries[..j], "Desktop")))
      {
        var perf := entries[j];
        BucketStep(metrics, metrics["Mobile"], metrics["Desktop"], perf);
        BucketUpdate(metrics["Mobile"], DeviceSum(campaigns[..i], "Mobile"), entries[..j], perf, "Mobile");
        BucketUpdate(metrics["Desktop"], DeviceSum(campaigns[..i], "Desktop"), entries[..j], perf, "Desktop");
        if perf.device in metrics {
          metrics := metrics[perf.device := Accumulate(metrics[perf.device], perf)];
        }
        assert entries[..j + 1] == entries[..j] + [perf];
        j := j + 1;
      }
      assert entries[..j] == entries;
      CampaignStep(campaigns, i, "Mobile");
      CampaignStep(campaigns, i, "Desktop");
      i := i + 1;
    }
    assert campaigns[..i] == campaigns;
  }

  /**
   * `revenueByDevice`: two bars, Mobile then Desktop, each valued by that
   * bucket's revenue.
   */
  function RevenueByDevice(metrics: map<string, DeviceTotals>): (bars: seq<Bar>)
    requires KNOWN_DEVICES <= metrics.Keys
    ensures |bars| == 2 && bars[0].name == "Mobile" && bars[1].name == "Desktop"
    ensures forall k :: 0 <= k < |bars| ==> bars[k].name in metrics && bars[k].value == metrics[bars[k].name].revenue
  {
    [Bar("Mobile", metrics["Mobile"].revenue), Bar("Desktop", metrics["Desktop"].revenue)]
  }

  /**
   * `spendByDevice`: two bars, Mobile then Desktop, each valued by that
   * bucket's spend.
   */
  function SpendByDevice(metrics: map<string, DeviceTotals>): (bars: seq<Bar>)
    requires KNOWN_DEVICES <= metrics.Keys
    ensures |bars| == 2 && bars[0].name == "Mobile" && bars[1].name == "Desktop"
    ensures forall k :: 0 <= k < |bars| ==> bars[k].name in metrics && bars[k].value == metrics[bars[k].name].spend
  {
    [Bar("Mobile", metrics["Mobile"].spend), Bar("Desktop", metrics["Desktop"].spend)]
  }
}
