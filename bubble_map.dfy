/**
 * The bubble map: one circle per data item, coloured by a three-band
 * threshold on the item's chosen metric, with the map centred on the
 * first item.
 */
module BubbleMap {
  import opened Marketing

  const RED := "rgba(239, 68, 68, 0.6)"
  const YELLOW := "rgba(234, 179, 8, 0.6)"
  const GREEN := "rgba(16, 185, 129, 0.6)"

  /**
   * A map item: its coordinates, and by name every other numeric field
   * (every key except `lat` and `lng`); the metric to draw is picked by
   * key, and a missing key reads as absent. Picking `lat` or `lng` itself
   * as the metric is not modelled.
   */
  datatype MapItem = MapItem(lat: real, lng: real, fields: map<string, real>)

  /** `getColor`: above 20000 red, above 10000 yellow, otherwise green. */
  function GetColor(value: real): (color: string)
    ensures color == RED <==> value > 20000.0
    ensures color == YELLOW <==> 10000.0 < value <= 20000.0
    ensures color == GREEN <==> value <= 10000.0
  {
    if value > 20000.0 then RED
    else if value > 10000.0 then YELLOW
    else GREEN
  }

  /** The three bands partition the values: every value gets exactly one of the three colours. */
  lemma BandsPartition(value: real)
    ensures GetColor(value) in {RED, YELLOW, GREEN}
    ensures RED != YELLOW && YELLOW != GREEN && RED != GREEN
  {
  }

  /** The colour only gets hotter as the value grows. */
  lemma GetColorMonotone(x: real, y: real)
    requires x <= y
    ensures GetColor(x) == RED ==> GetColor(y) == RED
    ensures GetColor(x) == YELLOW ==> GetColor(y) != GREEN
  {
  }

  /** `item[valueKey] || 0`: the named field, or 0 when the item has no such field. */
  function ValueOf(item: MapItem, valueKey: string): (v: real)
    ensures valueKey !in item.fields ==> v == 0.0
    ensures valueKey in item.fields ==> v == item.fields[valueKey]
  {
    OrZero(if valueKey in item.fields then Some(item.fields[valueKey]) else None)
  }

  /** The colour of each circle, in item order. */
  function CircleColors(items: seq<MapItem>, valueKey: string): (colors: seq<string>)
    ensures |colors| == |items|
    ensures forall k :: 0 <= k < |items| ==> colors[k] == GetColor(ValueOf(items[k], valueKey))
  {
    seq(|items|, k requires 0 <= k < |items| => GetColor(ValueOf(items[k], valueKey)))
  }

  /** A missing or zero metric is read as 0 and always drawn green. */
  lemma MissingOrZeroIsGreen(items: seq<MapItem>, valueKey: string, k: int)
    requires 0 <= k < |items|
    requires valueKey !in items[k].fields || items[k].fields[valueKey] == 0.0
    ensures CircleColors(items, valueKey)[k] == GREEN
  {
  }

  /** `center`: the first item's coordinates, or (0, 0) with no items. */
  function Center(items: seq<MapItem>): (center: (real, real))
    ensures items != [] ==> center == (items[0].lat, items[0].lng)
    ensures items == [] ==> center == (0.0, 0.0)
  {
    if |items| > 0 then (items[0].lat, items[0].lng) else (0.0, 0.0)
  }
}
