/**
 * The price guards of the side bar. Each slider handler computes a new
 * `[min, max]` pair from the current one and hands it to `onPriceChange`, or does
 * nothing. The slider value arrives through `parseInt`; None stands for NaN, for
 * which every comparison is false.
 */
module SideBar {
  import opened Wrappers
  import opened Catalog

  /** `handleMinChange`: the pair passed to `onPriceChange`, or None when it is not called. */
  function HandleMinChange(priceRange: PriceRange, newMin: Option<int>): (r: Option<PriceRange>)
    ensures r.Some? <==> newMin.Some? && newMin.value <= priceRange.hi
    ensures r.Some? ==> r.value.lo == newMin.value && r.value.hi == priceRange.hi
    ensures r.Some? ==> r.value.lo <= r.value.hi
  {
    if newMin.Some? && newMin.value <= priceRange.hi then Some(PriceRange(newMin.value, priceRange.hi)) else None
  }

  /** `handleMaxChange`: the pair passed to `onPriceChange`, or None when it is not called. */
  function HandleMaxChange(priceRange: PriceRange, newMax: Option<int>): (r: Option<PriceRange>)
    ensures r.Some? <==> newMax.Some? && newMax.value >= priceRange.lo
    ensures r.Some? ==> r.value.lo == priceRange.lo && r.value.hi == newMax.value
    ensures r.Some? ==> r.value.lo <= r.value.hi
  {
    if newMax.Some? && newMax.value >= priceRange.lo then Some(PriceRange(priceRange.lo, newMax.value)) else None
  }

  /** A movement of one of the two range sliders, with the parsed slider value. */
  datatype SliderEvent = MinMoved(newMin: Option<int>) | MaxMoved(newMax: Option<int>)

  /** The page's price range after one slider event: the new pair if the handler passed one on. */
  function Step(priceRange: PriceRange, e: SliderEvent): PriceRange
  {
    var r := match e
      case MinMoved(v) => HandleMinChange(priceRange, v)
      case MaxMoved(v) => HandleMaxChange(priceRange, v);
    r.GetOr(priceRange)
  }

  /** The price range after a sequence of slider events. */
  function Run(priceRange: PriceRange, events: seq<SliderEvent>): PriceRange
    decreases |events|
  {
    if events == [] then priceRange else Run(Step(priceRange, events[0]), events[1..])
  }

  /** Non-numeric input changes nothing. */
  lemma NotANumberIgnored(priceRange: PriceRange)
    ensures HandleMinChange(priceRange, None) == None && HandleMaxChange(priceRange, None) == None
    ensures Step(priceRange, MinMoved(None)) == priceRange && Step(priceRange, MaxMoved(None)) == priceRange
  {
  }

  /** Slider values lie in `[0, 2000]`, the extent of both range inputs. */
  predicate InSliderExtent(v: Option<int>)
  {
    v.Some? ==> 0 <= v.value <= 2000
  }

  predicate OrderedWithinExtent(r: PriceRange)
  {
    0 <= r.lo <= r.hi <= 2000
  }

  /**
   * Starting from an ordered range within `[0, 2000]`, any sequence of slider
   * events keeps `min <= max` and both bounds within `[0, 2000]`.
   */
  lemma {:induction false} SlidersKeepRangeOrdered(priceRange: PriceRange, events: seq<SliderEvent>)
    requires OrderedWithinExtent(priceRange)
    requires forall i :: 0 <= i < |events| ==>
      (events[i].MinMoved? ==> InSliderExtent(events[i].newMin)) &&
      (events[i].MaxMoved? ==> InSliderExtent(events[i].newMax))
    ensures OrderedWithinExtent(Run(priceRange, events))
    decreases |events|
  {
    if events != [] {
      assert OrderedWithinExtent(Step(priceRange, events[0]));
      SlidersKeepRangeOrdered(Step(priceRange, events[0]), events[1..]);
    }
  }
}
