/**
 * The resolver the app calls on "diagnose" (utils/realCalculator.ts): it
 * reads the four measures from the form, keeps the catalogue services whose
 * four ceilings they meet, prices each by the distance bucket from Kanto to
 * the destination's region, sorts by price and ranks the three cheapest.
 */
module Resolver {
  import opened Wrappers
  import opened Text
  import opened ArraySort
  import opened ShippingTypes
  import opened Catalogue

  /**
   * What the resolver takes from the JavaScript runtime: `parseFloat`
   * (`None` is NaN), the conversion of a number to its text, and the
   * `replace` of a leading emoji and space in a name.
   */
  datatype Host = Host(
    parseFloat: string -> Option<real>,
    numberText: real -> string,
    stripLeadingEmoji: string -> string)

  datatype Measures = Measures(length: real, width: real, thickness: real, weight: real)

  /** `parseFloat(s) || 0`: NaN becomes 0, every other number stays as it is. */
  function Coerce(v: Option<real>): real {
    v.GetOr(0.0)
  }

  /** The four measures after coercion; no comparison ever sees NaN. */
  function MeasuresOf(info: ProductInfo, host: Host): (m: Measures)
    ensures host.parseFloat(info.length).None? ==> m.length == 0.0
    ensures host.parseFloat(info.width).None? ==> m.width == 0.0
    ensures host.parseFloat(info.thickness).None? ==> m.thickness == 0.0
    ensures host.parseFloat(info.weight).None? ==> m.weight == 0.0
    ensures host.parseFloat(info.length).Some? ==> m.length == host.parseFloat(info.length).value
    ensures host.parseFloat(info.width).Some? ==> m.width == host.parseFloat(info.width).value
    ensures host.parseFloat(info.thickness).Some? ==> m.thickness == host.parseFloat(info.thickness).value
    ensures host.parseFloat(info.weight).Some? ==> m.weight == host.parseFloat(info.weight).value
  {
    Measures(
      Coerce(host.parseFloat(info.length)),
      Coerce(host.parseFloat(info.width)),
      Coerce(host.parseFloat(info.thickness)),
      Coerce(host.parseFloat(info.weight)))
  }

  /** The origin is fixed: Tokyo, in the Kanto region. */
  const FromRegion := "関東"
  const FromPrefecture := "東京都"

  /** The distance bucket from the fixed origin to the destination. */
  function BucketOf(info: ProductInfo): Distance {
    GetDistanceCategory(FromRegion, GetRegionFromPrefecture(info.destination))
  }

  /** The four ceilings of a service. */
  predicate WithinLimits(s: ShippingService, m: Measures) {
    && m.length <= s.sizeLimit.maxLength
    && m.width <= s.sizeLimit.maxWidth
    && m.thickness <= s.sizeLimit.maxThickness
    && m.weight <= s.sizeLimit.maxWeight
  }

  /** The services whose ceilings the measures meet, in catalogue order. */
  function Compatible(services: seq<ShippingService>, m: Measures): (r: seq<ShippingService>)
    ensures |r| <= |services|
    ensures forall s :: s in r <==> s in services && WithinLimits(s, m)
    decreases |services|
  {
    if services == [] then []
    else
      var last := services[|services| - 1];
      Compatible(services[..|services| - 1], m) + (if WithinLimits(last, m) then [last] else [])
  }

  /** The filter keeps every fitting service as often as the list holds it, and drops the rest. */
  lemma {:induction false} CompatibleCounts(services: seq<ShippingService>, m: Measures, s: ShippingService)
    ensures multiset(Compatible(services, m))[s] == if WithinLimits(s, m) then multiset(services)[s] else 0
    decreases |services|
  {
    if services != [] {
      var init, last := services[..|services| - 1], services[|services| - 1];
      assert services == init + [last];
      CompatibleCounts(init, m, s);
      var kept := if WithinLimits(last, m) then [last] else [];
      assert Compatible(services, m) == Compatible(init, m) + kept;
      assert multiset(Compatible(services, m)) == multiset(Compatible(init, m)) + multiset(kept);
      assert multiset(services) == multiset(init) + multiset{last};
    }
  }

  /** The option a service yields before ranking. */
  function BaseOption(s: ShippingService, d: Distance): ShippingOption {
    ShippingOption(s.id, s.emoji + " " + s.displayName, PriceFor(s.priceByRegion, d),
                   s.deliveryDays, s.features, Join(s.advantages, "・"), None)
  }

  function BaseOptions(services: seq<ShippingService>, d: Distance): (r: seq<ShippingOption>)
    ensures |r| == |services|
  {
    seq(|services|, i requires 0 <= i < |services| => BaseOption(services[i], d))
  }

  const RankIcons: seq<string> := ["🥇", "🥈", "🥉"]
  const CheapestMark := "最安"
  const FastestMark := "最速"
  const NextDay := "翌日"

  function Min(a: int, b: int): int { if a <= b then a else b }

  /**
   * The ranked form of the option at position `index` of the top three: its
   * name is led by the rank icon, it is recommended exactly at position 0,
   * and its features gain "cheapest" at position 0 and "fastest" when the
   * delivery estimate mentions next-day delivery.
   */
  function Rank(option: ShippingOption, index: nat, strip: string -> string): (r: ShippingOption)
    requires index < 3
    ensures StartsWith(r.name, RankIcons[index] + " ")
    ensures r.id == option.id && r.price == option.price
    ensures r.deliveryDays == option.deliveryDays && r.description == option.description
    ensures r.isRecommended == Some(index == 0)
    ensures StartsWith(r.features, option.features)
    ensures CheapestMark in r.features[|option.features|..] <==> index == 0
    ensures FastestMark in r.features[|option.features|..] <==> Occurs(option.deliveryDays, NextDay)
    ensures |r.features| == |option.features| + (if index == 0 then 1 else 0)
                                             + (if Occurs(option.deliveryDays, NextDay) then 1 else 0)
    ensures r.features[|option.features|..]
         == (if index == 0 then [CheapestMark] else []) + (if Occurs(option.deliveryDays, NextDay) then [FastestMark] else [])
  {
    var nameWithRank := RankIcons[index] + " " + strip(option.name);
    assert nameWithRank[..|RankIcons[index] + " "|] == RankIcons[index] + " ";
    var cheapest := if index == 0 then [CheapestMark] else [];
    var fastest := if Includes(option.deliveryDays, NextDay) then [FastestMark] else [];
    var updatedFeatures := option.features + cheapest + fastest;
    assert updatedFeatures[..|option.features|] == option.features;
    assert updatedFeatures[|option.features|..] == cheapest + fastest;
    assert CheapestMark[1] != FastestMark[1];
    option.(name := nameWithRank, features := updatedFeatures, isRecommended := Some(index == 0))
  }

  /** The `for` loop over the catalogue, pushing the option of every service that fits. */
  method CollectOptions(m: Measures, d: Distance) returns (available: seq<ShippingOption>)
    ensures available == BaseOptions(Compatible(ShippingServices, m), d)
  {
    available := CollectFrom(ShippingServices, m, d);
  }

  /** The loop of `CollectOptions`, over any list of services. */
  method CollectFrom(services: seq<ShippingService>, m: Measures, d: Distance) returns (available: seq<ShippingOption>)
    ensures available == BaseOptions(Compatible(services, m), d)
  {
    available := [];
    for i := 0 to |services|
      invariant available == BaseOptions(Compatible(services[..i], m), d)
    {
      var service := services[i];
      assert services[..i + 1][..i] == services[..i];
      if WithinLimits(service, m) {
        BaseOptionsAppend(Compatible(services[..i], m), service, d);
        available := available + [BaseOption(service, d)];
      }
    }
    assert services[..|services|] == services;
  }

  lemma BaseOptionsAppend(services: seq<ShippingService>, s: ShippingService, d: Distance)
    ensures BaseOptions(services + [s], d) == BaseOptions(services, d) + [BaseOption(s, d)]
  {
  }

  /** A fitting service's option is among the base options. */
  lemma FittingServiceOffered(s: ShippingService, m: Measures, d: Distance)
    requires s in ShippingServices && WithinLimits(s, m)
    ensures BaseOption(s, d) in BaseOptions(Compatible(ShippingServices, m), d)
  {
    var c := Compatible(ShippingServices, m);
    var k :| 0 <= k < |c| && c[k] == s;
    assert BaseOptions(c, d)[k] == BaseOption(s, d);
  }

  /**
   * The option a fitting service yields keeps the service's id, delivery days
   * and features, names it by emoji and display name, takes the bucket's
   * price, and its description holds every advantage.
   */
  lemma BaseOptionDescribes(s: ShippingService, d: Distance)
    ensures var o := BaseOption(s, d);
      && o.id == s.id && o.name == s.emoji + " " + s.displayName
      && o.price == PriceFor(s.priceByRegion, d)
      && o.deliveryDays == s.deliveryDays && o.features == s.features && o.isRecommended.None?
      && forall a :: a in s.advantages ==> Occurs(o.description, a)
  {
    var description := Join(s.advantages, "・");
    if s.advantages != [] {
      JoinLayout(s.advantages, "・");
      forall a | a in s.advantages ensures Occurs(description, a) {
        var i :| 0 <= i < |s.advantages| && s.advantages[i] == a;
        assert OccursAt(description, a, Offset(s.advantages, "・", i));
      }
    }
  }

  /** `slice(0, 3).map(...)`: the first three options of a list, ranked by position. */
  function RankTop(sorted: seq<ShippingOption>, strip: string -> string): (top: seq<ShippingOption>)
    ensures |top| == Min(3, |sorted|)
    ensures forall i :: 0 <= i < |top| ==> top[i] == Rank(sorted[i], i, strip)
    ensures SortedBy(sorted, OptionPrice) ==> SortedBy(top, OptionPrice)
  {
    var n := Min(3, |sorted|);
    seq(n, index requires 0 <= index < n => Rank(sorted[index], index, strip))
  }

  /** The head of the sorted list is no dearer than any fitting service, ranked or not. */
  lemma CheapestOfAll(sorted: seq<ShippingOption>, m: Measures, d: Distance)
    requires multiset(sorted) == multiset(BaseOptions(Compatible(ShippingServices, m), d))
    requires SortedBy(sorted, OptionPrice)
    requires sorted != []
    ensures forall s :: s in ShippingServices && WithinLimits(s, m) ==> sorted[0].price <= PriceFor(s.priceByRegion, d)
  {
    forall s | s in ShippingServices && WithinLimits(s, m)
      ensures sorted[0].price <= PriceFor(s.priceByRegion, d)
    {
      FittingServiceOffered(s, m, d);
      assert BaseOption(s, d) in multiset(sorted);
      var k :| 0 <= k < |sorted| && sorted[k] == BaseOption(s, d);
      assert OptionPrice(sorted[0]) <= OptionPrice(sorted[k]);
    }
  }

  /**
   * The options part of the diagnosis: the fitting services' options sorted
   * by price (`sorted`) and the first three of them ranked.
   */
  method RankedOptions(m: Measures, d: Distance, strip: string -> string)
    returns (options: seq<ShippingOption>, ghost sorted: seq<ShippingOption>)
    ensures multiset(sorted) == multiset(BaseOptions(Compatible(ShippingServices, m), d))
    ensures SortedBy(sorted, OptionPrice)
    ensures |sorted| == |Compatible(ShippingServices, m)|
    ensures |options| == Min(3, |sorted|)
    ensures forall i :: 0 <= i < |options| ==> options[i] == Rank(sorted[i], i, strip)
    ensures SortedBy(options, OptionPrice)
    ensures forall i :: 0 <= i < |options| ==> options[i].isRecommended == Some(i == 0)
    ensures forall i :: 0 <= i < |options| ==> StartsWith(options[i].name, RankIcons[i] + " ")
    ensures options != [] ==>
      forall s :: s in ShippingServices && WithinLimits(s, m) ==> options[0].price <= PriceFor(s.priceByRegion, d)
  {
    var availableOptions := CollectOptions(m, d);
    var sortedOptions := SortPushed(availableOptions, OptionPrice);
    sorted := sortedOptions;
    options := RankTop(sortedOptions, strip);
    if sorted != [] {
      CheapestOfAll(sorted, m, d);
    }
  }

  /**
   * The diagnosis: a summary echoing the origin, the destination and the
   * coerced measures, and at most three options, sorted by price, ranked.
   * `sorted` is the full sorted list of fitting options the top three are
   * taken from; the options run out exactly when no service fits.
   */
  method CalculateRealShipping(info: ProductInfo, host: Host)
    returns (result: ShippingResult, ghost sorted: seq<ShippingOption>)
    ensures var m := MeasuresOf(info, host);
      result.summary == Summary(FromPrefecture, info.destination,
        host.numberText(m.length) + "×" + host.numberText(m.width) + "×" + host.numberText(m.thickness) + "cm",
        host.numberText(m.weight) + "g")
    ensures multiset(sorted) == multiset(BaseOptions(Compatible(ShippingServices, MeasuresOf(info, host)), BucketOf(info)))
    ensures SortedBy(sorted, OptionPrice)
    ensures |sorted| == |Compatible(ShippingServices, MeasuresOf(info, host))|
    ensures |result.options| == Min(3, |sorted|)
    ensures forall i :: 0 <= i < |result.options| ==> result.options[i] == Rank(sorted[i], i, host.stripLeadingEmoji)
    ensures SortedBy(result.options, OptionPrice)
    ensures forall i :: 0 <= i < |result.options| ==> result.options[i].isRecommended == Some(i == 0)
    ensures forall i :: 0 <= i < |result.options| ==> StartsWith(result.options[i].name, RankIcons[i] + " ")
    ensures result.options != [] ==>
      forall s :: s in ShippingServices && WithinLimits(s, MeasuresOf(info, host)) ==>
        result.options[0].price <= PriceFor(s.priceByRegion, BucketOf(info))
    ensures result.options == [] <==> !CheckSizeCompatibility(info, host).hasOptions
  {
    var length := Coerce(host.parseFloat(info.length));
    var width := Coerce(host.parseFloat(info.width));
    var thickness := Coerce(host.parseFloat(info.thickness));
    var weight := Coerce(host.parseFloat(info.weight));

    var toRegion := GetRegionFromPrefecture(info.destination);
    var distanceCategory := GetDistanceCategory(FromRegion, toRegion);

    var topOptions;
    topOptions, sorted := RankedOptions(Measures(length, width, thickness, weight), distanceCategory, host.stripLeadingEmoji);

    result := ShippingResult(
      Summary(FromPrefecture, info.destination,
              host.numberText(length) + "×" + host.numberText(width) + "×" + host.numberText(thickness) + "cm",
              host.numberText(weight) + "g"),
      topOptions);
  }

  datatype Compatibility = Compatibility(compatibleCount: nat, services: seq<string>, hasOptions: bool)

  /** How many catalogue services the form's measures fit, and their display names. */
  function CheckSizeCompatibility(info: ProductInfo, host: Host): (r: Compatibility)
    ensures r.hasOptions <==> r.compatibleCount > 0
    ensures r.compatibleCount == |r.services| <= |ShippingServices|
    ensures r.compatibleCount == |set s | s in ShippingServices && WithinLimits(s, MeasuresOf(info, host))|
    ensures forall name :: name in r.services <==>
      exists s :: s in ShippingServices && WithinLimits(s, MeasuresOf(info, host)) && s.displayName == name
    ensures var c := Compatible(ShippingServices, MeasuresOf(info, host));
      r.services == seq(|c|, i requires 0 <= i < |c| => c[i].displayName)
  {
    var compatibleServices := Compatible(ShippingServices, MeasuresOf(info, host));
    var names := seq(|compatibleServices|, i requires 0 <= i < |compatibleServices| => compatibleServices[i].displayName);
    forall name | name in names
      ensures exists s :: s in ShippingServices && WithinLimits(s, MeasuresOf(info, host)) && s.displayName == name
    {
      var i :| 0 <= i < |names| && names[i] == name;
      assert compatibleServices[i] in compatibleServices;
    }
    forall s | s in ShippingServices && WithinLimits(s, MeasuresOf(info, host))
      ensures s.displayName in names
    {
      var k :| 0 <= k < |compatibleServices| && compatibleServices[k] == s;
      assert names[k] == s.displayName;
    }
    FittingCount(MeasuresOf(info, host));
    Compatibility(|compatibleServices|, names, |compatibleServices| > 0)
  }

  /** Whenever nekopos fits, yupack-post fits too, and it is cheaper in every bucket. */
  lemma NekoposFitImpliesYupackPostFit(m: Measures, d: Distance)
    requires WithinLimits(Nekopos, m)
    ensures WithinLimits(YupackPost, m)
    ensures BaseOption(YupackPost, d).price < BaseOption(Nekopos, d).price
  {
    NekoposDominated(d);
  }

  /** In a price-sorted list, yupack-post's option stands ahead of nekopos's. */
  lemma YupackPostRanksAhead(sorted: seq<ShippingOption>, d: Distance, i: nat, j: nat)
    requires SortedBy(sorted, OptionPrice)
    requires i < |sorted| && j < |sorted|
    requires sorted[i] == BaseOption(Nekopos, d) && sorted[j] == BaseOption(YupackPost, d)
    ensures j < i
  {
    NekoposDominated(d);
  }

  /** When every service fits, the filter keeps the whole list, in order. */
  lemma {:induction false} AllFit(services: seq<ShippingService>, m: Measures)
    requires forall i :: 0 <= i < |services| ==> WithinLimits(services[i], m)
    ensures Compatible(services, m) == services
    decreases |services|
  {
    if services != [] {
      var init, last := services[..|services| - 1], services[|services| - 1];
      AllFit(init, m);
      assert WithinLimits(last, m);
      assert Compatible(services, m) == Compatible(init, m) + [last];
      assert init + [last] == services;
    }
  }

  /** An empty or unreadable form coerces to zero everywhere, and every service fits it. */
  lemma BlankFormFitsEveryService(info: ProductInfo, host: Host)
    requires host.parseFloat(info.length).None? && host.parseFloat(info.width).None?
    requires host.parseFloat(info.thickness).None? && host.parseFloat(info.weight).None?
    ensures Compatible(ShippingServices, MeasuresOf(info, host)) == ShippingServices
  {
    AllFit(ShippingServices, MeasuresOf(info, host));
  }

  /** Only yupack-post charges 200 yen or less, in any bucket. */
  lemma OnlyYupackPostAt200(s: ShippingService, d: Distance)
    requires s in ShippingServices && PriceFor(s.priceByRegion, d) <= 200
    ensures s == YupackPost
  {
  }

  /**
   * For a 25 x 18 x 2.8 cm, 450 g parcel the head of the sorted list is
   * yupack-post's option at 200 yen, whatever the distance bucket.
   */
  lemma SmallParcelCheapestIsYupackPost(sorted: seq<ShippingOption>, d: Distance)
    requires multiset(sorted) == multiset(BaseOptions(Compatible(ShippingServices, Measures(25.0, 18.0, 2.8, 450.0)), d))
    requires SortedBy(sorted, OptionPrice)
    ensures sorted != [] && sorted[0] == BaseOption(YupackPost, d) && sorted[0].price == 200
  {
    var m := Measures(25.0, 18.0, 2.8, 450.0);
    var c := Compatible(ShippingServices, m);
    FittingServiceOffered(YupackPost, m, d);
    assert BaseOption(YupackPost, d) in multiset(sorted);
    var k :| 0 <= k < |sorted| && sorted[k] == BaseOption(YupackPost, d);
    assert OptionPrice(sorted[0]) <= OptionPrice(sorted[k]);
    assert sorted[0] in multiset(BaseOptions(c, d));
    var j :| 0 <= j < |c| && BaseOptions(c, d)[j] == sorted[0];
    assert c[j] in c;
    OnlyYupackPostAt200(c[j], d);
  }

  /** The filter keeps each fitting catalogue service once, so its length counts the fitting services. */
  lemma FittingCount(m: Measures)
    ensures |Compatible(ShippingServices, m)| == |set s | s in ShippingServices && WithinLimits(s, m)|
  {
    CatalogueOnce();
    FilterCount(ShippingServices, m);
  }

  /** Every catalogue service is listed once. */
  lemma CatalogueOnce()
    ensures forall x :: multiset(ShippingServices)[x] <= 1
  {
    forall i, j | 0 <= i < j < |ShippingServices| ensures ShippingServices[i] != ShippingServices[j] {
      ServiceIdsDistinct(i, j);
    }
    CountsOfDistinct(ShippingServices);
  }

  /** Over a list without repeats, the filter's length is the number of fitting services. */
  lemma FilterCount(services: seq<ShippingService>, m: Measures)
    requires forall x :: multiset(services)[x] <= 1
    ensures |Compatible(services, m)| == |set s | s in services && WithinLimits(s, m)|
  {
    var c := Compatible(services, m);
    forall x ensures multiset(c)[x] <= 1 {
      CompatibleCounts(services, m, x);
    }
    CardinalityOfDistinct(c);
    assert (set s | s in services && WithinLimits(s, m)) == (set s | s in c);
  }

  /** A list without repeated elements holds each element once. */
  lemma {:induction false} CountsOfDistinct<T>(s: seq<T>)
    requires forall i, j :: 0 <= i < j < |s| ==> s[i] != s[j]
    ensures forall x :: multiset(s)[x] <= 1
    decreases |s|
  {
    if s != [] {
      var init, last := s[..|s| - 1], s[|s| - 1];
      assert s == init + [last];
      CountsOfDistinct(init);
      assert last !in init by {
        forall k | 0 <= k < |init| ensures init[k] != last {
          assert init[k] == s[k];
        }
      }
    }
  }

  /** A list holding each element at most once is as long as its set of elements is large. */
  lemma {:induction false} CardinalityOfDistinct<T>(s: seq<T>)
    requires forall x :: multiset(s)[x] <= 1
    ensures |set x | x in s| == |s|
    decreases |s|
  {
    if s != [] {
      var init, last := s[..|s| - 1], s[|s| - 1];
      assert s == init + [last];
      assert multiset(s) == multiset(init) + multiset{last};
      assert multiset(s)[last] == multiset(init)[last] + 1;
      assert last !in init;
      forall x ensures multiset(init)[x] <= 1 {
        assert multiset(init)[x] <= multiset(s)[x];
      }
      CardinalityOfDistinct(init);
      assert (set x | x in s) == (set x | x in init) + {last};
    }
  }
}
