/**
 * The service catalogue the resolver filters (data/shippingDatabase.ts):
 * five services with their size and weight ceilings and a price for each
 * distance bucket, the prefecture-to-region table, and the distance bucket
 * between two regions.
 */
module Catalogue {

  datatype SizeLimit = SizeLimit(maxLength: real, maxWidth: real, maxThickness: real, maxWeight: real)

  datatype PriceByRegion = PriceByRegion(same: int, neighbor: int, distant: int)

  datatype ShippingService = ShippingService(
    id: string,
    name: string,
    displayName: string,
    emoji: string,
    sizeLimit: SizeLimit,
    priceByRegion: PriceByRegion,
    deliveryDays: string,
    features: seq<string>,
    advantages: seq<string>)

  datatype Distance = Same | Neighbor | Distant

  /** `priceByRegion[distance]`. */
  function PriceFor(p: PriceByRegion, d: Distance): int {
    match d
    case Same => p.same
    case Neighbor => p.neighbor
    case Distant => p.distant
  }

  const YupackPost := ShippingService(
    "yupack-post", "ゆうパケットポスト", "ゆうパケットポスト", "📮",
    SizeLimit(32.7, 22.8, 3.0, 2000.0),
    PriceByRegion(200, 200, 200),
    "1〜3日",
    ["コンビニ持込可", "追跡あり", "全国一律料金"],
    ["最安", "厚さ3cm以内"])

  const Nekopos := ShippingService(
    "nekopos", "ネコポス", "ネコポス", "🐱",
    SizeLimit(31.2, 22.8, 2.5, 1000.0),
    PriceByRegion(210, 210, 210),
    "1〜2日",
    ["自宅集荷", "追跡あり", "全国一律料金"],
    ["集荷可能", "厚さ2.5cm以内"])

  const YupackLight := ShippingService(
    "yupack-light", "ゆうパケット", "ゆうパケット", "📦",
    SizeLimit(34.0, 25.0, 3.0, 1000.0),
    PriceByRegion(250, 300, 350),
    "1〜3日",
    ["ポスト投函", "追跡あり", "郵便局持込"],
    ["ポスト投函", "3cm対応"])

  const TakkyubinCompact := ShippingService(
    "takkyubin-compact", "宅急便コンパクト", "宅急便コンパクト", "📦",
    SizeLimit(25.0, 20.0, 5.0, 30000.0),
    PriceByRegion(450, 500, 600),
    "翌日〜2日",
    ["専用BOX", "追跡あり", "手渡し"],
    ["厚物対応", "翌日配達"])

  const Yupack60 := ShippingService(
    "yupack-60", "ゆうパック60", "ゆうパック(60サイズ)", "📮",
    SizeLimit(60.0, 60.0, 60.0, 25000.0),
    PriceByRegion(810, 870, 970),
    "1〜2日",
    ["大型対応", "追跡あり", "損害賠償"],
    ["大きいサイズ", "補償あり"])

  /** The catalogue, in declaration order. */
  const ShippingServices: seq<ShippingService> := [YupackPost, Nekopos, YupackLight, TakkyubinCompact, Yupack60]

  /** The region lists, in declaration order (the order `Object.entries` visits them). */
  const RegionMapping: seq<(string, seq<string>)> := [
    ("北海道", ["北海道"]),
    ("東北", ["青森県", "岩手県", "宮城県", "秋田県", "山形県", "福島県"]),
    ("関東", ["茨城県", "栃木県", "群馬県", "埼玉県", "千葉県", "東京都", "神奈川県"]),
    ("中部", ["新潟県", "富山県", "石川県", "福井県", "山梨県", "長野県", "岐阜県", "静岡県", "愛知県"]),
    ("関西", ["三重県", "滋賀県", "京都府", "大阪府", "兵庫県", "奈良県", "和歌山県"]),
    ("中国", ["鳥取県", "島根県", "岡山県", "広島県", "山口県"]),
    ("四国", ["徳島県", "香川県", "愛媛県", "高知県"]),
    ("九州", ["福岡県", "佐賀県", "長崎県", "熊本県", "大分県", "宮崎県", "鹿児島県"]),
    ("沖縄", ["沖縄県"])
  ]

  const DefaultRegion := "関東"

  /** The position of the first region list that holds `prefecture`, or `|entries|` if none does. */
  function FirstMatch(entries: seq<(string, seq<string>)>, prefecture: string): (k: nat)
    ensures k <= |entries|
    ensures k < |entries| ==> prefecture in entries[k].1
    ensures forall j :: 0 <= j < k ==> prefecture !in entries[j].1
  {
    if entries == [] then 0
    else if prefecture in entries[0].1 then 0
    else 1 + FirstMatch(entries[1..], prefecture)
  }

  /** The region whose list holds the prefecture; any other name falls back to Kanto. */
  function GetRegionFromPrefecture(prefecture: string): string {
    var k := FirstMatch(RegionMapping, prefecture);
    if k < |RegionMapping| then RegionMapping[k].0 else DefaultRegion
  }

  /** The hand-written adjacency table; Okinawa has no neighbours. */
  const NeighborRegions: map<string, seq<string>> := map[
    "関東" := ["中部", "東北"],
    "関西" := ["中部", "中国"],
    "中部" := ["関東", "関西", "中国"],
    "東北" := ["関東", "北海道"],
    "中国" := ["関西", "中部", "四国", "九州"],
    "四国" := ["中国", "九州"],
    "九州" := ["中国", "四国"],
    "北海道" := ["東北"],
    "沖縄" := []
  ]

  /** `neighborRegions[fromRegion] || []`: an unknown region has no neighbours. */
  function NeighborsOf(region: string): seq<string> {
    if region in NeighborRegions then NeighborRegions[region] else []
  }

  function GetDistanceCategory(fromRegion: string, toRegion: string): Distance {
    if fromRegion == toRegion then Same
    else if toRegion in NeighborsOf(fromRegion) then Neighbor
    else Distant
  }

  /** A region is always in the same bucket as itself. */
  lemma SameRegionIsSame(region: string)
    ensures GetDistanceCategory(region, region) == Same
  {
  }

  /** Every listed neighbour lists its neighbour back. */
  lemma NeighborTableSymmetric(a: string, b: string)
    ensures b in NeighborsOf(a) <==> a in NeighborsOf(b)
  {
  }

  /** The bucket does not depend on the direction, for listed and unlisted regions alike. */
  lemma DistanceSymmetric(a: string, b: string)
    ensures GetDistanceCategory(a, b) == GetDistanceCategory(b, a)
  {
    NeighborTableSymmetric(a, b);
  }

  /** Okinawa is distant from every other region, in both directions. */
  lemma OkinawaIsDistant(region: string)
    requires region != "沖縄"
    ensures GetDistanceCategory("沖縄", region) == Distant
    ensures GetDistanceCategory(region, "沖縄") == Distant
  {
  }

  /** A region missing from the adjacency table is distant from every other region. */
  lemma UnknownOriginIsDistant(fromRegion: string, toRegion: string)
    requires fromRegion !in NeighborRegions && fromRegion != toRegion
    ensures GetDistanceCategory(fromRegion, toRegion) == Distant
  {
  }

  /** No prefecture is listed under two regions. */
  lemma RegionListsDisjoint(i: nat, j: nat, prefecture: string)
    requires i < j < |RegionMapping|
    requires prefecture in RegionMapping[i].1
    ensures prefecture !in RegionMapping[j].1
  {
    if i == 0 {
      HokkaidoListedOnce(j, prefecture);
    } else if i == 1 {
      TohokuListedOnce(j, prefecture);
    } else if i == 2 {
      KantoListedOnce(j, prefecture);
    } else if i == 3 {
      ChubuListedOnce(j, prefecture);
    } else if i == 4 {
      KansaiListedOnce(j, prefecture);
    } else if i == 5 {
      ChugokuListedOnce(j, prefecture);
    } else if i == 6 {
      ShikokuListedOnce(j, prefecture);
    } else {
      KyushuListedOnce(j, prefecture);
    }
  }

  lemma HokkaidoListedOnce(j: nat, prefecture: string)
    requires 0 < j < |RegionMapping| && prefecture in RegionMapping[0].1
    ensures prefecture !in RegionMapping[j].1
  {
  }

  lemma TohokuListedOnce(j: nat, prefecture: string)
    requires 1 < j < |RegionMapping| && prefecture in RegionMapping[1].1
    ensures prefecture !in RegionMapping[j].1
  {
  }

  lemma KantoListedOnce(j: nat, prefecture: string)
    requires 2 < j < |RegionMapping| && prefecture in RegionMapping[2].1
    ensures prefecture !in RegionMapping[j].1
  {
  }

  lemma ChubuListedOnce(j: nat, prefecture: string)
    requires 3 < j < |RegionMapping| && prefecture in RegionMapping[3].1
    ensures prefecture !in RegionMapping[j].1
  {
  }

  lemma KansaiListedOnce(j: nat, prefecture: string)
    requires 4 < j < |RegionMapping| && prefecture in RegionMapping[4].1
    ensures prefecture !in RegionMapping[j].1
  {
  }

  lemma ChugokuListedOnce(j: nat, prefecture: string)
    requires 5 < j < |RegionMapping| && prefecture in RegionMapping[5].1
    ensures prefecture !in RegionMapping[j].1
  {
  }

  lemma ShikokuListedOnce(j: nat, prefecture: string)
    requires 6 < j < |RegionMapping| && prefecture in RegionMapping[6].1
    ensures prefecture !in RegionMapping[j].1
  {
  }

  lemma KyushuListedOnce(j: nat, prefecture: string)
    requires 7 < j < |RegionMapping| && prefecture in RegionMapping[7].1
    ensures prefecture !in RegionMapping[j].1
  {
  }

  /** The first region list that holds a prefecture is the only one, so the lookup returns its region. */
  lemma RegionIsUniqueMatch(i: nat, prefecture: string)
    requires i < |RegionMapping| && prefecture in RegionMapping[i].1
    ensures GetRegionFromPrefecture(prefecture) == RegionMapping[i].0
  {
    var k := FirstMatch(RegionMapping, prefecture);
    if k < i {
      RegionListsDisjoint(k, i, prefecture);
    }
  }

  /** A name in no region list resolves to Kanto. */
  lemma UnlistedPrefectureIsKanto(prefecture: string)
    requires forall i :: 0 <= i < |RegionMapping| ==> prefecture !in RegionMapping[i].1
    ensures GetRegionFromPrefecture(prefecture) == DefaultRegion
  {
  }

  /** Every service charges at least as much for a farther bucket. */
  lemma PricesGrowWithDistance(s: ShippingService)
    requires s in ShippingServices
    ensures s.priceByRegion.same <= s.priceByRegion.neighbor <= s.priceByRegion.distant
  {
  }

  /** The two national flat-rate services charge the same in every bucket. */
  lemma FlatRateServices(d: Distance)
    ensures PriceFor(YupackPost.priceByRegion, d) == 200
    ensures PriceFor(Nekopos.priceByRegion, d) == 210
  {
  }

  /** Nekopos has no ceiling above yupack-post's and costs more in every bucket. */
  lemma NekoposDominated(d: Distance)
    ensures Nekopos.sizeLimit.maxLength <= YupackPost.sizeLimit.maxLength
    ensures Nekopos.sizeLimit.maxWidth <= YupackPost.sizeLimit.maxWidth
    ensures Nekopos.sizeLimit.maxThickness <= YupackPost.sizeLimit.maxThickness
    ensures Nekopos.sizeLimit.maxWeight <= YupackPost.sizeLimit.maxWeight
    ensures PriceFor(YupackPost.priceByRegion, d) < PriceFor(Nekopos.priceByRegion, d)
  {
  }

  /** No two catalogue entries share an id. */
  lemma ServiceIdsDistinct(i: nat, j: nat)
    requires i < j < |ShippingServices|
    ensures ShippingServices[i].id != ShippingServices[j].id
  {
  }

  /** No two catalogue entries cost the same in any one bucket, so the price sort has no ties to order. */
  lemma PricesDistinct(i: nat, j: nat, d: Distance)
    requires i < j < |ShippingServices|
    ensures PriceFor(ShippingServices[i].priceByRegion, d) != PriceFor(ShippingServices[j].priceByRegion, d)
  {
  }
}
