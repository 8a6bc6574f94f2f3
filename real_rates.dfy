/**
 * The region-pair rate data and the national flat rates (data/realShippingDatabase.ts):
 * a prefecture is resolved to one of twelve carrier regions, a parcel is put
 * into a size band, and `CalculateActualShippingCost` lists every service the
 * parcel qualifies for, cheapest first.
 */
module RealRates {
  import opened Wrappers
  import opened ArraySort
  import Validation

  datatype RegionCode =
    | Hokkaido | KitaTohoku | MinamiTohoku | Kanto | Shinetsu | Hokuriku
    | Chubu | Kansai | Chugoku | Shikoku | Kyushu | Okinawa

  datatype SizeCode =
    | Compact | Size60 | Size80 | Size100 | Size120 | Size140 | Size160 | Size180 | Size200

  /**
   * The prefecture table, written region by region in the order of its
   * listing; a name that is not a key has no region.
   */
  const PrefectureRegions: map<string, RegionCode> :=
    HokkaidoPrefectures + KitaTohokuPrefectures + MinamiTohokuPrefectures + KantoPrefectures
    + ShinetsuPrefectures + HokurikuPrefectures + ChubuPrefectures + KansaiPrefectures
    + ChugokuPrefectures + ShikokuPrefectures + KyushuPrefectures + OkinawaPrefectures

  const HokkaidoPrefectures: map<string, RegionCode> := map["北海道" := Hokkaido]
  const KitaTohokuPrefectures: map<string, RegionCode> :=
    map["青森県" := KitaTohoku, "秋田県" := KitaTohoku, "岩手県" := KitaTohoku]
  const MinamiTohokuPrefectures: map<string, RegionCode> :=
    map["宮城県" := MinamiTohoku, "山形県" := MinamiTohoku, "福島県" := MinamiTohoku]
  const KantoPrefectures: map<string, RegionCode> :=
    map["茨城県" := Kanto, "栃木県" := Kanto, "群馬県" := Kanto, "埼玉県" := Kanto,
        "千葉県" := Kanto, "神奈川県" := Kanto, "東京都" := Kanto, "山梨県" := Kanto]
  const ShinetsuPrefectures: map<string, RegionCode> := map["新潟県" := Shinetsu, "長野県" := Shinetsu]
  const HokurikuPrefectures: map<string, RegionCode> :=
    map["富山県" := Hokuriku, "石川県" := Hokuriku, "福井県" := Hokuriku]
  const ChubuPrefectures: map<string, RegionCode> :=
    map["静岡県" := Chubu, "愛知県" := Chubu, "三重県" := Chubu, "岐阜県" := Chubu]
  const KansaiPrefectures: map<string, RegionCode> :=
    map["大阪府" := Kansai, "京都府" := Kansai, "滋賀県" := Kansai, "奈良県" := Kansai, "和歌山県" := Kansai, "兵庫県" := Kansai]
  const ChugokuPrefectures: map<string, RegionCode> :=
    map["岡山県" := Chugoku, "広島県" := Chugoku, "山口県" := Chugoku, "鳥取県" := Chugoku, "島根県" := Chugoku]
  const ShikokuPrefectures: map<string, RegionCode> :=
    map["香川県" := Shikoku, "徳島県" := Shikoku, "愛媛県" := Shikoku, "高知県" := Shikoku]
  const KyushuPrefectures: map<string, RegionCode> :=
    map["福岡県" := Kyushu, "佐賀県" := Kyushu, "長崎県" := Kyushu, "熊本県" := Kyushu,
        "大分県" := Kyushu, "宮崎県" := Kyushu, "鹿児島県" := Kyushu]
  const OkinawaPrefectures: map<string, RegionCode> := map["沖縄県" := Okinawa]

  /** `prefectureToRegion[prefecture]`: the region of a table key, nothing for any other name. */
  function PrefectureToRegion(prefecture: string): (r: Option<RegionCode>)
    ensures r.Some? <==> prefecture in PrefectureRegions
    ensures r.Some? ==> r.value == PrefectureRegions[prefecture]
  {
    if prefecture in PrefectureRegions then Some(PrefectureRegions[prefecture]) else None
  }

  /**
   * The prefecture list of the validator module is exactly the set of keys
   * of the prefecture table: every listed name has a carrier region, and no
   * other name has one. The destination picker of the input screen offers
   * the same 47 names besides its empty placeholder, which has no region.
   */
  lemma PrefectureListMatchesRegionTable()
    ensures forall p :: p in Validation.Prefectures <==> PrefectureToRegion(p).Some?
  {
    ListedNamesHaveRegions();
    HokkaidoListed();
    KitaTohokuListed();
    MinamiTohokuListed();
    KantoListed();
    ShinetsuListed();
    HokurikuListed();
    ChubuListed();
    KansaiListed();
    ChugokuListed();
    ShikokuListed();
    KyushuListed();
    OkinawaListed();
  }

  lemma ListedNamesHaveRegions()
    ensures forall p :: p in Validation.Prefectures ==> p in PrefectureRegions
  {
  }

  lemma HokkaidoListed()
    ensures forall p :: p in HokkaidoPrefectures ==> p in Validation.Prefectures
  {
  }

  lemma KitaTohokuListed()
    ensures forall p :: p in KitaTohokuPrefectures ==> p in Validation.Prefectures
  {
  }

  lemma MinamiTohokuListed()
    ensures forall p :: p in MinamiTohokuPrefectures ==> p in Validation.Prefectures
  {
  }

  lemma KantoListed()
    ensures forall p :: p in KantoPrefectures ==> p in Validation.Prefectures
  {
  }

  lemma ShinetsuListed()
    ensures forall p :: p in ShinetsuPrefectures ==> p in Validation.Prefectures
  {
  }

  lemma HokurikuListed()
    ensures forall p :: p in HokurikuPrefectures ==> p in Validation.Prefectures
  {
  }

  lemma ChubuListed()
    ensures forall p :: p in ChubuPrefectures ==> p in Validation.Prefectures
  {
  }

  lemma KansaiListed()
    ensures forall p :: p in KansaiPrefectures ==> p in Validation.Prefectures
  {
  }

  lemma ChugokuListed()
    ensures forall p :: p in ChugokuPrefectures ==> p in Validation.Prefectures
  {
  }

  lemma ShikokuListed()
    ensures forall p :: p in ShikokuPrefectures ==> p in Validation.Prefectures
  {
  }

  lemma KyushuListed()
    ensures forall p :: p in KyushuPrefectures ==> p in Validation.Prefectures
  {
  }

  lemma OkinawaListed()
    ensures forall p :: p in OkinawaPrefectures ==> p in Validation.Prefectures
  {
  }


  /** The position of a region in the rows and the columns of the rate tables. */
  function RegionIndex(r: RegionCode): (i: nat)
    ensures i < 12
  {
    match r
    case Hokkaido => 0
    case KitaTohoku => 1
    case MinamiTohoku => 2
    case Kanto => 3
    case Shinetsu => 4
    case Hokuriku => 5
    case Chubu => 6
    case Kansai => 7
    case Chugoku => 8
    case Shikoku => 9
    case Kyushu => 10
    case Okinawa => 11
  }

  /** Takkyubin compact rates, row = origin region, column = destination region. */
  const CompactRates: seq<seq<int>> :=
    [
      [720, 830, 890, 940, 940, 1000, 1000, 1110, 1160, 1160, 1270, 1270],
      [830, 720, 720, 780, 780, 830, 830, 890, 940, 940, 1050, 1110],
      [890, 720, 720, 720, 720, 780, 780, 830, 940, 940, 1050, 1050],
      [940, 780, 720, 720, 720, 720, 720, 780, 830, 830, 940, 940],
      [940, 780, 720, 720, 720, 720, 720, 780, 830, 830, 940, 1000],
      [1000, 830, 780, 720, 720, 720, 720, 720, 780, 780, 830, 1000],
      [1000, 830, 780, 720, 720, 720, 720, 720, 780, 780, 830, 940],
      [1110, 890, 830, 780, 780, 720, 720, 720, 720, 720, 780, 940],
      [1160, 940, 940, 830, 830, 780, 780, 720, 720, 720, 720, 940],
      [1160, 940, 940, 830, 830, 780, 780, 720, 720, 720, 780, 940],
      [1270, 1050, 1050, 940, 940, 830, 830, 780, 720, 780, 720, 890],
      [1270, 1110, 1050, 940, 1000, 1000, 940, 940, 940, 940, 890, 720]
    ]

  /** Takkyubin 60-size rates, laid out as `CompactRates`. */
  const Size60Rates: seq<seq<int>> :=
    [
      [940, 1190, 1320, 1460, 1460, 1610, 1610, 1920, 2070, 2070, 2340, 2340],
      [1190, 940, 940, 1060, 1060, 1190, 1190, 1320, 1460, 1460, 1760, 1920],
      [1320, 940, 940, 940, 940, 1060, 1060, 1190, 1460, 1460, 1760, 1760],
      [1460, 1060, 940, 940, 940, 940, 940, 1060, 1190, 1190, 1460, 1460],
      [1460, 1060, 940, 940, 940, 940, 940, 1060, 1190, 1190, 1460, 1610],
      [1610, 1190, 1060, 940, 940, 940, 940, 940, 1060, 1060, 1190, 1610],
      [1610, 1190, 1060, 940, 940, 940, 940, 940, 1060, 1060, 1190, 1460],
      [1920, 1320, 1190, 1060, 1060, 940, 940, 940, 940, 940, 1060, 1460],
      [2070, 1460, 1460, 1190, 1190, 1060, 1060, 940, 940, 940, 940, 1460],
      [2070, 1460, 1460, 1190, 1190, 1060, 1060, 940, 940, 940, 1060, 1460],
      [2340, 1760, 1760, 1460, 1460, 1190, 1190, 1060, 940, 1060, 940, 1320],
      [2340, 1920, 1760, 1460, 1610, 1610, 1460, 1460, 1460, 1460, 1320, 940]
    ]

  function CompactRate(from: RegionCode, to: RegionCode): int {
    CompactRates[RegionIndex(from)][RegionIndex(to)]
  }

  function Size60Rate(from: RegionCode, to: RegionCode): int {
    Size60Rates[RegionIndex(from)][RegionIndex(to)]
  }

  const YupacketPostRate := 200
  const NekoposRate := 230
  const YupacketRate := 250

  /** Both tables charge their base rate within a region. */
  lemma SameRegionRates(r: RegionCode)
    ensures CompactRate(r, r) == 720
    ensures Size60Rate(r, r) == 940
  {
  }

  /** No route is cheaper than staying within the origin's own region. */
  lemma SameRegionIsCheapest(from: RegionCode, to: RegionCode)
    ensures CompactRate(from, to) >= CompactRate(from, from)
    ensures Size60Rate(from, to) >= Size60Rate(from, from)
  {
  }

  /** Both tables charge the same in either direction. */
  lemma RatesSymmetric(from: RegionCode, to: RegionCode)
    ensures CompactRate(from, to) == CompactRate(to, from)
    ensures Size60Rate(from, to) == Size60Rate(to, from)
  {
  }

  /** The upper bound of the dimension sum that a size band stands for. */
  function BandLimit(c: SizeCode): nat {
    match c
    case Compact => 0
    case Size60 => 60
    case Size80 => 80
    case Size100 => 100
    case Size120 => 120
    case Size140 => 140
    case Size160 => 160
    case Size180 => 180
    case Size200 => 200
  }

  /** The takkyubin compact box: at most 25 x 20 x 5 cm. */
  predicate FitsCompactBox(length: real, width: real, thickness: real) {
    length <= 25.0 && width <= 20.0 && thickness <= 5.0
  }

  /**
   * The size band of a parcel: the compact box if it fits, whatever the
   * dimension sum; otherwise the smallest band from 60 to 180 that the sum
   * of the three dimensions does not exceed, and 200 beyond that. The weight
   * is accepted and never consulted.
   */
  function GetSizeCategory(length: real, width: real, thickness: real, weight: real): (c: SizeCode)
    ensures c == Compact <==> FitsCompactBox(length, width, thickness)
    ensures c != Compact && c != Size200 ==> length + width + thickness <= BandLimit(c) as real
    ensures c != Compact && c != Size60 ==> length + width + thickness > (BandLimit(c) - 20) as real
  {
    var totalSize := length + width + thickness;
    if FitsCompactBox(length, width, thickness) then Compact
    else if totalSize <= 60.0 then Size60
    else if totalSize <= 80.0 then Size80
    else if totalSize <= 100.0 then Size100
    else if totalSize <= 120.0 then Size120
    else if totalSize <= 140.0 then Size140
    else if totalSize <= 160.0 then Size160
    else if totalSize <= 180.0 then Size180
    else Size200
  }

  /** The band is decided by the three dimensions alone. */
  lemma SizeCategoryIgnoresWeight(length: real, width: real, thickness: real, w1: real, w2: real)
    ensures GetSizeCategory(length, width, thickness, w1) == GetSizeCategory(length, width, thickness, w2)
  {
  }

  /** One entry of the cost list. */
  datatype Quote = Quote(service: string, price: int, features: seq<string>)

  function QuotePrice(q: Quote): int { q.price }

  const YupacketPostName := "ゆうパケットポスト"
  const NekoposName := "ネコポス"
  const TakkyubinCompactName := "宅急便コンパクト"
  const Takkyubin60Name := "宅急便60"
  const YupacketName := "ゆうパケット"

  const YupacketPostQuote := Quote(YupacketPostName, YupacketPostRate, ["全国一律", "ポスト投函", "追跡あり"])
  const NekoposQuote := Quote(NekoposName, NekoposRate, ["全国一律", "ポスト投函", "追跡あり"])
  const YupacketQuote := Quote(YupacketName, YupacketRate, ["ポスト投函", "追跡あり"])

  function CompactQuote(from: RegionCode, to: RegionCode): Quote {
    Quote(TakkyubinCompactName, CompactRate(from, to), ["専用BOX", "手渡し", "追跡あり"])
  }

  function Size60Quote(from: RegionCode, to: RegionCode): Quote {
    Quote(Takkyubin60Name, Size60Rate(from, to), ["60cm以内", "手渡し", "追跡あり", "損害賠償"])
  }

  predicate IsTakkyubin(q: Quote) {
    q.service == TakkyubinCompactName || q.service == Takkyubin60Name
  }

  /** The takkyubin entry, if any: needs the compact or the 60 band and a region at both ends. */
  function TakkyubinFor(fromPrefecture: string, toPrefecture: string, size: SizeCode): (t: Option<Quote>)
    ensures t.Some? ==> IsTakkyubin(t.value)
  {
    RegionTakkyubin(PrefectureToRegion(fromPrefecture), PrefectureToRegion(toPrefecture), size)
  }

  /** The takkyubin entry for two looked-up regions, as the two guarded pushes decide it. */
  function RegionTakkyubin(fromRegion: Option<RegionCode>, toRegion: Option<RegionCode>, size: SizeCode): (t: Option<Quote>)
    ensures t.Some? ==> IsTakkyubin(t.value)
    ensures t.Some? <==> (size == Compact || size == Size60) && fromRegion.Some? && toRegion.Some?
  {
    if fromRegion.None? || toRegion.None? then None
    else if size == Compact then Some(CompactQuote(fromRegion.value, toRegion.value))
    else if size == Size60 then Some(Size60Quote(fromRegion.value, toRegion.value))
    else None
  }

  /** The entries the cost list is built from, in the order they are pushed. */
  function Candidates(fromPrefecture: string, toPrefecture: string,
                      length: real, width: real, thickness: real, weight: real): seq<Quote>
  {
    Pushed(thickness, weight, TakkyubinFor(fromPrefecture, toPrefecture, GetSizeCategory(length, width, thickness, weight)))
  }

  /** The pushes, given the takkyubin entry (if any) that the tables yield. */
  function Pushed(thickness: real, weight: real, takkyubin: Option<Quote>): seq<Quote> {
    (if thickness <= 3.0 && weight <= 2000.0 then [YupacketPostQuote] else [])
    + (if thickness <= 2.5 && weight <= 1000.0 then [NekoposQuote] else [])
    + (if takkyubin.Some? then [takkyubin.value] else [])
    + (if thickness <= 3.0 && weight <= 1000.0 then [YupacketQuote] else [])
  }

  /** Two equal elements at two positions are counted twice. */
  lemma {:induction false} RepeatedElementCount<T>(s: seq<T>, i: nat, j: nat)
    requires i < j < |s| && s[i] == s[j]
    ensures multiset(s)[s[i]] >= 2
  {
    assert s == s[..i] + [s[i]] + s[i + 1..j] + [s[j]] + s[j + 1..];
  }

  /** The post-box entries of the candidate list and their presence conditions. */
  lemma PushedPostBox(thickness: real, weight: real, takkyubin: Option<Quote>)
    requires takkyubin.Some? ==> IsTakkyubin(takkyubin.value)
    ensures var c := Pushed(thickness, weight, takkyubin);
      && |c| <= 4
      && (YupacketPostQuote in c <==> thickness <= 3.0 && weight <= 2000.0)
      && (NekoposQuote in c <==> thickness <= 2.5 && weight <= 1000.0)
      && (YupacketQuote in c <==> thickness <= 3.0 && weight <= 1000.0)
      && (forall q :: q in c && !IsTakkyubin(q) ==> q in {YupacketPostQuote, NekoposQuote, YupacketQuote})
  {
  }

  /** An element found in neither end of a three-part sequence is counted as in its middle part. */
  lemma MiddleOnly<T>(front: seq<T>, middle: seq<T>, back: seq<T>, x: T)
    requires x !in front && x !in back
    ensures x in front + middle + back <==> x in middle
    ensures multiset(front + middle + back)[x] == multiset(middle)[x]
  {
    assert multiset(front + middle + back) == multiset(front) + multiset(middle) + multiset(back);
  }

  /** A takkyubin entry occurs in the candidate list as often as in the entry the tables give. */
  lemma PushedTakkyubinCount(thickness: real, weight: real, takkyubin: Option<Quote>, q: Quote)
    requires IsTakkyubin(q)
    ensures var middle := if takkyubin.Some? then [takkyubin.value] else [];
      && (q in Pushed(thickness, weight, takkyubin) <==> q in middle)
      && multiset(Pushed(thickness, weight, takkyubin))[q] == multiset(middle)[q]
  {
    var postBox := (if thickness <= 3.0 && weight <= 2000.0 then [YupacketPostQuote] else [])
      + (if thickness <= 2.5 && weight <= 1000.0 then [NekoposQuote] else []);
    var middle := if takkyubin.Some? then [takkyubin.value] else [];
    var last := if thickness <= 3.0 && weight <= 1000.0 then [YupacketQuote] else [];
    assert q !in postBox && q !in last by {
      assert !IsTakkyubin(YupacketPostQuote) && !IsTakkyubin(NekoposQuote) && !IsTakkyubin(YupacketQuote);
    }
    MiddleOnly(postBox, middle, last, q);
    assert Pushed(thickness, weight, takkyubin) == postBox + middle + last;
  }

  /** The candidate list holds at most one takkyubin entry, once: the one the tables give. */
  lemma PushedTakkyubin(thickness: real, weight: real, takkyubin: Option<Quote>)
    ensures var c := Pushed(thickness, weight, takkyubin);
      && (forall q :: q in c && IsTakkyubin(q) ==> Some(q) == takkyubin)
      && (forall q :: IsTakkyubin(q) ==> multiset(c)[q] <= 1)
      && (forall q, q' :: q in c && q' in c && IsTakkyubin(q) && IsTakkyubin(q') ==> q == q')
  {
    forall q | IsTakkyubin(q) {
      PushedTakkyubinCount(thickness, weight, takkyubin, q);
    }
  }

  /** The takkyubin entry exists exactly for the compact and 60 bands with both regions known. */
  lemma TakkyubinForFacts(fromPrefecture: string, toPrefecture: string, size: SizeCode)
    ensures var t := TakkyubinFor(fromPrefecture, toPrefecture, size);
      && (t.Some? <==> (size == Compact || size == Size60)
                       && fromPrefecture in PrefectureRegions && toPrefecture in PrefectureRegions)
      && (t.Some? && size == Compact ==>
            t.value == CompactQuote(PrefectureRegions[fromPrefecture], PrefectureRegions[toPrefecture]))
      && (t.Some? && size == Size60 ==>
            t.value == Size60Quote(PrefectureRegions[fromPrefecture], PrefectureRegions[toPrefecture]))
  {
  }

  /** A takkyubin entry never costs less than the same-region compact rate. */
  lemma TakkyubinPrice(fromPrefecture: string, toPrefecture: string, size: SizeCode)
    ensures var t := TakkyubinFor(fromPrefecture, toPrefecture, size);
      t.Some? ==> t.value.price >= 720
  {
    RegionTakkyubinPrice(PrefectureToRegion(fromPrefecture), PrefectureToRegion(toPrefecture), size);
  }

  /** The same bound for any two looked-up regions. */
  lemma RegionTakkyubinPrice(fromRegion: Option<RegionCode>, toRegion: Option<RegionCode>, size: SizeCode)
    ensures var t := RegionTakkyubin(fromRegion, toRegion, size);
      t.Some? ==> t.value.price >= 720
  {
    if fromRegion.Some? && toRegion.Some? {
      SameRegionIsCheapest(fromRegion.value, toRegion.value);
      SameRegionRates(fromRegion.value);
    }
  }

  /** The successive pushes onto `results`, before the sort. */
  method PushCandidates(fromPrefecture: string, toPrefecture: string,
                        length: real, width: real, thickness: real, weight: real)
    returns (pushed: seq<Quote>)
    ensures pushed == Candidates(fromPrefecture, toPrefecture, length, width, thickness, weight)
  {
    var fromRegion := PrefectureToRegion(fromPrefecture);
    var toRegion := PrefectureToRegion(toPrefecture);
    var sizeCategory := GetSizeCategory(length, width, thickness, weight);
    pushed := PushForRegions(fromRegion, toRegion, sizeCategory, thickness, weight);
  }

  /** The pushes once both regions and the size band are known. */
  method PushForRegions(fromRegion: Option<RegionCode>, toRegion: Option<RegionCode>, sizeCategory: SizeCode,
                        thickness: real, weight: real)
    returns (pushed: seq<Quote>)
    ensures pushed == Pushed(thickness, weight, RegionTakkyubin(fromRegion, toRegion, sizeCategory))
  {
    pushed := [];
    if thickness <= 3.0 && weight <= 2000.0 {
      pushed := pushed + [YupacketPostQuote];
    }
    if thickness <= 2.5 && weight <= 1000.0 {
      pushed := pushed + [NekoposQuote];
    }
    if sizeCategory == Compact && fromRegion.Some? && toRegion.Some? {
      pushed := pushed + [CompactQuote(fromRegion.value, toRegion.value)];
    }
    if sizeCategory == Size60 && fromRegion.Some? && toRegion.Some? {
      pushed := pushed + [Size60Quote(fromRegion.value, toRegion.value)];
    }
    if thickness <= 3.0 && weight <= 1000.0 {
      pushed := pushed + [YupacketQuote];
    }
  }

  /**
   * The cost list: every candidate at the price the tables give, sorted by
   * price. The three post-box services depend on thickness and weight alone;
   * at most one takkyubin entry appears, priced from the origin and
   * destination regions' cell of its table.
   */
  method CalculateActualShippingCost(fromPrefecture: string, toPrefecture: string,
                                     length: real, width: real, thickness: real, weight: real)
    returns (results: seq<Quote>)
    ensures SortedBy(results, QuotePrice)
    ensures multiset(results) == multiset(Candidates(fromPrefecture, toPrefecture, length, width, thickness, weight))
    ensures |results| <= 4
    ensures YupacketPostQuote in results <==> thickness <= 3.0 && weight <= 2000.0
    ensures NekoposQuote in results <==> thickness <= 2.5 && weight <= 1000.0
    ensures YupacketQuote in results <==> thickness <= 3.0 && weight <= 1000.0
    ensures forall q :: q in results && !IsTakkyubin(q) ==> q in {YupacketPostQuote, NekoposQuote, YupacketQuote}
    ensures forall q :: q in results && IsTakkyubin(q) ==>
      Some(q) == TakkyubinFor(fromPrefecture, toPrefecture, GetSizeCategory(length, width, thickness, weight))
    ensures forall i, j :: 0 <= i < |results| && 0 <= j < |results| && IsTakkyubin(results[i]) && IsTakkyubin(results[j]) ==> i == j
    ensures thickness <= 3.0 && weight <= 2000.0 ==> |results| > 0 && results[0] == YupacketPostQuote
  {
    var pushed := PushCandidates(fromPrefecture, toPrefecture, length, width, thickness, weight);
    var takkyubin := TakkyubinFor(fromPrefecture, toPrefecture, GetSizeCategory(length, width, thickness, weight));
    PushedPostBox(thickness, weight, takkyubin);
    PushedTakkyubin(thickness, weight, takkyubin);
    results := SortPushed(pushed, QuotePrice);
    PermutationKeepsEntries(results, pushed);
    TakkyubinPrice(fromPrefecture, toPrefecture, GetSizeCategory(length, width, thickness, weight));
    PushedPrices(thickness, weight, takkyubin);
    if thickness <= 3.0 && weight <= 2000.0 {
      CheapestFirst(results, YupacketPostQuote);
    }
  }

  /** In a list sorted by price, an entry strictly cheaper than every other entry comes first. */
  lemma CheapestFirst(results: seq<Quote>, cheapest: Quote)
    requires SortedBy(results, QuotePrice)
    requires cheapest in results
    requires forall q :: q in results && q != cheapest ==> q.price > cheapest.price
    ensures |results| > 0 && results[0] == cheapest
  {
    var k :| 0 <= k < |results| && results[k] == cheapest;
    assert QuotePrice(results[0]) <= QuotePrice(results[k]);
  }

  /** Every candidate other than yupacket-post costs more than its 200 yen. */
  lemma PushedPrices(thickness: real, weight: real, takkyubin: Option<Quote>)
    requires takkyubin.Some? ==> takkyubin.value.price >= 720
    ensures forall q :: q in Pushed(thickness, weight, takkyubin) && q != YupacketPostQuote ==> q.price > YupacketPostRate
  {
  }

  /** A reordering of a list has the same entries, and no takkyubin entry twice if the list had none twice. */
  lemma PermutationKeepsEntries(results: seq<Quote>, pushed: seq<Quote>)
    requires multiset(results) == multiset(pushed)
    requires forall q :: IsTakkyubin(q) ==> multiset(pushed)[q] <= 1
    requires forall q, q' :: q in pushed && q' in pushed && IsTakkyubin(q) && IsTakkyubin(q') ==> q == q'
    ensures |results| == |pushed|
    ensures forall q :: q in results <==> q in pushed
    ensures forall i, j :: 0 <= i < |results| && 0 <= j < |results| && IsTakkyubin(results[i]) && IsTakkyubin(results[j]) ==> i == j
  {
    assert |results| == |multiset(results)| == |multiset(pushed)| == |pushed|;
    assert forall q :: q in results <==> q in multiset(pushed);
    forall i, j | 0 <= i < |results| && 0 <= j < |results| && IsTakkyubin(results[i]) && IsTakkyubin(results[j])
      ensures i == j
    {
      if i != j {
        assert results[i] in pushed && results[j] in pushed;
        if i < j { RepeatedElementCount(results, i, j); } else { RepeatedElementCount(results, j, i); }
      }
    }
  }
}
