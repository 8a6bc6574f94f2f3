/**
 * The QR helpers (utils/qrCodeService.ts): the payload record, its display
 * text, the per-service instruction and support-store tables with their
 * defaults, the pickup variant, and validation of a scanned payload over an
 * abstract JSON value.
 */
module QrCode {
  import opened Wrappers
  import opened Text
  import opened ShippingTypes
  import Catalogue

  datatype QrType = ShippingLabel | Tracking | PickupInfo

  datatype QrProductInfo = QrProductInfo(category: string, dimensions: string, weight: string, destination: string)

  datatype ShippingDetails = ShippingDetails(price: int, deliveryDays: string, features: seq<string>)

  datatype QRCodeData = QRCodeData(
    service: string,
    serviceId: string,
    productInfo: QrProductInfo,
    shippingDetails: ShippingDetails,
    timestamp: string,
    qrType: QrType)

  datatype ShippingQRResult = ShippingQRResult(qrData: string, displayText: string, instructions: seq<string>, supportedBy: string)

  datatype LocationInfo = LocationInfo(storeName: string, address: string, hours: string)

  /** A JSON value as `JSON.parse` produces it; an object keeps the last value given for a key. */
  datatype Json =
    | JNull
    | JBool(b: bool)
    | JNumber(n: real)
    | JString(s: string)
    | JArray(items: seq<Json>)
    | JObject(fields: map<string, Json>)

  /**
   * What the helpers take from the platform: `JSON.stringify`, the clock
   * (`new Date().toISOString()`), `toLocaleString('ja-JP')` of a timestamp,
   * and the decimal rendering of a price.
   */
  datatype Platform = Platform(
    stringify: Json -> string,
    now: string,
    localeTime: string -> string,
    priceText: int -> string)

  /** The payload record built from the form and the chosen option. */
  function BuildData(info: ProductInfo, option: ShippingOption, timestamp: string, qrType: QrType): QRCodeData {
    QRCodeData(
      option.name,
      option.id,
      QrProductInfo(info.category, info.length + "x" + info.width + "x" + info.thickness + "cm",
                    info.weight + "g", info.destination),
      ShippingDetails(option.price, option.deliveryDays, option.features),
      timestamp,
      qrType)
  }

  function QrTypeName(t: QrType): string {
    match t
    case ShippingLabel => "shipping_label"
    case Tracking => "tracking"
    case PickupInfo => "pickup_info"
  }

  /** The JSON object the payload record serialises as. */
  function ToJson(d: QRCodeData): (j: Json)
    ensures j.JObject?
    ensures forall k :: k in RequiredKeys ==> k in j.fields
  {
    JObject(map[
      "service" := JString(d.service),
      "serviceId" := JString(d.serviceId),
      "productInfo" := JObject(map[
        "category" := JString(d.productInfo.category),
        "dimensions" := JString(d.productInfo.dimensions),
        "weight" := JString(d.productInfo.weight),
        "destination" := JString(d.productInfo.destination)]),
      "shippingDetails" := JObject(map[
        "price" := JNumber(d.shippingDetails.price as real),
        "deliveryDays" := JString(d.shippingDetails.deliveryDays),
        "features" := JArray(seq(|d.shippingDetails.features|, i requires 0 <= i < |d.shippingDetails.features| =>
                               JString(d.shippingDetails.features[i])))]),
      "timestamp" := JString(d.timestamp),
      "qrType" := JString(QrTypeName(d.qrType))])
  }

  /** The eight display lines joined by line breaks. */
  function GenerateDisplayText(d: QRCodeData, platform: Platform): (r: string)
    ensures StartsWith(r, "【" + d.service + "】" + "\n")
  {
    Join([
      "【" + d.service + "】",
      "📦 " + d.productInfo.category,
      "📏 " + d.productInfo.dimensions,
      "⚖️ " + d.productInfo.weight,
      "🏠 " + d.productInfo.destination,
      "💰 ¥" + platform.priceText(d.shippingDetails.price),
      "⏰ " + d.shippingDetails.deliveryDays,
      "🕐 " + platform.localeTime(d.timestamp)], "\n")
  }

  /** The display text, followed by three store lines when a location is given. */
  function GeneratePickupDisplayText(d: QRCodeData, location: Option<LocationInfo>, platform: Platform): (r: string)
    ensures location.None? ==> r == GenerateDisplayText(d, platform)
    ensures StartsWith(r, GenerateDisplayText(d, platform))
    ensures location.Some? ==> |r| > |GenerateDisplayText(d, platform)|
  {
    var base := GenerateDisplayText(d, platform);
    match location
    case None => base
    case Some(l) =>
      var r := base + "\n📍 " + l.storeName + "\n🏢 " + l.address + "\n🕒 " + l.hours;
      assert r[..|base|] == base;
      r
  }

  const YupackPostId := "yupack-post"
  const NekoposId := "nekopos"
  const YupackLightId := "yupack-light"
  const TakkyubinCompactId := "takkyubin-compact"
  const Yupack60Id := "yupack-60"

  /** The first nekopos step, in two parts: where to go, then the convenience-store chains. */
  const NekoposFirstStep := "1. ヤマト運輸営業所またはコンビニ"
  const NekoposFirstStepStores := "（セブン-イレブン、ファミマ、デイリー）へ"

  /** The per-service drop-off steps. */
  const InstructionMap: map<string, seq<string>> := map[
    YupackPostId := [
      "1. 最寄りの郵便局またはゆうパケットポスト対応店舗へ",
      "2. このQRコードを店員に提示",
      "3. 専用封筒を購入（¥10）",
      "4. 商品を封筒に入れて封をする",
      "5. 宛先ラベルを貼付して投函"],
    NekoposId := [
      NekoposFirstStep + NekoposFirstStepStores,
      "2. このQRコードを店員に提示",
      "3. ネコポス専用袋を使用",
      "4. 集荷サービスも利用可能",
      "5. 追跡番号で配送状況を確認"],
    YupackLightId := [
      "1. 郵便局またはローソンへ",
      "2. このQRコードを店員に提示",
      "3. ゆうパケット専用ラベルを受け取り",
      "4. 梱包してラベルを貼付",
      "5. 窓口で差し出し"],
    TakkyubinCompactId := [
      "1. ヤマト運輸営業所またはコンビニへ",
      "2. このQRコードを店員に提示",
      "3. 宅急便コンパクト専用BOXを購入（¥70）",
      "4. 商品をBOXに梱包",
      "5. 送り状を記入して発送"],
    Yupack60Id := [
      "1. 郵便局窓口へ",
      "2. このQRコードを店員に提示",
      "3. ゆうパック伝票を記入",
      "4. 適切なサイズの箱で梱包",
      "5. 重量・サイズ確認後に発送"]
  ]

  const DefaultInstructions: seq<string> := [
    "1. 対応店舗へ持参",
    "2. QRコードを提示",
    "3. 店員の指示に従って発送"
  ]

  /** The ids both tables know. */
  const KnownIds: seq<string> := [YupackPostId, NekoposId, YupackLightId, TakkyubinCompactId, Yupack60Id]

  /** The known ids are exactly the keys of the instruction table and of the store table. */
  lemma KnownIdsAreTableKeys()
    ensures forall id :: id in KnownIds <==> id in InstructionMap
    ensures forall id :: id in KnownIds <==> id in SupportMap
  {
  }

  /** The label a numbered step starts with: `"1. "` for the first. */
  function StepLabel(i: nat): string
    requires i < 5
  {
    ["12345"[i]] + ". "
  }

  /** Each step starts with its own number: at most five steps, labelled from `"1. "` on. */
  predicate Numbered(steps: seq<string>) {
    |steps| <= 5 && forall i :: 0 <= i < |steps| ==> StartsWith(steps[i], StepLabel(i))
  }

  /** A list whose elements carry the labels 1 to n in order is numbered. */
  lemma NumberedByPosition(steps: seq<string>)
    requires |steps| <= 5
    requires |steps| > 0 ==> StartsWith(steps[0], "1. ")
    requires |steps| > 1 ==> StartsWith(steps[1], "2. ")
    requires |steps| > 2 ==> StartsWith(steps[2], "3. ")
    requires |steps| > 3 ==> StartsWith(steps[3], "4. ")
    requires |steps| > 4 ==> StartsWith(steps[4], "5. ")
    ensures Numbered(steps)
  {
    forall i | 0 <= i < |steps| ensures StartsWith(steps[i], StepLabel(i)) {
      if i == 0 {
        assert StepLabel(0) == "1. ";
      } else if i == 1 {
        assert StepLabel(1) == "2. ";
      } else if i == 2 {
        assert StepLabel(2) == "3. ";
      } else if i == 3 {
        assert StepLabel(3) == "4. ";
      } else {
        assert StepLabel(4) == "5. ";
      }
    }
  }

  /** Every list of steps, the default included, is numbered. */
  lemma TablesNumbered()
    ensures forall id :: id in InstructionMap ==> Numbered(InstructionMap[id])
    ensures Numbered(DefaultInstructions)
  {
    NumberedByPosition(InstructionMap[YupackPostId]);
    StartsWithExtend(NekoposFirstStep, NekoposFirstStepStores, "1. ");
    NumberedByPosition(InstructionMap[NekoposId]);
    NumberedByPosition(InstructionMap[YupackLightId]);
    NumberedByPosition(InstructionMap[TakkyubinCompactId]);
    NumberedByPosition(InstructionMap[Yupack60Id]);
    NumberedByPosition(DefaultInstructions);
  }

  /** `instructionMap[serviceId] || defaults`; a listed array is never falsy. */
  function GenerateInstructions(serviceId: string): (r: seq<string>)
    ensures serviceId in InstructionMap ==> r == InstructionMap[serviceId]
    ensures serviceId in KnownIds ==> |r| == 5 && r != DefaultInstructions
    ensures serviceId !in KnownIds ==> r == DefaultInstructions
    ensures Numbered(r)
  {
    TablesNumbered();
    KnownIdsAreTableKeys();
    if serviceId in InstructionMap then InstructionMap[serviceId] else DefaultInstructions
  }

  const PickupLines: seq<string> := [
    "📍 最寄りの対応店舗を確認してから来店してください",
    "🕒 営業時間内に来店してください"
  ]

  /** The two visiting reminders, then the service's usual steps. */
  function GeneratePickupInstructions(serviceId: string): (r: seq<string>)
    ensures |r| == |GenerateInstructions(serviceId)| + 2
    ensures r[..2] == PickupLines && r[2..] == GenerateInstructions(serviceId)
  {
    PickupLines + GenerateInstructions(serviceId)
  }

  /** The stores that accept each service. */
  const SupportMap: map<string, string> := map[
    YupackPostId := "郵便局、ローソン、ミニストップ",
    NekoposId := "ヤマト運輸、セブン-イレブン、ファミリーマート、デイリーヤマザキ",
    YupackLightId := "郵便局、ローソン",
    TakkyubinCompactId := "ヤマト運輸、セブン-イレブン、ファミリーマート、デイリーヤマザキ",
    Yupack60Id := "郵便局"
  ]

  const DefaultSupport := "対応店舗"

  /** `supportMap[serviceId] || '対応店舗'`; every listed name is non-empty. */
  function GetSupportedBy(serviceId: string): (r: string)
    ensures serviceId !in KnownIds ==> r == DefaultSupport
    ensures serviceId in KnownIds ==> r != DefaultSupport && r == SupportMap[serviceId]
  {
    KnownIdsAreTableKeys();
    if serviceId in SupportMap && SupportMap[serviceId] != "" then SupportMap[serviceId] else DefaultSupport
  }

  /** Every service of the catalogue has its own steps and its own store list. */
  lemma CatalogueIdsAreKnown(s: Catalogue.ShippingService)
    requires s in Catalogue.ShippingServices
    ensures s.id in KnownIds
    ensures s.id in InstructionMap && GenerateInstructions(s.id) == InstructionMap[s.id]
    ensures |GenerateInstructions(s.id)| == 5 && GenerateInstructions(s.id) != DefaultInstructions
    ensures s.id in SupportMap && GetSupportedBy(s.id) == SupportMap[s.id]
    ensures GetSupportedBy(s.id) != DefaultSupport
  {
  }

  /** `generateShippingQR`: a shipping-label payload, its text, steps and stores. */
  function GenerateShippingQR(info: ProductInfo, option: ShippingOption, platform: Platform): (r: ShippingQRResult)
    ensures StartsWith(r.displayText, "【" + option.name + "】" + "\n")
    ensures r.instructions == GenerateInstructions(option.id)
    ensures r.supportedBy == GetSupportedBy(option.id)
  {
    var d := BuildData(info, option, platform.now, ShippingLabel);
    ShippingQRResult(platform.stringify(ToJson(d)), GenerateDisplayText(d, platform),
                     GenerateInstructions(option.id), GetSupportedBy(option.id))
  }

  /** `generatePickupLocationQR`: the same payload typed as pickup information, with store details. */
  function GeneratePickupLocationQR(info: ProductInfo, option: ShippingOption, location: Option<LocationInfo>,
                                    platform: Platform): (r: ShippingQRResult)
    ensures r.instructions == PickupLines + GenerateShippingQR(info, option, platform).instructions
    ensures r.supportedBy == GenerateShippingQR(info, option, platform).supportedBy
    ensures location.None? ==> r.displayText == GenerateShippingQR(info, option, platform).displayText
    ensures StartsWith(r.displayText, GenerateShippingQR(info, option, platform).displayText)
  {
    var d := BuildData(info, option, platform.now, PickupInfo);
    assert GenerateDisplayText(d, platform)
        == GenerateDisplayText(BuildData(info, option, platform.now, ShippingLabel), platform);
    ShippingQRResult(platform.stringify(ToJson(d)), GeneratePickupDisplayText(d, location, platform),
                     GeneratePickupInstructions(option.id), GetSupportedBy(option.id))
  }

  /** JavaScript truthiness of a JSON value. */
  predicate Truthy(j: Json) {
    match j
    case JNull => false
    case JBool(b) => b
    case JNumber(n) => n != 0.0
    case JString(s) => s != ""
    case JArray(_) => true
    case JObject(_) => true
  }

  /** `data[key]` is present and truthy; reading a key of anything but an object gives nothing. */
  predicate HasTruthy(data: Json, key: string) {
    data.JObject? && key in data.fields && Truthy(data.fields[key])
  }

  const RequiredKeys: seq<string> := ["service", "serviceId", "productInfo", "shippingDetails", "timestamp"]

  /**
   * `validateQRCode`: the string parses and the five keys are truthy. A parse
   * failure (`None`) and a `null` payload both end in the caught exception.
   */
  function ValidateQRCode(qrString: string, parse: string -> Option<Json>): (ok: bool)
    ensures ok <==> parse(qrString).Some? && forall k :: k in RequiredKeys ==> HasTruthy(parse(qrString).value, k)
  {
    match parse(qrString)
    case None => false
    case Some(data) =>
      HasTruthy(data, "service") && HasTruthy(data, "serviceId") && HasTruthy(data, "productInfo")
      && HasTruthy(data, "shippingDetails") && HasTruthy(data, "timestamp")
  }

  /** `parseQRCode`: the parsed payload when it validates, else nothing. */
  function ParseQRCode(qrString: string, parse: string -> Option<Json>): (r: Option<Json>)
    ensures r.Some? <==> ValidateQRCode(qrString, parse)
    ensures r.Some? ==> parse(qrString) == Some(r.value) && r.value.JObject?
  {
    match parse(qrString)
    case None => None
    case Some(data) => if ValidateQRCode(qrString, parse) then Some(data) else None
  }

  /**
   * When parsing inverts serialising, a freshly generated payload validates
   * exactly when the service name, its id and the timestamp are non-empty.
   */
  lemma GeneratedPayloadValidates(info: ProductInfo, option: ShippingOption, platform: Platform,
                                  parse: string -> Option<Json>)
    requires var d := BuildData(info, option, platform.now, ShippingLabel);
      parse(platform.stringify(ToJson(d))) == Some(ToJson(d))
    ensures ValidateQRCode(GenerateShippingQR(info, option, platform).qrData, parse)
        <==> option.name != "" && option.id != "" && platform.now != ""
  {
  }

  /**
   * When parsing inverts serialising, a scanned shipping payload that parses
   * gives back the chosen option's name, id and price and the destination of
   * the form.
   */
  lemma ScannedPayloadRecordsSelection(info: ProductInfo, option: ShippingOption, platform: Platform,
                                       parse: string -> Option<Json>)
    requires var d := BuildData(info, option, platform.now, ShippingLabel);
      parse(platform.stringify(ToJson(d))) == Some(ToJson(d))
    ensures var r := ParseQRCode(GenerateShippingQR(info, option, platform).qrData, parse);
      r.Some? ==>
        && r.value.fields["service"] == JString(option.name)
        && r.value.fields["serviceId"] == JString(option.id)
        && r.value.fields["timestamp"] == JString(platform.now)
        && r.value.fields["shippingDetails"].JObject?
        && "price" in r.value.fields["shippingDetails"].fields
        && r.value.fields["shippingDetails"].fields["price"] == JNumber(option.price as real)
        && r.value.fields["productInfo"].JObject?
        && "destination" in r.value.fields["productInfo"].fields
        && r.value.fields["productInfo"].fields["destination"] == JString(info.destination)
  {
  }
}
