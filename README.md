# shipsmartapp shipping core, modelled in Dafny

The app helps flea-market sellers in Japan pick a shipping service for a
parcel. This project models its deterministic core:

- **RealRates** (`real_rates.dfy`): the region-pair rate data. It maps a
  prefecture to one of twelve carrier regions and sorts a parcel into a size
  band. It prices takkyubin compact and takkyubin 60 from two 12×12 matrices
  and three post-box services at flat national rates. The result is the list
  of every qualifying service, sorted by price.
- **Catalogue** (`catalogue.dfy`): the five-service catalogue with four
  ceilings each and a same / neighbor / distant price. It also holds the
  prefecture-to-region lists with their Kanto fallback and the hand-written
  adjacency table that decides the distance bucket.
- **Resolver** (`resolver.dfy`): the diagnosis the app runs. It coerces the
  form's numbers (NaN becomes 0) and keeps the services whose ceilings hold.
  It prices each one by the bucket from Kanto to the destination, sorts by
  price, and ranks the three cheapest with a medal icon, a recommended flag
  and the "cheapest"/"fastest" marks. The size-compatibility summary is here
  too.
- **Validation** (`validation.dfy`): the form validator's error and warning
  lists, the range rules, the prefecture list and the substring-based
  destination auto-corrector.
- **QrCode** (`qr_code.dfy`): the QR payload record, its display text, the
  per-service instruction and store tables with their defaults, the pickup
  variant, and validation and parsing of a scanned payload over an abstract
  JSON value.
- Support modules:
  - `wrappers.dfy` holds `Option`.
  - `text.dfy` holds `startsWith`, `includes` and `join`.
  - `sorting.dfy` holds `Array.prototype.sort` by price: an in-place
    insertion sort on an `array`, proved sorted and a permutation.
  - `shipping_types.dfy` holds the form, option and result records.

The step-by-step code is modelled imperatively: the pushes into the cost
list, the resolver's loop over the catalogue, the in-place sort, and the
validator's error and warning pushes. Each of these methods is proved
against a specification function, such as `Candidates`, `Compatible`,
`BaseOptions` or `Problems`, and the source's promises are proved as lemmas
about those functions. The lookups, tables and QR helpers are functions.

Calls into the JavaScript runtime are parameters:

- `parseFloat` is `string -> Option<real>`, with `None` standing for NaN.
- The conversion of a number to text, and the regular expression that strips
  a leading emoji from an option name, are in `Resolver.Host`.
- `JSON.stringify`, the clock, `toLocaleString('ja-JP')` and the rendering of
  a price are in `QrCode.Platform`.
- `JSON.parse` is `string -> Option<Json>`, with `None` standing for a thrown
  exception.

Measurements are Dafny `real`, which is exact, so thresholds such as 2.5 and
32.7 compare as written.

## Model

| member | source | states |
|---|---|---|
| RealRates.PrefectureToRegion | data/realShippingDatabase.ts:6-54 | `prefectureToRegion[p]`: a region exactly for the table's keys, and then the one listed against that key; `undefined` for any other name |
| RealRates.PrefectureListMatchesRegionTable | utils/validation.ts:31-41 | the 47 names of `prefectures`, which nothing in the code reads, are exactly the names the rate table gives a region; the destination picker (components/EnhancedInputScreen.tsx:193-239) hard-codes the same 47 names besides its empty placeholder `""` (:192), which has no region |
| RealRates.SameRegionRates | data/realShippingDatabase.ts:57-134 | every same-region cell is 720 in the compact matrix and 940 in the 60 matrix |
| RealRates.SameRegionIsCheapest | data/realShippingDatabase.ts:57-134 | no cell in a row is below that row's same-region cell, in either matrix |
| RealRates.RatesSymmetric | data/realShippingDatabase.ts:57-134 | both matrices charge the same from A to B as from B to A |
| RealRates.GetSizeCategory | data/realShippingDatabase.ts:142-159 | compact iff length ≤ 25, width ≤ 20 and thickness ≤ 5, whatever the sum; otherwise the smallest band of 60…180 whose limit the dimension sum does not exceed, else 200 |
| RealRates.SizeCategoryIgnoresWeight | data/realShippingDatabase.ts:142-159 | the weight argument never changes the band |
| RealRates.RegionTakkyubin | data/realShippingDatabase.ts:196-211 | the two guarded takkyubin pushes for two looked-up regions: an entry iff the band is compact or 60 and both regions are known, and it is a takkyubin service |
| RealRates.TakkyubinForFacts | data/realShippingDatabase.ts:195-211 | for `TakkyubinFor`, the takkyubin entry from two prefectures: it exists iff the band is compact or 60 and both prefectures are table keys; its price is the cell [from][to] of the compact or the 60 matrix |
| RealRates.TakkyubinPrice | data/realShippingDatabase.ts:195-211 | a takkyubin entry costs at least 720 yen |
| RealRates.RegionTakkyubinPrice | data/realShippingDatabase.ts:57-134 | the same 720-yen floor for any two regions, from the same-region cells |
| RealRates.PushCandidates | data/realShippingDatabase.ts:171-220 | the successive pushes build exactly `Candidates`, the list `Pushed` gives for the tables' takkyubin entry `TakkyubinFor`; `PushedPostBox` and `PushedTakkyubin` state what that list holds |
| RealRates.PushForRegions | data/realShippingDatabase.ts:175-220 | the five guarded pushes, once the regions and band are known, build `Pushed` for `RegionTakkyubin` |
| RealRates.PushedPostBox | data/realShippingDatabase.ts:177-220 | at most 4 candidates; yupacket-post iff thickness ≤ 3 and weight ≤ 2000, nekopos iff ≤ 2.5 and ≤ 1000, yupacket iff ≤ 3 and ≤ 1000, at 200/230/250 yen; every other entry is takkyubin |
| RealRates.PushedTakkyubinCount | data/realShippingDatabase.ts:177-220 | a takkyubin service is listed in `Pushed` exactly as often as in the tables' entry, since the post-box pushes are never takkyubin |
| RealRates.PushedTakkyubin | data/realShippingDatabase.ts:195-211 | at most one takkyubin entry, appearing once, and it is the one the tables give |
| RealRates.PushedPrices | data/realShippingDatabase.ts:137-220 | every candidate other than yupacket-post costs more than 200 yen |
| RealRates.CheapestFirst | data/realShippingDatabase.ts:222 | in a price-sorted list, an entry cheaper than all others is at the head |
| RealRates.PermutationKeepsEntries | data/realShippingDatabase.ts:222 | a reordering keeps the length and the entries, and keeps a single takkyubin entry single |
| RealRates.CalculateActualShippingCost | data/realShippingDatabase.ts:162-223 | the result is sorted by price and is a permutation of the candidates; it has the three post-box presence conditions, at most one takkyubin entry priced from the tables, at most 4 entries, and yupacket-post first whenever it qualifies |
| ArraySort.SortByPrice | data/realShippingDatabase.ts:222 | the array is sorted in place into non-decreasing price order and holds the same multiset |
| ArraySort.SortPushed | utils/realCalculator.ts:54 | the pushed list comes back sorted by price, a permutation of the input, with the same length |
| Catalogue.FirstMatch | data/shippingDatabase.ts:145-149 | the index of the first region list holding the prefecture, every earlier list lacking it, or the list count if none holds it |
| Catalogue.RegionListsDisjoint | data/shippingDatabase.ts:132-142 | no prefecture is in two region lists |
| Catalogue.RegionIsUniqueMatch | data/shippingDatabase.ts:144-151 | `GetRegionFromPrefecture` of a listed prefecture is the one region whose list holds it |
| Catalogue.UnlistedPrefectureIsKanto | data/shippingDatabase.ts:144-151 | `GetRegionFromPrefecture` of a name in no list is 関東 |
| Catalogue.SameRegionIsSame | data/shippingDatabase.ts:154-156 | `GetDistanceCategory` puts a region in the same bucket as itself |
| Catalogue.NeighborTableSymmetric | data/shippingDatabase.ts:159-171 | B is listed as A's neighbour iff A is listed as B's, unknown regions having none |
| Catalogue.DistanceSymmetric | data/shippingDatabase.ts:153-177 | `GetDistanceCategory` from A to B equals the bucket from B to A, for any two strings |
| Catalogue.OkinawaIsDistant | data/shippingDatabase.ts:168-176 | 沖縄 paired with any other region is distant, both ways |
| Catalogue.UnknownOriginIsDistant | data/shippingDatabase.ts:171-176 | an origin missing from the adjacency table is distant from every other region |
| Catalogue.PricesGrowWithDistance | data/shippingDatabase.ts:28-129 | for every service, same ≤ neighbor ≤ distant |
| Catalogue.FlatRateServices | data/shippingDatabase.ts:40-64 | yupack-post costs 200 and nekopos 210 in every bucket |
| Catalogue.NekoposDominated | data/shippingDatabase.ts:34-64 | every nekopos ceiling is at most yupack-post's, and nekopos is dearer in every bucket |
| Catalogue.ServiceIdsDistinct | data/shippingDatabase.ts:28-129 | no two catalogue entries share an id |
| Catalogue.PricesDistinct | data/shippingDatabase.ts:28-129 | in every bucket the five services have five different prices |
| Resolver.MeasuresOf | utils/realCalculator.ts:6-9 | each of the four measures is 0 when its field parses to NaN and the parsed number otherwise, before any comparison |
| Resolver.Compatible | utils/realCalculator.ts:25-33 | a service is kept iff it is in the list and `WithinLimits`, all four ceilings, holds; no longer than the list |
| Resolver.CompatibleCounts | utils/realCalculator.ts:25-33 | the filter keeps a fitting service as many times as the list holds it and drops every other one: it is a sub-multiset filter, not just a membership filter |
| Resolver.CollectFrom | utils/realCalculator.ts:23-51 | the loop pushes, in order, the option of every service whose ceilings hold |
| Resolver.CollectOptions | utils/realCalculator.ts:22-51 | the same, over the catalogue |
| Resolver.FittingServiceOffered | utils/realCalculator.ts:33-50 | every fitting catalogue service yields its option among `BaseOptions`, one option per kept service in order |
| Resolver.BaseOptionDescribes | utils/realCalculator.ts:34-49 | `BaseOption` keeps the id, delivery days and features, names the service by emoji and display name, takes the bucket's price, and its description holds every advantage |
| Resolver.Rank | utils/realCalculator.ts:57-82 | the name starts with the rank's icon; id, price, days and description are kept; recommended iff index 0; features are the original ones followed by 最安 at index 0 only and then 最速 iff the days mention 翌日, in that order |
| Resolver.RankTop | utils/realCalculator.ts:57 | min(3, n) options, the i-th ranked at i; sorted input gives sorted output |
| Resolver.CheapestOfAll | utils/realCalculator.ts:54-62 | the head of the sorted list costs no more than any fitting service, ranked or not |
| Resolver.RankedOptions | utils/realCalculator.ts:53-82 | the ranked top three of a sorted permutation of the fitting options, with the recommended and icon facts and the cheapest-of-all bound |
| Resolver.CalculateRealShipping | utils/realCalculator.ts:5-97 | the summary echoes 東京都, the destination and the coerced numbers; the options are the ranked top three of the sorted fitting options, sorted, min(3, fitting) many, recommended exactly at index 0, head no dearer than any fitting service, and empty exactly when no service fits |
| Resolver.CheckSizeCompatibility | utils/realCalculator.ts:100-118 | hasOptions iff the count is positive; the count is the number of fitting catalogue services and of names; the names are the fitting services' display names in catalogue order, so a name is listed iff some fitting service has it |
| Resolver.FittingCount | utils/realCalculator.ts:106-111 | the filtered catalogue is as long as the set of fitting catalogue services |
| Resolver.FilterCount | utils/realCalculator.ts:106-111 | over any list without repeats, the filter is as long as the set of fitting services |
| Resolver.CatalogueOnce | data/shippingDatabase.ts:28-129 | each catalogue service is listed once |
| Resolver.NekoposFitImpliesYupackPostFit | utils/realCalculator.ts:27-34 | whenever nekopos fits, yupack-post fits too and is cheaper |
| Resolver.YupackPostRanksAhead | utils/realCalculator.ts:54 | in a price-sorted list yupack-post's option stands before nekopos's |
| Resolver.OnlyYupackPostAt200 | data/shippingDatabase.ts:28-129 | yupack-post is the only service at 200 yen or less in any bucket |
| Resolver.SmallParcelCheapestIsYupackPost | utils/realCalculator.ts:25-57 | for a 25×18×2.8 cm, 450 g parcel the head of the sorted options is yupack-post at 200 yen, in every bucket |
| Resolver.AllFit | utils/realCalculator.ts:106-111 | when every service fits, the filter keeps the whole list in order |
| Resolver.BlankFormFitsEveryService | utils/realCalculator.ts:6-31 | an unreadable form coerces to zeros and every catalogue service fits it |
| Text.Includes | utils/realCalculator.ts:72 | `includes` holds iff the key occurs at some position |
| Text.Join | utils/realCalculator.ts:48 | no parts give "", one part gives itself, more start with the first part and the separator |
| Text.JoinLayout | utils/realCalculator.ts:48 | the joined text is every part at its offset, one separator after each but the last, and nothing more: its length is the last offset plus the last part |
| Validation.RuleFor | utils/validation.ts:20-29 | each field's accepted range is a non-empty interval of positive numbers: 1–100, 1–100, 0.1–60, 1–30000 |
| Validation.MessageTextInjective | utils/validation.ts:54-90 | different problems push different texts |
| Validation.FieldProblems | utils/validation.ts:63-85 | a field adds at most one error: the positive-number one iff NaN or ≤ 0, otherwise the range one iff outside [min, max], nothing iff in range |
| Validation.ProblemReported | utils/validation.ts:54-90 | a problem is listed iff its check fails |
| Validation.ProblemsDistinct | utils/validation.ts:54-90 | no problem is listed twice |
| Validation.ProblemsCount | utils/validation.ts:54-90 | one error for an empty category, two for an empty destination, one per bad field |
| Validation.ProblemsFacts | utils/validation.ts:54-90 | the three facts above together |
| Validation.NoProblemsIffValid | utils/validation.ts:54-90 | no problem iff category and destination are filled in and every field is in range |
| Validation.CheckField | utils/validation.ts:63-85 | one field's checks push exactly that field's problem texts |
| Validation.CollectErrors | utils/validation.ts:44-90 | the error list is the texts of the problems, in check order |
| Validation.CollectWarnings | utils/validation.ts:92-108 | strict thresholds: thickness > 3, weight > 1000, length or width > 50; NaN never warns; no warning when there are errors; each warning at most once, in the order thickness, weight, size (`WarningsInOrder`) |
| Validation.ValidateProductInfo | utils/validation.ts:43-115 | isValid iff no errors; an error text is present iff its check fails; no duplicates; the error count; no warnings with errors; the warning conditions and their order |
| Validation.FirstKeyFrom | utils/validation.ts:133-137 | the first key from position i on that occurs in the input, every key before it absent |
| Validation.AutoCorrectDestination | utils/validation.ts:118-139 | empty input unchanged; otherwise the value of the first key, in declaration order, that occurs in the input, else the input |
| Validation.FirstKeyAt | utils/validation.ts:133-137 | a name starting with the k-th key, where every earlier key misses a character, corrects to the k-th replacement |
| Validation.ReplacementIsFixed | utils/validation.ts:122-131 | every replacement corrects to itself |
| Validation.AutoCorrectIdempotent | utils/validation.ts:118-139 | correcting twice equals correcting once |
| QrCode.ToJson | utils/qrCodeService.ts:35-54 | the payload is a JSON object holding the five keys a scanner checks |
| QrCode.GenerateDisplayText | utils/qrCodeService.ts:98-107 | the text starts with the bracketed service name and a line break |
| QrCode.GeneratePickupDisplayText | utils/qrCodeService.ts:109-123 | without a location it is the base text; the base text is always a prefix; with a location it is longer |
| QrCode.TablesNumbered | utils/qrCodeService.ts:126-168 | every instruction list, the default included, has at most five steps and step i starts with "i+1. " |
| QrCode.KnownIdsAreTableKeys | utils/qrCodeService.ts:126-190 | the five known ids are exactly the keys of the instruction table and of the store table |
| QrCode.GenerateInstructions | utils/qrCodeService.ts:125-169 | the table's own list for a listed id (five steps, never the default), the fixed three-step default for any other id, always numbered |
| QrCode.GeneratePickupInstructions | utils/qrCodeService.ts:171-178 | the two visiting lines followed by the service's steps, two longer |
| QrCode.GetSupportedBy | utils/qrCodeService.ts:180-190 | 対応店舗 for an unknown id; each known id's own store list, never the default |
| QrCode.CatalogueIdsAreKnown | utils/qrCodeService.ts:126-187 | every catalogue id is a key of both tables and gets the table's own five steps and store list, so resolver options never reach the defaults |
| QrCode.GenerateShippingQR | utils/qrCodeService.ts:30-59 | display text led by the option name; steps and stores of the option's id |
| QrCode.GeneratePickupLocationQR | utils/qrCodeService.ts:62-96 | the shipping QR's steps after the two visiting lines, the same stores, and a display text extending the shipping one, equal without a location |
| QrCode.ValidateQRCode | utils/qrCodeService.ts:193-206 | true iff the string parses and all five required keys are present and truthy |
| QrCode.ParseQRCode | utils/qrCodeService.ts:209-219 | a payload iff validation holds, and then it is the parsed object |
| QrCode.GeneratedPayloadValidates | utils/qrCodeService.ts:30-206 | when parsing inverts serialising, the payload `BuildData` and `ToJson` produce validates iff the option's name and id and the timestamp are non-empty |
| QrCode.ScannedPayloadRecordsSelection | utils/qrCodeService.ts:35-51 | when parsing inverts serialising, a scanned shipping payload gives back the option's name, id and price, the timestamp and the form's destination |

## Left out

- User interface, PWA, service worker, AI analysis, build scripts and `utils/simpleCalculator.ts` are not part of this model.
- `console.log` calls are not modelled: they are output only.
- `parseFloat` is a parameter. NaN is `None` and every number is an exact `real`. Infinity, floating-point rounding and binary representation are not modelled.
- The conversion of numbers to text, the clock, `toLocaleString`, `JSON.stringify` and `JSON.parse` are parameters. The model proves nothing about what they return beyond what the callers' contracts assume.
- Resolver.Rank: the emoji-stripping regular expression is a parameter, so the contract states only that the name starts with the rank icon and a space. What the expression removes depends on how the engine treats the UTF-16 halves of an emoji in a character class; the model does not represent UTF-16.
- The unused `rankNames` array is not modelled.
- Object-literal lookups treat only the listed keys as present. In JavaScript, inherited names such as `constructor` would also find a value; that behaviour is not modelled.
- Validation.ValidateProductInfo: the form is typed `any` in the source. The model takes a record of strings, so an absent field is read as empty text, and `!productInfo.category` is modelled as the category being empty.
- Validation.Prefectures: nothing in the code reads `prefectures` (utils/validation.ts:31-41); the destination picker hard-codes its own items. The list is related to the rate data's region table (`RealRates.PrefectureListMatchesRegionTable`); no lemma states that auto-correction leaves every listed name unchanged.
- The two region tables are kept separate and not reconciled. 山梨県 is Kanto in the rate data but 中部 in the catalogue lists. 三重県 is Chubu in the rate data but 関西 in the catalogue lists.
- ArraySort.SortByPrice: the sort is not stated to be stable. No caller can observe the difference: the cost list holds at most one entry at each price (200, 230 and 250 yen for the post-box services, at least 720 for its single takkyubin entry), and the catalogue's five services have five distinct prices in every bucket (`Catalogue.PricesDistinct`).
- The code has no fallback option list when no service fits, no drop-off discount, no per-size-band multipliers and no profit arithmetic, so the model has none either; `CalculateRealShipping` returns an empty option list exactly when no service fits.
- The origin is fixed to 東京都 / 関東, as in the code, not taken from the form.
