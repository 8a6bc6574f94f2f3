/** The record shapes shared by the resolver, the validator and the QR helpers. */
module ShippingTypes {
  import opened Wrappers

  /** The input form: every field is the text the user typed or picked. */
  datatype ProductInfo = ProductInfo(
    category: string,
    length: string,
    width: string,
    thickness: string,
    weight: string,
    destination: string)

  /** One shipping choice shown to the user; `isRecommended` is absent until ranking sets it. */
  datatype ShippingOption = ShippingOption(
    id: string,
    name: string,
    price: int,
    deliveryDays: string,
    features: seq<string>,
    description: string,
    isRecommended: Option<bool>)

  datatype Summary = Summary(from: string, to: string, size: string, weight: string)

  datatype ShippingResult = ShippingResult(summary: Summary, options: seq<ShippingOption>)

  /** The sort key of both resolvers. */
  function OptionPrice(o: ShippingOption): int { o.price }
}
