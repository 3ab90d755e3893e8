/** The value objects exchanged by the shipping quote service. */
module Model {

  /** Package size in centimetres. */
  datatype Dimensions = Dimensions(length: real, width: real, height: real)

  /** A quote request: two postal codes, weight in kilograms, size, and the tier flag. */
  datatype Request = Request(
    originZipcode: string,
    destinationZipcode: string,
    weight: real,
    dimensions: Dimensions,
    isExpress: bool)

  /** One offered service tier with its cost (in cents) and delivery-time text. */
  datatype ShippingOption = ShippingOption(service: string, cost: real, time: string)

  /** The quote returned to the caller. */
  datatype Response = Response(
    shippingCost: real,
    estimatedDeliveryTime: string,
    availableServices: seq<string>,
    shippingOptions: seq<ShippingOption>)

  /** The internal cost breakdown, all amounts in cents. */
  datatype Details = Details(
    baseCost: real,
    weightSurcharge: real,
    volumeSurcharge: real,
    expressSurcharge: real,
    totalCost: real,
    estimatedDays: int)
}
