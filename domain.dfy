/** Entities shared by the shipment lifecycle engine: the closed status
    enumeration, shipments with their event timeline, delivery partners,
    sellers and reviews, plus the failures the services report. */
module Domain {

  datatype Option<+T> = None | Some(value: T)

  /** The exceptions the services raise, by name. NoPriorEvent stands for the
      IndexError raised when the latest event of an empty timeline is asked for. */
  datatype Error =
    | EntityNotFound
    | ClientNotAuthorized
    | DeliveryPartnerNotAvailable
    | InvalidToken
    | NoPriorEvent

  datatype Result<+T> = Ok(value: T) | Err(error: Error)

  datatype ShipmentStatus = Placed | InTransit | OutForDelivery | Delivered | Cancelled

  predicate IsTerminal(s: ShipmentStatus) {
    s == Delivered || s == Cancelled
  }

  // Identities are UUIDs generated outside the model; any unbounded type works.
  type ShipmentId = nat
  type SellerId = nat
  type PartnerId = nat
  /** A location is identified by its zip code. */
  type Zip = int
  /** Timestamps, in seconds. */
  type Time = int
  /** A member of the TagName enumeration, by its position in it. */
  type TagName = nat

  const ThreeDays: Time := 3 * 24 * 60 * 60

  /** Python truthiness of an optional integer: None and 0 are falsy. */
  predicate TruthyInt(o: Option<int>) {
    o.Some? && o.value != 0
  }

  /** Python truthiness of an optional string: None and "" are falsy. */
  predicate TruthyText(o: Option<string>) {
    o.Some? && o.value != ""
  }

  datatype Event = Event(
    location: Zip,
    status: ShipmentStatus,
    description: string,
    shipmentId: ShipmentId,
    createdAt: Time)

  datatype Shipment = Shipment(
    id: ShipmentId,
    content: string,
    weight: real,
    destination: Zip,
    clientEmail: string,
    clientPhone: Option<string>,
    estimatedDelivery: Time,
    sellerId: SellerId,
    partnerId: PartnerId,
    timeline: seq<Event>,
    tags: seq<TagName>)

  datatype Seller = Seller(id: SellerId, name: string, zipCode: Zip)

  datatype Partner = Partner(
    id: PartnerId,
    name: string,
    email: string,
    maxCapacity: int,
    locations: seq<Zip>,
    shipments: seq<ShipmentId>)

  datatype Review = Review(rating: int, comment: Option<string>, shipmentId: ShipmentId)
}
