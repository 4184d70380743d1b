/** Request bodies of the shipment API and the constraints the validation
    layer puts on them before the services see them. */
module Schemas {
  import opened Domain

  const MaxContentLength := 100
  const MaxWeight: real := 25.0

  /** The fields every shipment body carries: a content description of at
      most 100 characters and a weight of at most 25. */
  predicate ValidBaseShipment(content: string, weight: real) {
    |content| <= MaxContentLength && weight <= MaxWeight
  }

  /** A new shipment: the contact email is required, the phone optional. */
  datatype ShipmentCreate = ShipmentCreate(
    content: string,
    weight: real,
    destination: Zip,
    clientContactEmail: string,
    clientContactPhone: Option<string> := None)

  predicate ValidCreate(c: ShipmentCreate) {
    ValidBaseShipment(c.content, c.weight)
  }

  /** A partial update: every field is optional and absent by default; the
      status can only be a member of ShipmentStatus. */
  datatype ShipmentUpdate = ShipmentUpdate(
    location: Option<Zip> := None,
    status: Option<ShipmentStatus> := None,
    verificationCode: Option<string> := None,
    description: Option<string> := None,
    estimatedDelivery: Option<Time> := None)

  /** The update carries no field at all (the API answers it with
      NothingToUpdate before the service is called). */
  predicate IsEmptyUpdate(u: ShipmentUpdate): (empty: bool)
    ensures empty <==> u == ShipmentUpdate()
  {
    u.location.None? && u.status.None? && u.verificationCode.None? &&
    u.description.None? && u.estimatedDelivery.None?
  }

  /** A review: a rating from 1 to 5 and an optional comment. */
  datatype ShipmentReview = ShipmentReview(rating: int, comment: Option<string> := None)

  predicate ValidReview(r: ShipmentReview) {
    1 <= r.rating <= 5
  }
}
