/** The event ledger (ShipmentEventService): building the next event of a
    shipment, the status-driven description, and the notification each status
    triggers. The verification-code store (Redis) and the mail/SMS queue are
    fields of the service; what would be sent is recorded as intents. */
module ShipmentEvents {
  import opened Domain
  import opened Format
  import opened Timeline

  const MinCode := 100000
  const MaxCode := 999999

  /** The second character of each generated description; no two statuses
      share one. */
  function Mark(status: ShipmentStatus): char {
    match status
    case Placed => 's'
    case InTransit => 'c'
    case OutForDelivery => 'h'
    case Delivered => 'u'
    case Cancelled => 'a'
  }

  const ScanPrefix := "scanned at "

  /** The description an event gets when none is supplied. Its second
      character marks the status, and a scan names its location after a fixed
      prefix. */
  function GenerateDescription(status: ShipmentStatus, location: Zip): (d: string)
    ensures |d| > 1 && d[1] == Mark(status)
    ensures status == InTransit ==>
      |d| > |ScanPrefix| && d[..|ScanPrefix|] == ScanPrefix && d[|ScanPrefix|..] == IntToString(location)
  {
    match status
    case Placed => "assigned delivery partner"
    case OutForDelivery => "shipment out for delivery"
    case Delivered => "successfully delivered"
    case Cancelled => "cancelled by seller"
    case InTransit =>
      SignIsFirst(location);
      ScanPrefix + IntToString(location)
  }

  /** The generated description tells the statuses apart. */
  lemma DescriptionDeterminesStatus(s1: ShipmentStatus, l1: Zip, s2: ShipmentStatus, l2: Zip)
    requires GenerateDescription(s1, l1) == GenerateDescription(s2, l2)
    ensures s1 == s2
  {
  }

  /** A scan description names its location, and different locations give
      different descriptions. */
  lemma ScanDescriptionIdentifiesLocation(l1: Zip, l2: Zip)
    requires GenerateDescription(InTransit, l1) == GenerateDescription(InTransit, l2)
    ensures l1 == l2
  {
    IntToStringInjective(l1, l2);
  }

  /** add looks up the latest event when the location is falsy (None or 0)
      or the status is missing. */
  predicate NeedsLatest(location: Option<Zip>, status: Option<ShipmentStatus>) {
    !TruthyInt(location) || status.None?
  }

  /** The event add builds: missing fields come from the latest event, the
      description from the status unless one is supplied. */
  function NewEvent(
    shipment: Shipment, location: Option<Zip>, status: Option<ShipmentStatus>,
    description: Option<string>, now: Time): (r: Result<Event>)
    ensures r.Err? <==> NeedsLatest(location, status) && shipment.timeline == []
    ensures r.Err? ==> r.error == NoPriorEvent
    ensures r.Ok? ==> r.value.shipmentId == shipment.id && r.value.createdAt == now
    ensures r.Ok? && TruthyInt(location) ==> r.value.location == location.value
    ensures r.Ok? && !TruthyInt(location) ==>
      shipment.timeline != [] &&
      r.value.location == shipment.timeline[LatestIndex(shipment.timeline)].location
    ensures r.Ok? && status.Some? ==> r.value.status == status.value
    ensures r.Ok? && status.None? ==>
      shipment.timeline != [] &&
      r.value.status == shipment.timeline[LatestIndex(shipment.timeline)].status
    ensures r.Ok? && TruthyText(description) ==> r.value.description == description.value
    ensures r.Ok? && !TruthyText(description) ==>
      r.value.description == GenerateDescription(r.value.status, r.value.location)
  {
    if NeedsLatest(location, status) && shipment.timeline == [] then Err(NoPriorEvent)
    else
      var loc := if TruthyInt(location) then location.value else LatestEvent(shipment.timeline).location;
      var st := if status.Some? then status.value else LatestEvent(shipment.timeline).status;
      var desc := if TruthyText(description) then description.value else GenerateDescription(st, loc);
      Ok(Event(loc, st, desc, shipment.id, now))
  }

  /** A value placed in an email context. Names read through the shipment's
      seller and delivery_partner relationships are recorded as references to
      that seller or partner; the review URL as the shipment whose id its
      signed token embeds. */
  datatype ContextValue =
    | ShipmentRef(shipment: ShipmentId)
    | SellerName(seller: SellerId)
    | PartnerName(partner: PartnerId)
    | CodeValue(code: int)
    | ReviewUrl(reviewed: ShipmentId)

  datatype Email = Email(
    recipients: seq<string>,
    subject: string,
    context: map<string, ContextValue>,
    template: string)

  datatype Sms = Sms(to: string, body: string)

  /** One message handed to the background worker. */
  datatype Intent = SendEmail(email: Email) | SendSms(sms: Sms)

  /** What _notify does for one status: the code it stores, the SMS and the
      email it queues (in that order). */
  datatype NotifyPlan = NotifyPlan(storeCode: Option<nat>, sms: Option<Sms>, email: Option<Email>)

  function Dispatched(plan: NotifyPlan): seq<Intent> {
    (if plan.sms.Some? then [SendSms(plan.sms.value)] else []) +
    (if plan.email.Some? then [SendEmail(plan.email.value)] else [])
  }

  predicate OccursAt(s: string, part: string, i: int) {
    0 <= i <= |s| - |part| && s[i..i + |part|] == part
  }

  ghost predicate Contains(s: string, part: string) {
    exists i :: OccursAt(s, part, i)
  }

  const SmsPrefix := "Your order is arriving soon! Share the "
  const SmsSuffix := " code with your delivery executive to receive your package."

  function SmsBody(code: nat): (body: string)
    ensures Contains(body, NatToString(code))
  {
    var digits := NatToString(code);
    var body := SmsPrefix + digits + SmsSuffix;
    assert OccursAt(body, digits, |SmsPrefix|);
    body
  }

  /** The subject line of each status's email. */
  function Subject(status: ShipmentStatus): string {
    match status
    case Placed => "Your Order is Placed 🚛"
    case OutForDelivery => "Your Order is Arriving Soon 🛵"
    case Delivered => "Your Order is Delivered ✅"
    case Cancelled => "Your Order is Cancelled ❌"
    case InTransit => ""
  }

  /** The template of each status's email. */
  function Template(status: ShipmentStatus): string {
    match status
    case Placed => "mail_placed.html"
    case OutForDelivery => "mail_out_for_delivery.html"
    case Delivered => "mail_delivered.html"
    case Cancelled => "mail_cancelled.html"
    case InTransit => ""
  }

  /** The notification decision for a status. */
  function Notify(shipment: Shipment, status: ShipmentStatus, code: nat): (plan: NotifyPlan)
    ensures plan.email.None? <==> status == InTransit
    ensures plan.email.Some? ==>
      && plan.email.value.recipients == [shipment.clientEmail]
      && plan.email.value.subject == Subject(status)
      && plan.email.value.template == Template(status)
    ensures plan.storeCode == if status == OutForDelivery then Some(code) else None
    ensures plan.sms.Some? <==> status == OutForDelivery && TruthyText(shipment.clientPhone)
    ensures plan.sms.Some? ==>
      plan.sms.value.to == shipment.clientPhone.value && Contains(plan.sms.value.body, NatToString(code))
    ensures status == OutForDelivery ==>
      ("verification_code" in plan.email.value.context <==> !TruthyText(shipment.clientPhone))
    ensures status == OutForDelivery && !TruthyText(shipment.clientPhone) ==>
      plan.email.value.context == map["verification_code" := CodeValue(code)]
    ensures status == OutForDelivery && TruthyText(shipment.clientPhone) ==>
      plan.email.value.context == map[]
    ensures status == Placed ==>
      plan.email.value.context.Keys == {"id", "seller", "partner"} &&
      plan.email.value.context["id"] == ShipmentRef(shipment.id) &&
      plan.email.value.context["seller"] == SellerName(shipment.sellerId) &&
      plan.email.value.context["partner"] == PartnerName(shipment.partnerId)
    ensures status == Delivered ==>
      plan.email.value.context.Keys == {"seller", "review_url"} &&
      plan.email.value.context["seller"] == SellerName(shipment.sellerId) &&
      plan.email.value.context["review_url"] == ReviewUrl(shipment.id)
    ensures status == Cancelled ==> plan.email.value.context == map[]
  {
    var to := [shipment.clientEmail];
    match status
    case InTransit => NotifyPlan(None, None, None)
    case Placed =>
      var context := map["id" := ShipmentRef(shipment.id)];
      var context := context["seller" := SellerName(shipment.sellerId)];
      var context := context["partner" := PartnerName(shipment.partnerId)];
      NotifyPlan(None, None, Some(Email(to, "Your Order is Placed 🚛", context, "mail_placed.html")))
    case OutForDelivery =>
      var subject := "Your Order is Arriving Soon 🛵";
      if TruthyText(shipment.clientPhone) then
        NotifyPlan(Some(code), Some(Sms(shipment.clientPhone.value, SmsBody(code))),
                   Some(Email(to, subject, map[], "mail_out_for_delivery.html")))
      else
        NotifyPlan(Some(code), None,
                   Some(Email(to, subject, map["verification_code" := CodeValue(code)], "mail_out_for_delivery.html")))
    case Delivered =>
      var context := map["seller" := SellerName(shipment.sellerId)];
      var context := context["review_url" := ReviewUrl(shipment.id)];
      NotifyPlan(None, None, Some(Email(to, "Your Order is Delivered ✅", context, "mail_delivered.html")))
    case Cancelled =>
      NotifyPlan(None, None, Some(Email(to, "Your Order is Cancelled ❌", map[], "mail_cancelled.html")))
  }

  /** Every status but in_transit queues exactly one email, to the client. */
  lemma OneEmailUnlessInTransit(shipment: Shipment, status: ShipmentStatus, code: nat)
    ensures var out := Dispatched(Notify(shipment, status, code));
      status == InTransit <==> out == []
    ensures var out := Dispatched(Notify(shipment, status, code));
      status != InTransit ==>
        out[|out| - 1] == SendEmail(Email([shipment.clientEmail], out[|out| - 1].email.subject,
                                         out[|out| - 1].email.context, out[|out| - 1].email.template)) &&
        forall i :: 0 <= i < |out| - 1 ==> out[i].SendSms?
  {
  }

  class EventService {
    /** The verification-code store: shipment id to the code as text. */
    var codes: map<ShipmentId, string>
    /** Messages handed to the background mail/SMS worker, oldest first. */
    var outbox: seq<Intent>

    constructor ()
      ensures codes == map[] && outbox == []
    {
      codes := map[];
      outbox := [];
    }

    /** Sorts the timeline by creation time and returns it with its last event. */
    method GetLatestEvent(timeline: seq<Event>) returns (sorted: seq<Event>, latest: Result<Event>)
      ensures timeline == [] ==> latest == Err(NoPriorEvent)
      ensures timeline != [] ==> latest == Ok(timeline[LatestIndex(timeline)])
      ensures sorted == SortByTime(timeline)
      ensures SortedByTime(sorted) && multiset(sorted) == multiset(timeline)
    {
      sorted := SortByTime(timeline);
      SortByTimeSortsAndPermutes(timeline);
      if |sorted| == 0 {
        latest := Err(NoPriorEvent);
      } else {
        SortByTimeLast(timeline);
        latest := Ok(sorted[|sorted| - 1]);
      }
    }

    /** Builds the next event of the shipment, runs the notification for its
        status, and returns the event together with the shipment's timeline
        (sorted when the latest event had to be looked up). */
    method Add(
      shipment: Shipment, location: Option<Zip>, status: Option<ShipmentStatus>,
      description: Option<string>, now: Time, code: nat)
      returns (r: Result<Event>, timeline: seq<Event>)
      requires MinCode <= code <= MaxCode
      modifies this
      ensures r == NewEvent(shipment, location, status, description, now)
      ensures multiset(timeline) == multiset(shipment.timeline)
      ensures timeline == if NeedsLatest(location, status) then SortByTime(shipment.timeline) else shipment.timeline
      ensures r.Err? ==> codes == old(codes) && outbox == old(outbox)
      ensures r.Ok? ==>
        var plan := Notify(shipment, r.value.status, code);
        && codes == (if plan.storeCode.Some? then old(codes)[shipment.id := NatToString(code)] else old(codes))
        && outbox == old(outbox) + Dispatched(plan)
    {
      var loc, st := location, status;
      timeline := shipment.timeline;
      if !TruthyInt(location) || status.None? {
        var sorted, latest := GetLatestEvent(timeline);
        timeline := sorted;
        if latest.Err? {
          return latest, timeline;
        }
        loc := if TruthyInt(location) then location else Some(latest.value.location);
        st := if status.Some? then status else Some(latest.value.status);
      }
      var desc := if TruthyText(description) then description.value else GenerateDescription(st.value, loc.value);
      var event := Event(loc.value, st.value, desc, shipment.id, now);
      assert Ok(event) == NewEvent(shipment, location, status, description, now);
      Apply(shipment.id, Notify(shipment, st.value, code));
      r := Ok(event);
    }

    /** Carries out a notification plan: stores the code, then queues the
        messages. */
    method Apply(id: ShipmentId, plan: NotifyPlan)
      modifies this
      ensures codes == (if plan.storeCode.Some? then old(codes)[id := NatToString(plan.storeCode.value)] else old(codes))
      ensures outbox == old(outbox) + Dispatched(plan)
    {
      if plan.storeCode.Some? {
        codes := codes[id := NatToString(plan.storeCode.value)];
      }
      outbox := outbox + Dispatched(plan);
    }
  }
}
