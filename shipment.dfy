/** The shipment lifecycle (ShipmentService): creation with first-fit partner
    assignment, partner updates guarded by the verification code, cancellation
    by the seller, tags, reviews, lookup and deletion. Shipments are stored by
    id; the partner directory and the event ledger are the collaborating
    services. */
module Shipments {
  import opened Domain
  import opened Format
  import opened Timeline
  import opened Schemas
  import opened ShipmentEvents
  import opened DeliveryPartners

  /** The status of the latest event; none before the first event. */
  function CurrentStatus(s: Shipment): (r: Option<ShipmentStatus>)
    ensures r.None? <==> s.timeline == []
    ensures r.Some? ==> r.value == s.timeline[LatestIndex(s.timeline)].status
  {
    if s.timeline == [] then None else Some(LatestEvent(s.timeline).status)
  }

  predicate IsOpen(s: Shipment) {
    CurrentStatus(s).None? || !IsTerminal(CurrentStatus(s).value)
  }

  /** Only out_for_delivery draws a code; other statuses pass this one, which
      the notification ignores. */
  const UnusedCode: nat := MinCode

  // ---------------------------------------------------------------------
  // The delivery check on the verification code.

  /** The stored code as the Redis helper returns it: str() of the lookup, so
      a missing key reads back as the text "None". */
  function StoredCodeAsWritten(codes: map<ShipmentId, string>, id: ShipmentId): (text: string)
    ensures id in codes ==> text == codes[id]
    ensures id !in codes ==> text == "None"
  {
    if id in codes then codes[id] else "None"
  }

  /** The check as written: the supplied code must equal that text. */
  predicate CodeAcceptedAsWritten(codes: map<ShipmentId, string>, id: ShipmentId, supplied: Option<string>) {
    supplied == Some(StoredCodeAsWritten(codes, id))
  }

  /** With no code ever stored for the shipment, the text "None" passes the
      check as written. */
  lemma NoneTextPassesAsWritten(codes: map<ShipmentId, string>, id: ShipmentId)
    requires id !in codes
    ensures CodeAcceptedAsWritten(codes, id, Some("None"))
    ensures !CodeAccepted(codes, id, Some("None"))
  {
  }

  /** The check the model uses: a code must be on record and the supplied one
      must equal it. */
  predicate CodeAccepted(codes: map<ShipmentId, string>, id: ShipmentId, supplied: Option<string>) {
    id in codes && supplied == Some(codes[id])
  }

  /** For a code stored by the out_for_delivery notification, the check
      accepts a supplied code exactly when it is the same number. */
  lemma {:induction false} CodeAcceptedIffSameNumber(codes: map<ShipmentId, string>, id: ShipmentId, stored: nat, supplied: nat)
    requires id in codes && codes[id] == NatToString(stored)
    ensures CodeAccepted(codes, id, Some(NatToString(supplied))) <==> stored == supplied
  {
    if CodeAccepted(codes, id, Some(NatToString(supplied))) {
      NatToStringInjective(stored, supplied);
    }
  }

  /** The corrected check never accepts when no code is on record, whatever
      is supplied. */
  lemma AbsentCodeNeverAccepted(codes: map<ShipmentId, string>, id: ShipmentId, supplied: Option<string>)
    requires id !in codes
    ensures !CodeAccepted(codes, id, supplied)
  {
  }

  // ---------------------------------------------------------------------
  // Which fields of an update reach the event ledger.

  function Present<T>(o: Option<T>): nat {
    if o.Some? then 1 else 0
  }

  /** Size of the update once None fields and the verification code are dropped. */
  function ForwardedCount(u: ShipmentUpdate): nat {
    Present(u.location) + Present(u.status) + Present(u.description) + Present(u.estimatedDelivery)
  }

  /** update appends an event unless the estimated delivery is the only field left. */
  predicate AppendsEvent(u: ShipmentUpdate) {
    ForwardedCount(u) > 1 || u.estimatedDelivery.None?
  }

  lemma AppendsEventUnlessOnlyEstimate(u: ShipmentUpdate)
    ensures AppendsEvent(u) <==>
      !(u.estimatedDelivery.Some? && u.location.None? && u.status.None? && u.description.None?)
  {
  }

  datatype EventArgs = EventArgs(location: Option<Zip>, status: Option<ShipmentStatus>, description: Option<string>)

  /** The keyword arguments as written: the estimated delivery is forwarded
      too, and ShipmentEventService.add has no such parameter, so the call
      fails (None here) whenever it is present. */
  function ForwardedAsWritten(u: ShipmentUpdate): (r: Option<EventArgs>)
    ensures r.None? <==> u.estimatedDelivery.Some?
    ensures r.Some? ==> r.value == Forwarded(u)
  {
    if u.estimatedDelivery.Some? then None else Some(EventArgs(u.location, u.status, u.description))
  }

  /** The arguments the model forwards: the remaining event fields. */
  function Forwarded(u: ShipmentUpdate): EventArgs {
    EventArgs(u.location, u.status, u.description)
  }

  /** An update that moves the estimate and records a scan fails as written,
      while the corrected forwarding keeps the scan. */
  lemma EstimateWithScanFailsAsWritten(loc: Zip, eta: Time)
    ensures var u := ShipmentUpdate(location := Some(loc), status := Some(InTransit), estimatedDelivery := Some(eta));
      AppendsEvent(u) && ForwardedAsWritten(u).None? &&
      Forwarded(u) == EventArgs(Some(loc), Some(InTransit), None)
  {
  }

  /** Wherever the call as written succeeds, it forwards what the model forwards. */
  lemma ForwardedAgreesWhenAccepted(u: ShipmentUpdate)
    requires ForwardedAsWritten(u).Some?
    ensures ForwardedAsWritten(u).value == Forwarded(u)
  {
  }

  // ---------------------------------------------------------------------
  // Tags.

  /** The position of the first occurrence of a present tag. */
  function FirstIndex(tags: seq<TagName>, tag: TagName): (i: nat)
    requires tag in tags
    ensures i < |tags| && tags[i] == tag && tag !in tags[..i]
  {
    if tags[0] == tag then 0
    else
      var k := FirstIndex(tags[1..], tag);
      assert tags[..k + 1] == [tags[0]] + tags[1..][..k];
      k + 1
  }

  /** list.remove: drops the first occurrence and keeps the order of the
      rest. */
  function RemoveFirst(tags: seq<TagName>, tag: TagName): (r: seq<TagName>)
    requires tag in tags
    ensures r == tags[..FirstIndex(tags, tag)] + tags[FirstIndex(tags, tag) + 1..]
    ensures |r| == |tags| - 1
    ensures multiset(r) == multiset(tags) - multiset{tag}
  {
    SliceOutMultiset(tags, FirstIndex(tags, tag));
    if tags[0] == tag then tags[1..]
    else
      RemoveFirstStep(tags, tag);
      [tags[0]] + RemoveFirst(tags[1..], tag)
  }

  /** Past a leading other tag, the first occurrence is one further on. */
  lemma RemoveFirstStep(tags: seq<TagName>, tag: TagName)
    requires tag in tags && tags[0] != tag
    ensures var i := FirstIndex(tags, tag);
      var k := FirstIndex(tags[1..], tag);
      tags[..i] + tags[i + 1..] == [tags[0]] + (tags[1..][..k] + tags[1..][k + 1..])
  {
    var k := FirstIndex(tags[1..], tag);
    assert tags[..k + 1] == [tags[0]] + tags[1..][..k];
    assert tags[k + 2..] == tags[1..][k + 1..];
  }

  lemma SliceOutMultiset(tags: seq<TagName>, i: nat)
    requires i < |tags|
    ensures multiset(tags[..i] + tags[i + 1..]) == multiset(tags) - multiset{tags[i]}
  {
    assert tags == tags[..i] + [tags[i]] + tags[i + 1..];
  }

  /** Tagging with a new tag and then removing it restores the tag list
      exactly. */
  lemma {:induction false} RemoveUndoesAppend(tags: seq<TagName>, tag: TagName)
    requires tag !in tags
    ensures RemoveFirst(tags + [tag], tag) == tags
  {
    if tags != [] {
      assert (tags + [tag])[1..] == tags[1..] + [tag];
      RemoveUndoesAppend(tags[1..], tag);
    }
  }

  /** With a code on record, the corrected check and the check as written
      agree. */
  lemma AsWrittenAgreesWhenStored(codes: map<ShipmentId, string>, id: ShipmentId, supplied: Option<string>)
    requires id in codes
    ensures CodeAccepted(codes, id, supplied) <==> CodeAcceptedAsWritten(codes, id, supplied)
  {
  }

  // ---------------------------------------------------------------------

  /** What a stored shipment satisfies: it is filed under its own id, its
      body passed validation, and every event of its timeline belongs to it. */
  predicate WellFormed(id: ShipmentId, s: Shipment) {
    && s.id == id
    && ValidBaseShipment(s.content, s.weight)
    && forall e :: e in s.timeline ==> e.shipmentId == id
  }

  /** Every stored row is well formed under its key. */
  predicate AllWellFormed(m: map<ShipmentId, Shipment>) {
    forall id :: id in m ==> WellFormed(id, m[id])
  }

  /** Every stored review passed the review schema. */
  predicate RatingsValid(reviews: seq<Review>) {
    forall i :: 0 <= i < |reviews| ==> ValidReview(ShipmentReview(reviews[i].rating, reviews[i].comment))
  }

  /** The timeline an event append leaves, given the one add returned. */
  lemma AppendKeepsWellFormed(s: Shipment, t: seq<Event>, e: Event)
    requires WellFormed(s.id, s) && multiset(t) == multiset(s.timeline) && e.shipmentId == s.id
    ensures WellFormed(s.id, s.(timeline := t + [e]))
  {
    forall x | x in t + [e] ensures x.shipmentId == s.id {
      if x in t {
        assert x in multiset(t);
      }
    }
  }

  /** The row add stores before any event: due three days after creation,
      owned by the seller, carried by the assigned partner, no tags. */
  function Placement(create: ShipmentCreate, seller: Seller, id: ShipmentId, now: Time, partnerId: PartnerId): (s: Shipment)
    ensures s.id == id && s.timeline == [] && s.tags == []
    ensures s.estimatedDelivery - now == ThreeDays
  {
    Shipment(id, create.content, create.weight, create.destination,
             create.clientContactEmail, create.clientContactPhone,
             now + ThreeDays, seller.id, partnerId, [], [])
  }

  /** The first event: placed at the seller's zip code, naming the partner. */
  function PlacedEvent(seller: Seller, partnerName: string, id: ShipmentId, now: Time): Event {
    Event(seller.zipCode, Placed, "assigned to " + partnerName, id, now)
  }

  /** An event stamped no earlier than every recorded one becomes the latest
      once appended, however the recorded events were reordered first. */
  lemma LatestOfReorderedAppend(t: seq<Event>, reordered: seq<Event>, e: Event)
    requires multiset(reordered) == multiset(t)
    ensures (forall x :: x in t ==> x.createdAt <= e.createdAt) ==> LatestEvent(reordered + [e]) == e
  {
    if forall x :: x in t ==> x.createdAt <= e.createdAt {
      forall i | 0 <= i < |reordered| ensures reordered[i].createdAt <= e.createdAt {
        assert reordered[i] in multiset(t);
      }
      AppendedIsLatest(reordered, e);
    }
  }

  /** A schema-valid create body is exactly one whose placed row is well
      formed. */
  lemma ValidCreateIffPlacementWellFormed(c: ShipmentCreate, seller: Seller, id: ShipmentId, now: Time, partnerId: PartnerId)
    ensures ValidCreate(c) <==> WellFormed(id, Placement(c, seller, id, now, partnerId))
  {
  }

  // ---------------------------------------------------------------------
  // Open shipments and the partners' capacity.

  /** Ids of the stored shipments that are not delivered or cancelled: the
      ones that count against their partner's capacity. */
  function OpenIds(m: map<ShipmentId, Shipment>): set<ShipmentId> {
    set id | id in m && IsOpen(m[id])
  }

  /** Filing a row adds its id to the open ones when it is open and removes
      it otherwise; no other id changes. */
  lemma OpenIdsStore(m: map<ShipmentId, Shipment>, s: Shipment)
    ensures OpenIds(m[s.id := s]) == if IsOpen(s) then OpenIds(m) + {s.id} else OpenIds(m) - {s.id}
  {
  }

  lemma OpenIdsRemove(m: map<ShipmentId, Shipment>, id: ShipmentId)
    ensures OpenIds(m - {id}) == OpenIds(m) - {id}
  {
  }

  /** Placing a new open shipment with the first-fit partner keeps every
      carried shipment stored, and keeps every partner within capacity: the
      chosen partner had a free slot, and no other partner carries the new
      shipment. */
  lemma {:induction false} PlacementKeepsWithinCapacity(
    partners: seq<Partner>, m: map<ShipmentId, Shipment>, destination: Zip, s: Shipment)
    requires UniqueIds(partners) && CarriedWithin(partners, m.Keys) && s.id !in m && IsOpen(s)
    ensures var eligible := PartnersForZipcode(partners, destination);
      var k := FirstFit(eligible, OpenIds(m) + {s.id});
      k.Some? ==>
        var after := AssignTo(partners, eligible[k.value].id, s.id);
        && CarriedWithin(after, m.Keys + {s.id})
        && (WithinCapacity(partners, OpenIds(m)) ==> WithinCapacity(after, OpenIds(m[s.id := s])))
  {
    var eligible := PartnersForZipcode(partners, destination);
    var k := FirstFit(eligible, OpenIds(m) + {s.id});
    if k.Some? {
      CarriedAfterAssign(partners, eligible[k.value].id, s.id, m.Keys);
      if WithinCapacity(partners, OpenIds(m)) {
        assert NotCarried(partners, s.id);
        AssignKeepsWithinCapacity(partners, destination, OpenIds(m), s.id);
        OpenIdsStore(m, s);
      }
    }
  }

  /** Appending a cancelled event after the sort never reopens a shipment
      (either the cancellation is the latest event or the status stays), so
      every partner stays within capacity. */
  lemma {:induction false} CancelKeepsWithinCapacity(
    partners: seq<Partner>, m: map<ShipmentId, Shipment>, s: Shipment, e: Event)
    requires s.id in m && m[s.id] == s && s.timeline != [] && e.status == Cancelled
    ensures OpenIds(m[s.id := s.(timeline := SortByTime(s.timeline) + [e])]) <= OpenIds(m)
    ensures WithinCapacity(partners, OpenIds(m)) ==>
      WithinCapacity(partners, OpenIds(m[s.id := s.(timeline := SortByTime(s.timeline) + [e])]))
  {
    var after := s.(timeline := SortByTime(s.timeline) + [e]);
    LatestAfterSortedAppend(s.timeline, e);
    assert IsOpen(after) ==> IsOpen(s);
    OpenIdsStore(m, after);
    if WithinCapacity(partners, OpenIds(m)) {
      WithinCapacityWhenClosing(partners, OpenIds(m[s.id := after]), OpenIds(m));
    }
  }

  /** Deleting a shipment, and dropping it from every partner, keeps every
      partner within capacity. */
  lemma DeleteKeepsWithinCapacity(partners: seq<Partner>, after: seq<Partner>, m: map<ShipmentId, Shipment>, id: ShipmentId)
    requires WithinCapacity(partners, OpenIds(m))
    requires |after| == |partners|
    requires forall i :: 0 <= i < |partners| ==>
      after[i] == partners[i].(shipments := Without(partners[i].shipments, id))
    ensures WithinCapacity(after, OpenIds(m - {id}))
  {
    OpenIdsRemove(m, id);
    UnassignKeepsWithinCapacity(partners, after, id, OpenIds(m - {id}), OpenIds(m));
  }

  /** A change that leaves the timeline alone leaves the open set alone. */
  lemma SameTimelineKeepsOpenIds(m: map<ShipmentId, Shipment>, s: Shipment)
    requires s.id in m && s.timeline == m[s.id].timeline
    ensures OpenIds(m[s.id := s]) == OpenIds(m)
  {
    OpenIdsStore(m, s);
  }

  /** Nothing in update stops a delivered shipment from being reopened: an
      in_transit scan by its partner is appended to a delivered timeline and
      makes it open again, and the partner, full but within capacity before,
      goes below zero capacity. */
  lemma UpdateCanReopenDelivered()
    ensures var s := Shipment(1, "books", 2.0, 11001, "c@example.com", None, 100, 1, 1,
                              [Event(5, Delivered, "delivered", 1, 10)], []);
      var other := Shipment(2, "pens", 1.0, 11001, "d@example.com", None, 100, 1, 1, [], []);
      var m := map[1 := s, 2 := other];
      var p := Partner(1, "partner", "p@example.com", 1, [11001], [1, 2]);
      var u := ShipmentUpdate(location := Some(7), status := Some(InTransit));
      var e := NewEvent(s, u.location, u.status, u.description, 11);
      && AppendsEvent(u) && !NeedsLatest(u.location, u.status) && e.Ok?
      && !IsOpen(s) && CurrentStatus(s.(timeline := s.timeline + [e.value])) == Some(InTransit)
      && WithinCapacity([p], OpenIds(m))
      && !WithinCapacity([p], OpenIds(m[1 := s.(timeline := s.timeline + [e.value])]))
  {
    var s := Shipment(1, "books", 2.0, 11001, "c@example.com", None, 100, 1, 1,
                      [Event(5, Delivered, "delivered", 1, 10)], []);
    var other := Shipment(2, "pens", 1.0, 11001, "d@example.com", None, 100, 1, 1, [], []);
    var m := map[1 := s, 2 := other];
    var p := Partner(1, "partner", "p@example.com", 1, [11001], [1, 2]);
    var e := NewEvent(s, Some(7), Some(InTransit), None, 11);
    var reopened := s.(timeline := s.timeline + [e.value]);
    AppendedIsLatest(s.timeline, e.value);
    assert OpenIds(m) == {2} by {
      assert IsOpen(other) && !IsOpen(s);
    }
    assert OpenIds(m[1 := reopened]) == {1, 2} by {
      assert IsOpen(reopened) && IsOpen(other);
    }
    assert p.shipments[1..] == [2];
    assert Outstanding(p.shipments, {2}) == 1;
    assert Outstanding(p.shipments, {1, 2}) == 2;
    assert [p][0] == p;
    assert Capacity([p][0], OpenIds(m[1 := reopened])) < 0;
  }

  class ShipmentService {
    var shipments: map<ShipmentId, Shipment>
    var reviews: seq<Review>
    const partnerService: PartnerService
    const eventService: EventService

    ghost predicate Valid()
      reads this, partnerService
    {
      && partnerService.Valid()
      && AllWellFormed(shipments)
      && CarriedWithin(partnerService.partners, shipments.Keys)
      && RatingsValid(reviews)
    }

    /** No partner carries more open shipments than its maximum load. */
    ghost predicate CapacityRespected()
      reads this, partnerService
    {
      WithinCapacity(partnerService.partners, OpenIds(shipments))
    }

    constructor (partnerService: PartnerService, eventService: EventService)
      requires partnerService.Valid() && CarriedWithin(partnerService.partners, {})
      ensures Valid() && shipments == map[] && reviews == []
      ensures this.partnerService == partnerService && this.eventService == eventService
    {
      shipments := map[];
      reviews := [];
      this.partnerService := partnerService;
      this.eventService := eventService;
      new;
      assert shipments.Keys == {};
    }

    method Get(id: ShipmentId) returns (r: Result<Shipment>)
      ensures r.Ok? <==> id in shipments
      ensures r.Ok? ==> r.value == shipments[id]
      ensures r.Err? ==> r.error == EntityNotFound
    {
      if id in shipments {
        r := Ok(shipments[id]);
      } else {
        r := Err(EntityNotFound);
      }
    }

    /** Files a shipment under its id, replacing the stored row. */
    method Store(s: Shipment)
      requires partnerService.Valid() && AllWellFormed(shipments) && RatingsValid(reviews)
      requires CarriedWithin(partnerService.partners, shipments.Keys + {s.id}) && WellFormed(s.id, s)
      modifies this
      ensures Valid() && shipments == old(shipments)[s.id := s] && reviews == old(reviews)
    {
      shipments := shipments[s.id := s];
      assert shipments.Keys == old(shipments).Keys + {s.id};
    }

    /** Creates a shipment: placed, due in three days, owned by the seller,
        assigned first-fit; then records the placed event at the seller's zip
        code. Without a partner nothing is stored. */
    method Add(create: ShipmentCreate, seller: Seller, id: ShipmentId, now: Time) returns (r: Result<Shipment>)
      requires Valid() && ValidCreate(create) && id !in shipments
      modifies this, partnerService, eventService
      ensures Valid() && reviews == old(reviews) && partnerService.locations == old(partnerService.locations)
      ensures old(CapacityRespected()) ==> CapacityRespected()
      ensures var eligible := PartnersForZipcode(old(partnerService.partners), create.destination);
        FirstFit(eligible, old(OpenIds(shipments)) + {id}).None? ==>
          && r == Err(DeliveryPartnerNotAvailable)
          && shipments == old(shipments)
          && partnerService.partners == old(partnerService.partners)
          && eventService.codes == old(eventService.codes) && eventService.outbox == old(eventService.outbox)
      ensures var eligible := PartnersForZipcode(old(partnerService.partners), create.destination);
        var k := FirstFit(eligible, old(OpenIds(shipments)) + {id});
        k.Some? ==>
          var partner := eligible[k.value];
          var stored := Placement(create, seller, id, now, partner.id);
          && partnerService.partners == AssignTo(old(partnerService.partners), partner.id, id)
          && eventService.codes == old(eventService.codes)
          && (seller.zipCode != 0 ==>
                && r == Ok(stored.(timeline := [PlacedEvent(seller, partner.name, id, now)]))
                && shipments == old(shipments)[id := r.value]
                && CurrentStatus(r.value) == Some(Placed)
                && eventService.outbox == old(eventService.outbox) + Dispatched(Notify(stored, Placed, UnusedCode)))
          && (seller.zipCode == 0 ==>
                && r == Err(NoPriorEvent)
                && shipments == old(shipments)[id := stored]
                && eventService.outbox == old(eventService.outbox))
    {
      ghost var partners0, shipments0 := partnerService.partners, shipments;
      var assignment := partnerService.AssignShipment(id, create.destination, OpenIds(shipments) + {id});
      if assignment.Err? {
        return Err(assignment.error);
      }
      var partner := assignment.value;
      var shipment := Placement(create, seller, id, now, partner.id);
      r := RecordPlacement(shipment, seller, partner.name, now);
      PlacementKeepsWithinCapacity(partners0, shipments0, create.destination, shipments[id]);
    }

    /** Persists a new row and records its placed event at the seller's zip
        code; without a zip code to place it at, the row stays without
        events. */
    method RecordPlacement(shipment: Shipment, seller: Seller, partnerName: string, now: Time)
      returns (r: Result<Shipment>)
      requires partnerService.Valid() && AllWellFormed(shipments) && RatingsValid(reviews)
      requires CarriedWithin(partnerService.partners, shipments.Keys + {shipment.id})
      requires WellFormed(shipment.id, shipment) && shipment.timeline == []
      modifies this, eventService
      ensures Valid() && reviews == old(reviews) && eventService.codes == old(eventService.codes)
      ensures shipment.id in shipments && IsOpen(shipments[shipment.id])
      ensures seller.zipCode != 0 ==>
        && r == Ok(shipment.(timeline := [PlacedEvent(seller, partnerName, shipment.id, now)]))
        && shipments == old(shipments)[shipment.id := r.value]
        && CurrentStatus(r.value) == Some(Placed)
        && eventService.outbox == old(eventService.outbox) + Dispatched(Notify(shipment, Placed, UnusedCode))
      ensures seller.zipCode == 0 ==>
        && r == Err(NoPriorEvent)
        && shipments == old(shipments)[shipment.id := shipment]
        && eventService.outbox == old(eventService.outbox)
    {
      // The row is persisted before the event is recorded; the event ledger
      // does not read the shipment table, so storing it once the event is
      // known gives the same final state.
      var event, timeline := eventService.Add(
        shipment, Some(seller.zipCode), Some(Placed), Some("assigned to " + partnerName), now, UnusedCode);
      var stored := shipment;
      if event.Err? {
        r := Err(event.error);
      } else {
        assert event.value == PlacedEvent(seller, partnerName, shipment.id, now);
        AppendedIsLatest([], event.value);
        assert [] + [event.value] == [event.value];
        stored := shipment.(timeline := [event.value]);
        r := Ok(stored);
      }
      Store(stored);
    }

    /** A partner's update of a shipment. Only the assigned partner may
        update; marking it delivered needs the code on record. A new estimate
        is written to the shipment; the other fields become an event unless
        the estimate is the only field. */
    method Update(id: ShipmentId, u: ShipmentUpdate, partnerId: PartnerId, now: Time, code: nat)
      returns (r: Result<Shipment>)
      requires Valid() && !IsEmptyUpdate(u) && MinCode <= code <= MaxCode
      modifies this, eventService
      ensures Valid() && reviews == old(reviews)
      ensures r.Err? ==>
        shipments == old(shipments) && eventService.codes == old(eventService.codes) && eventService.outbox == old(eventService.outbox)
      ensures id !in old(shipments) ==> r == Err(EntityNotFound)
      ensures id in old(shipments) && old(shipments[id]).partnerId != partnerId ==>
        r == Err(ClientNotAuthorized)
      ensures (id in old(shipments) && old(shipments[id]).partnerId == partnerId &&
               u.status == Some(Delivered) && !CodeAccepted(old(eventService.codes), id, u.verificationCode)) ==>
        r == Err(ClientNotAuthorized)
      ensures r.Ok? ==>
        && id in old(shipments) && old(shipments[id]).partnerId == partnerId
        && (u.status == Some(Delivered) ==> CodeAccepted(old(eventService.codes), id, u.verificationCode))
        && shipments == old(shipments)[id := r.value]
      ensures (id in old(shipments) && old(shipments[id]).partnerId == partnerId &&
               (u.status == Some(Delivered) ==> CodeAccepted(old(eventService.codes), id, u.verificationCode))) ==>
        var s := old(shipments[id]);
        var moved := s.(estimatedDelivery := if u.estimatedDelivery.Some? then u.estimatedDelivery.value else s.estimatedDelivery);
        var args := Forwarded(u);
        var event := NewEvent(moved, args.location, args.status, args.description, now);
        if !AppendsEvent(u) then
          r == Ok(moved) && eventService.codes == old(eventService.codes) && eventService.outbox == old(eventService.outbox)
        else if event.Err? then
          r == Err(NoPriorEvent)
        else
          && r == Ok(moved.(timeline :=
               (if NeedsLatest(args.location, args.status) then SortByTime(s.timeline) else s.timeline) + [event.value]))
          && var plan := Notify(moved, event.value.status, code);
          && eventService.codes == (if plan.storeCode.Some? then old(eventService.codes)[id := NatToString(code)] else old(eventService.codes))
          && eventService.outbox == old(eventService.outbox) + Dispatched(plan)
    {
      var found := Get(id);
      if found.Err? {
        return found;
      }
      var shipment := found.value;
      if shipment.partnerId != partnerId {
        return Err(ClientNotAuthorized);
      }
      if u.status == Some(Delivered) {
        if !CodeAccepted(eventService.codes, id, u.verificationCode) {
          return Err(ClientNotAuthorized);
        }
      }
      if u.estimatedDelivery.Some? {
        shipment := shipment.(estimatedDelivery := u.estimatedDelivery.value);
      }
      if AppendsEvent(u) {
        var args := Forwarded(u);
        var event, timeline := eventService.Add(shipment, args.location, args.status, args.description, now, code);
        if event.Err? {
          return Err(event.error);
        }
        AppendKeepsWellFormed(shipment, timeline, event.value);
        shipment := shipment.(timeline := timeline + [event.value]);
      }
      Store(shipment);
      r := Ok(shipment);
    }

    method AddTag(id: ShipmentId, tag: TagName) returns (r: Result<Shipment>)
      requires Valid()
      modifies this
      ensures Valid() && reviews == old(reviews)
      ensures old(CapacityRespected()) ==> CapacityRespected()
      ensures id !in old(shipments) ==> r == Err(EntityNotFound) && shipments == old(shipments)
      ensures id in old(shipments) ==>
        && r == Ok(old(shipments[id]).(tags := old(shipments[id]).tags + [tag]))
        && shipments == old(shipments)[id := r.value]
    {
      var found := Get(id);
      if found.Err? {
        return found;
      }
      var shipment := found.value.(tags := found.value.tags + [tag]);
      SameTimelineKeepsOpenIds(shipments, shipment);
      Store(shipment);
      r := Ok(shipment);
    }

    method RemoveTag(id: ShipmentId, tag: TagName) returns (r: Result<Shipment>)
      requires Valid()
      modifies this
      ensures Valid() && reviews == old(reviews)
      ensures old(CapacityRespected()) ==> CapacityRespected()
      ensures r.Err? ==> shipments == old(shipments)
      ensures id !in old(shipments) ==> r == Err(EntityNotFound)
      ensures id in old(shipments) && tag !in old(shipments[id]).tags ==> r == Err(EntityNotFound)
      ensures id in old(shipments) && tag in old(shipments[id]).tags ==>
        && r == Ok(old(shipments[id]).(tags := RemoveFirst(old(shipments[id]).tags, tag)))
        && shipments == old(shipments)[id := r.value]
    {
      var found := Get(id);
      if found.Err? {
        return found;
      }
      var shipment := found.value;
      if tag !in shipment.tags {
        return Err(EntityNotFound);
      }
      shipment := shipment.(tags := RemoveFirst(shipment.tags, tag));
      SameTimelineKeepsOpenIds(shipments, shipment);
      Store(shipment);
      r := Ok(shipment);
    }

    /** Stores a review for the shipment the review token names. tokenData is
        what decoding the token gives: the shipment id, or nothing for a bad
        or expired token. An empty comment is stored as None. */
    method Rate(tokenData: Option<ShipmentId>, rating: int, comment: Option<string>) returns (r: Result<Review>)
      requires Valid() && ValidReview(ShipmentReview(rating, comment))
      modifies this
      ensures Valid() && shipments == old(shipments)
      ensures old(CapacityRespected()) ==> CapacityRespected()
      ensures tokenData.None? ==> r == Err(InvalidToken) && reviews == old(reviews)
      ensures tokenData.Some? && tokenData.value !in shipments ==>
        r == Err(EntityNotFound) && reviews == old(reviews)
      ensures tokenData.Some? && tokenData.value in shipments ==>
        && r == Ok(Review(rating, if TruthyText(comment) then comment else None, tokenData.value))
        && reviews == old(reviews) + [r.value]
    {
      if tokenData.None? {
        return Err(InvalidToken);
      }
      var found := Get(tokenData.value);
      if found.Err? {
        return Err(found.error);
      }
      var review := Review(rating, if TruthyText(comment) then comment else None, found.value.id);
      reviews := reviews + [review];
      r := Ok(review);
    }

    /** The owning seller cancels: one cancelled event is appended, whatever
        the current status. */
    method Cancel(id: ShipmentId, sellerId: SellerId, now: Time) returns (r: Result<Shipment>)
      requires Valid()
      modifies this, eventService
      ensures Valid() && reviews == old(reviews) && eventService.codes == old(eventService.codes)
      ensures old(CapacityRespected()) ==> CapacityRespected()
      ensures r.Err? ==> shipments == old(shipments) && eventService.outbox == old(eventService.outbox)
      ensures id !in old(shipments) ==> r == Err(EntityNotFound)
      ensures id in old(shipments) && old(shipments[id]).sellerId != sellerId ==> r == Err(ClientNotAuthorized)
      ensures id in old(shipments) && old(shipments[id]).sellerId == sellerId && old(shipments[id]).timeline == [] ==>
        r == Err(NoPriorEvent)
      ensures id in old(shipments) && old(shipments[id]).sellerId == sellerId && old(shipments[id]).timeline != [] ==>
        var s := old(shipments[id]);
        var cancelled := Event(LatestEvent(s.timeline).location, Cancelled, "cancelled by seller", id, now);
        && r == Ok(s.(timeline := SortByTime(s.timeline) + [cancelled]))
        && shipments == old(shipments)[id := r.value]
        && eventService.outbox == old(eventService.outbox) + Dispatched(Notify(s, Cancelled, UnusedCode))
        && ((forall e :: e in s.timeline ==> e.createdAt <= now) ==> CurrentStatus(r.value) == Some(Cancelled))
    {
      var found := Get(id);
      if found.Err? {
        return found;
      }
      var shipment := found.value;
      if shipment.sellerId != sellerId {
        return Err(ClientNotAuthorized);
      }
      var event, timeline := eventService.Add(shipment, None, Some(Cancelled), None, now, UnusedCode);
      if event.Err? {
        return Err(event.error);
      }
      AppendKeepsWellFormed(shipment, timeline, event.value);
      LatestOfReorderedAppend(shipment.timeline, timeline, event.value);
      CancelKeepsWithinCapacity(partnerService.partners, shipments, shipment, event.value);
      shipment := shipment.(timeline := timeline + [event.value]);
      Store(shipment);
      r := Ok(shipment);
    }

    /** Removes the shipment, its events with it; its partner no longer
        carries it. */
    method Delete(id: ShipmentId) returns (r: Result<()>)
      requires Valid()
      modifies this, partnerService
      ensures Valid() && reviews == old(reviews) && partnerService.locations == old(partnerService.locations)
      ensures old(CapacityRespected()) ==> CapacityRespected()
      ensures id !in old(shipments) ==>
        r == Err(EntityNotFound) && shipments == old(shipments) && partnerService.partners == old(partnerService.partners)
      ensures id in old(shipments) ==>
        && r == Ok(())
        && shipments == old(shipments) - {id}
        && |partnerService.partners| == |old(partnerService.partners)|
        && forall i :: 0 <= i < |partnerService.partners| ==>
             partnerService.partners[i] ==
             old(partnerService.partners[i]).(shipments := Without(old(partnerService.partners[i]).shipments, id))
    {
      var found := Get(id);
      if found.Err? {
        return Err(found.error);
      }
      ghost var partners0, shipments0 := partnerService.partners, shipments;
      shipments := shipments - {id};
      partnerService.Unassign(id);
      if WithinCapacity(partners0, OpenIds(shipments0)) {
        DeleteKeepsWithinCapacity(partners0, partnerService.partners, shipments0, id);
      }
      r := Ok(());
    }
  }
}
