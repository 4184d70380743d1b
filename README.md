# Shipment lifecycle and assignment engine

A Dafny model of the shipment core of the fastapi-fizz delivery backend:

- **Shipment service** (`shipment.dfy`, module `Shipments`). It creates shipments, applies partner
  updates, cancels shipments at the seller's request, tags, rates and deletes them.
- **Event ledger** (`shipment_event.dfy`, module `ShipmentEvents`). It builds the next timeline event,
  inheriting missing fields from the latest event, and plans the client notification for each status.
  That plan covers the verification code, the SMS and the email.
- **Partner directory** (`delivery_partner.dfy`, module `DeliveryPartners`). It registers partners and
  their serviceable locations, looks partners up by zip code, and assigns a new shipment first-fit to
  the first eligible partner with capacity left.
- **Request bodies** (`schemas.dfy`, module `Schemas`). These are the create, update and review bodies
  and the constraints validation puts on them.
- **Shared modules.** `domain.dfy` holds the records, statuses and errors. `timeline.dfy` holds the
  stable sort by creation time and the "latest event" it yields. `format.dfy` renders integers in
  decimal, the way Python's `str()` does.

The three services are classes whose fields the methods update: the shipment table (a map from id to
shipment), the review list, the partner list, the location set, the verification-code store and the
outbox of queued messages. Shipments, events and partners are values kept in those fields.

A shipment's status is the status of its latest event. The latest event is the last one after a
stable sort by `created_at`, so among equal timestamps the event inserted last wins. A partner's
capacity is its maximum load less the number of its shipments that are still open, meaning neither
delivered nor cancelled.

Some inputs come from outside the model and are taken as parameters:

- the clock (`now`);
- the shipment id a new row receives;
- the random six-digit verification code;
- the shipment id a decoded review token carries (`tokenData`, which is `None` for a bad or expired
  token).

Messages are not sent. Each email or SMS the service would hand to the background worker is appended
to `EventService.outbox`. Names the email context reads through database relationships (the seller's
name, the partner's name) and the signed review URL are recorded as references to that seller,
partner or shipment.

Where the intended behaviour and the code differ, the model follows the code:

- **Inheriting fields.** The latest event is looked up whenever the location or the status is falsy
  (`not location or not status`), and each falsy one is taken from it; a truthy one is kept. A
  location of 0 counts as missing.
- **Empty timeline.** Looking up the latest event of an empty timeline indexes an empty list, which
  raises IndexError. `NoPriorEvent` is the model's name for that IndexError.
- **Seller zip code 0.** Creation persists the shipment before it records the placed event. When the
  seller's zip code is 0, the event cannot be built and the shipment stays stored without an event.
- **Missing verification code.** The code compares against the text `str(None)`, which is "None"
  (see Findings).
- **No terminal-state guard.** Neither update nor cancel looks at the current status, so a delivered
  or cancelled shipment can still receive events. An in_transit scan reopens a delivered shipment
  and counts against its partner's capacity again, which can take that partner below zero
  (`Shipments.UpdateCanReopenDelivered`). Cancelling never reopens a shipment.

## Model

| member | source | states |
|---|---|---|
| Format.NatToString | backend/app/services/shipment_event.py:83-90 | a code renders as a non-empty string of decimal digits |
| Format.NatToStringInjective | backend/app/database/redis.py:26-30 | distinct codes render to distinct strings, so the textual comparison is a numeric one |
| Format.IntToStringInjective | backend/app/services/shipment_event.py:59-60 | distinct locations render to distinct strings, signs included |
| Format.SignIsFirst | backend/app/services/shipment_event.py:59-60 | a rendered integer is non-empty and starts with a minus sign exactly when it is negative |
| Format.SixDigits | backend/app/services/shipment_event.py:83 | every code drawn from 100000..999999 has exactly six digits |
| Timeline.LatestIndex | backend/app/services/shipment_event.py:44-47 | the latest event is no earlier than any event, and every event inserted after it is strictly earlier (ties go to the last inserted) |
| Timeline.InsertPermutes | backend/app/services/shipment_event.py:46 | one insertion step of the stable sort keeps exactly the events plus the inserted one |
| Timeline.InsertKeepsSorted | backend/app/services/shipment_event.py:46 | one insertion step keeps the timeline ordered by creation time |
| Timeline.SortedAppend | backend/app/services/shipment_event.py:46 | appending an event no earlier than every other one keeps the timeline ordered |
| Timeline.SortByTimeSortsAndPermutes | backend/app/services/shipment_event.py:45-46 | the in-place sort orders the timeline by creation time and keeps exactly its events |
| Timeline.SortByTimeLast | backend/app/services/shipment_event.py:46-47 | the last element after the sort is the latest event, with ties going to the event inserted last |
| Timeline.LatestEvent | backend/app/services/shipment_event.py:44-47 | get_latest_event returns an event of the timeline at the latest position |
| Timeline.AppendedIsLatest | backend/app/services/shipment.py:140-145 | an event stamped no earlier than all recorded ones becomes the latest when appended, even on a tie |
| Timeline.EarlierAppendIsNotLatest | backend/app/services/shipment_event.py:44-47 | an event stamped earlier than the latest does not change the latest event (or the status) |
| Timeline.SortedLatestIsLast | backend/app/services/shipment_event.py:44-47 | in a timeline already ordered by time, the latest event is the last one |
| Timeline.LatestAfterSortedAppend | backend/app/services/shipment.py:140-145 | after the sort and an append, the latest event is either the appended one or the latest event before |
| Schemas.ValidBaseShipment | backend/app/api/schemas/shipment.py:9-11 | a shipment body has content of at most 100 characters and a weight of at most 25 |
| Schemas.ValidCreate | backend/app/api/schemas/shipment.py:30-34 | a create body is valid exactly when its base fields are; email and phone add no constraint here |
| Schemas.ValidReview | backend/app/api/schemas/shipment.py:44-46 | a review's rating lies between 1 and 5 |
| Schemas.IsEmptyUpdate | backend/app/api/routers/shipment.py:74-77 | an update is empty, and answered with NothingToUpdate, exactly when every field is None |
| ShipmentEvents.DescriptionDeterminesStatus | backend/app/services/shipment_event.py:49-60 | equal generated descriptions mean equal statuses |
| ShipmentEvents.ScanDescriptionIdentifiesLocation | backend/app/services/shipment_event.py:59-60 | "scanned at {location}" is different for different locations |
| ShipmentEvents.NewEvent | backend/app/services/shipment_event.py:15-38 | fails with NoPriorEvent exactly when a field must be inherited from an empty timeline; otherwise the event belongs to the shipment, is stamped now, keeps truthy location and status or takes the latest event's, and keeps a truthy description or generates one from the status |
| ShipmentEvents.GenerateDescription | backend/app/services/shipment_event.py:49-60 | the generated descriptions of different statuses differ (in their second character); the in_transit one is "scanned at " followed by the location in decimal |
| ShipmentEvents.SmsBody | backend/app/services/shipment_event.py:87-91 | the SMS text contains the verification code |
| ShipmentEvents.Notify | backend/app/services/shipment_event.py:62-112 | in_transit sends nothing; every other status emails the client with that status's subject and template (Subject, Template); only out_for_delivery stores the code; with a phone the out_for_delivery email context is empty; an SMS with the code goes out exactly when there is a phone; the code is in the email context exactly when there is none; the placed, delivered and cancelled contexts carry exactly their keys |
| ShipmentEvents.OneEmailUnlessInTransit | backend/app/services/shipment_event.py:62-112 | the queued messages are empty exactly for in_transit; otherwise the last is one email to the client and any before it are SMS |
| ShipmentEvents.EventService.constructor | backend/app/services/shipment_event.py:11-13 | the code store and outbox start empty |
| ShipmentEvents.EventService.GetLatestEvent | backend/app/services/shipment_event.py:44-47 | sorts the timeline (ordered, same events) and returns its latest event, or NoPriorEvent when it is empty |
| ShipmentEvents.EventService.Add | backend/app/services/shipment_event.py:15-42 | the result is NewEvent; the timeline is sorted only when the latest event was looked up; on failure nothing changes; on success the code store and outbox follow the notification plan for the new event's status |
| ShipmentEvents.EventService.Apply | backend/app/services/shipment_event.py:83-93 | a plan stores its code (as text) under the shipment id, then queues its SMS and email |
| DeliveryPartners.OutstandingAppend | backend/app/services/delivery_partner.py:41-42 | appending an open shipment raises the partner's load by one, a closed one leaves it |
| DeliveryPartners.Outstanding | backend/app/services/delivery_partner.py:41 | a partner's open load is at most its number of shipments, all of them when all are open and none when none is |
| DeliveryPartners.Capacity | backend/app/services/delivery_partner.py:41 | the current capacity lies between the maximum less every assigned shipment and the maximum itself |
| DeliveryPartners.OutstandingIgnoresUncarried | backend/app/services/delivery_partner.py:41 | a shipment the partner does not carry does not change its load, open or not |
| DeliveryPartners.OutstandingMonotone | backend/app/services/delivery_partner.py:41 | closing shipments never raises a partner's load |
| DeliveryPartners.OutstandingWithout | backend/app/services/shipment.py:149-150 | dropping a shipment from a partner's list never raises its load |
| DeliveryPartners.OutstandingConcat | backend/app/services/delivery_partner.py:41 | the load of two lists joined is the sum of their loads |
| DeliveryPartners.CarriedAfterAssign | backend/app/services/delivery_partner.py:42 | after the assignment every carried shipment is a stored one or the new one |
| DeliveryPartners.CarriedAfterUnassign | backend/app/services/shipment.py:149-150 | after a deletion no partner carries the deleted shipment |
| DeliveryPartners.AssignKeepsWithinCapacity | backend/app/services/delivery_partner.py:37-47 | first-fit assignment of a new open shipment leaves every partner at capacity zero or more |
| DeliveryPartners.WithinCapacityWhenClosing | backend/app/services/delivery_partner.py:41 | closing shipments keeps every partner at capacity zero or more |
| DeliveryPartners.UnassignKeepsWithinCapacity | backend/app/services/shipment.py:149-150 | dropping a shipment from every partner, and closing it, keeps every partner at capacity zero or more |
| DeliveryPartners.PartnersForZipcode | backend/app/services/delivery_partner.py:28-35 | a partner is returned exactly when it serves the zip code |
| DeliveryPartners.FirstFit | backend/app/services/delivery_partner.py:40-47 | finds the first eligible partner with capacity above zero, or reports that every one has none |
| DeliveryPartners.NewLocationsAreTheUnknownZips | backend/app/services/delivery_partner.py:21-25 | add creates a location exactly for each zip code not known yet, never two for one zip code |
| DeliveryPartners.AssignToKeepsIds | backend/app/services/delivery_partner.py:42 | attaching a shipment changes no partner's identity or position |
| DeliveryPartners.Without | backend/app/services/shipment.py:149-150 | after deletion the id is gone from a partner's shipments and every other id stays |
| DeliveryPartners.PartnerService.constructor | backend/app/services/delivery_partner.py:13-14 | an empty directory over the given locations |
| DeliveryPartners.PartnerService.Add | backend/app/services/delivery_partner.py:16-26 | the partner is appended serving exactly the given zip codes; the known locations grow by them; the created ones are the unknown ones |
| DeliveryPartners.PartnerService.AssignShipment | backend/app/services/delivery_partner.py:37-47 | DeliveryPartnerNotAvailable with no change when no eligible partner has capacity; otherwise the first-fit partner alone gains the shipment and its capacity drops by one without going below zero |
| DeliveryPartners.PartnerService.Unassign | backend/app/services/shipment.py:149-150 | the deleted shipment leaves every partner's list |
| Shipments.NoneTextPassesAsWritten | backend/app/services/shipment.py:77-81 | with no code stored, the check as written accepts the text "None"; the corrected check rejects it |
| Shipments.CodeAcceptedIffSameNumber | backend/app/services/shipment.py:77-81 | for a stored code, the corrected check accepts a supplied code exactly when it is the same number |
| Shipments.AbsentCodeNeverAccepted | backend/app/services/shipment.py:77-81 | with no code stored, no supplied code passes the corrected check |
| Shipments.AsWrittenAgreesWhenStored | backend/app/services/shipment.py:77-81 | with a code stored, the corrected check and the check as written agree |
| Shipments.StoredCodeAsWritten | backend/app/database/redis.py:29-30 | the stored code as text, or the text "None" when none is stored |
| Shipments.CurrentStatus | backend/app/services/shipment_event.py:44-47 | no status exactly before the first event; otherwise the status of the latest event |
| Shipments.AppendsEventUnlessOnlyEstimate | backend/app/services/shipment.py:83-95 | an update records an event unless the estimated delivery is its only field |
| Shipments.EstimateWithScanFailsAsWritten | backend/app/services/shipment.py:83-95 | a scan sent together with a new estimate fails as written, while the corrected call forwards the scan |
| Shipments.ForwardedAgreesWhenAccepted | backend/app/services/shipment.py:83-95 | wherever the call as written succeeds, it forwards the same fields as the corrected one |
| Shipments.ForwardedAsWritten | backend/app/services/shipment.py:83-95 | the call as written fails exactly when an estimated delivery is present, and otherwise forwards location, status and description |
| Shipments.FirstIndex | backend/app/services/shipment.py:109 | the position of a present tag's first occurrence |
| Shipments.RemoveFirst | backend/app/services/shipment.py:105-113 | removing a present tag drops its first occurrence and keeps the other tags in order |
| Shipments.RemoveUndoesAppend | backend/app/services/shipment.py:99-113 | adding a new tag and then removing it restores the tag list |
| Shipments.AppendKeepsWellFormed | backend/app/services/shipment.py:140-145 | appending the shipment's own event to its reordered timeline keeps every event owned by it |
| Shipments.Placement | backend/app/services/shipment.py:37-48 | a new row has no events and no tags and is due three days after creation |
| Shipments.LatestOfReorderedAppend | backend/app/services/shipment.py:140-145 | an event stamped no earlier than every recorded one is the latest after the sort and the append |
| Shipments.ValidCreateIffPlacementWellFormed | backend/app/api/schemas/shipment.py:9-34 | a create body is valid exactly when the row it places is well formed |
| Shipments.OpenIdsStore | backend/app/services/delivery_partner.py:41 | filing a row makes its id open exactly when the row is open, and leaves every other id |
| Shipments.OpenIdsRemove | backend/app/services/shipment.py:149-150 | deleting a row removes only its id from the open ones |
| Shipments.SameTimelineKeepsOpenIds | backend/app/services/shipment.py:99-113 | a change that leaves the timeline alone leaves the open shipments alone |
| Shipments.PlacementKeepsWithinCapacity | backend/app/services/shipment.py:36-61 | placing a new shipment with the first-fit partner keeps every carried shipment stored and every partner at capacity zero or more |
| Shipments.CancelKeepsWithinCapacity | backend/app/services/shipment.py:133-146 | cancelling never reopens a shipment, so every partner stays at capacity zero or more |
| Shipments.DeleteKeepsWithinCapacity | backend/app/services/shipment.py:149-150 | deleting a shipment keeps every partner at capacity zero or more |
| Shipments.UpdateCanReopenDelivered | backend/app/services/shipment.py:64-97 | an in_transit scan on a delivered shipment reopens it, and a partner full before goes below zero capacity |
| Shipments.ShipmentService.constructor | backend/app/services/shipment.py:18-26 | no shipments and no reviews, over the given partner and event services |
| Shipments.ShipmentService.Get | backend/app/services/shipment.py:29-33 | the stored shipment, or EntityNotFound exactly when none has the id |
| Shipments.ShipmentService.Store | backend/app/services/shipment.py:50 | persisting a row files it under its id and changes no other row |
| Shipments.ShipmentService.Add | backend/app/services/shipment.py:36-61 | no partner: DeliveryPartnerNotAvailable and nothing stored; otherwise the first-fit partner carries the shipment, which is stored with one placed event "assigned to {partner}" at the seller's zip code and has status placed; the placed email is queued; if every partner was within capacity, every partner still is |
| Shipments.ShipmentService.RecordPlacement | backend/app/services/shipment.py:50-61 | the row is stored with one placed event at the seller's zip code and the placed email is queued; with zip code 0 it is stored without events; the row stays open |
| Shipments.ShipmentService.Update | backend/app/services/shipment.py:64-97 | EntityNotFound, then ClientNotAuthorized for another partner or a delivered update without the stored code; a new estimate is applied; an event is appended unless the estimate is alone; codes and messages follow the event's notification; failures change nothing; nothing about capacity (see Left out) |
| Shipments.ShipmentService.AddTag | backend/app/services/shipment.py:99-103 | the tag is appended to the shipment's tags; if every partner was within capacity, every partner still is |
| Shipments.ShipmentService.RemoveTag | backend/app/services/shipment.py:105-113 | the first occurrence of the tag is removed, or EntityNotFound when the shipment or the tag is absent; if every partner was within capacity, every partner still is |
| Shipments.ShipmentService.Rate | backend/app/services/shipment.py:115-130 | InvalidToken for a bad token, EntityNotFound for an unknown shipment, otherwise one review is stored with an empty comment stored as None; if every partner was within capacity, every partner still is |
| Shipments.ShipmentService.Cancel | backend/app/services/shipment.py:133-146 | only the owning seller cancels; one cancelled event at the latest location is appended after the sort and the cancellation email queued; with no later-stamped event the status becomes cancelled; if every partner was within capacity, every partner still is |
| Shipments.ShipmentService.Delete | backend/app/services/shipment.py:149-150 | the shipment is removed and no partner carries it any more, or EntityNotFound; if every partner was within capacity, every partner still is |

## Left out

- HTTP routing, authentication and the user flows (login, tokens, email verification, the
  verification email `_add_user` sends): these are outside the shipment core.
- The token codec: signing and decoding a review token is replaced by its decoded result, and a
  token whose payload lacks an id or holds a malformed id is not modelled.
- Redis, mail and SMS transport: the code store is a map; messages are queued in an outbox and
  never sent.
- Concurrency and transactions: the model is one sequential world. Atomic capacity consumption and
  per-shipment locking are not modelled.
- Session rollback: an update whose event append fails leaves the stored shipment unchanged. The
  partially changed in-memory row the ORM session would hold is not modelled.
- The clock, fresh ids and the random code are parameters; the model does not draw them.
- Tags: a tag is its name. The tag rows, their instructions and the lookup `tag_name.tag(session)`
  are not modelled, and adding a tag the shipment already has is kept as a second entry.
- Weights are mathematical reals: NaN and infinities are not modelled. Email syntax (`EmailStr`) is
  not checked.
- Database models (`models.py`) are not part of this model. Status is derived from the latest event,
  and a partner's capacity is computed from its open shipments.
- Deleting a shipment removes its events with it (the timeline lives inside the shipment). The
  reviews keep their shipment id, and the database cascade is not modelled.
- A zip code listed twice in a partner's serviceable zip codes stays twice in the partner's list.
  The association table's handling of duplicates is not modelled.
- Shipments.ShipmentService.Update: does not promise that every partner stays at capacity zero or
  more, because the code has no terminal-state guard; an update can reopen a delivered or
  cancelled shipment (`Shipments.UpdateCanReopenDelivered`).
- A partner registered with a negative maximum capacity starts below zero: the partner schema does
  not bound `max_handling_capacity`, so the capacity bound holds from any state that meets it.
- The `verification_code` comparison and the `estimated_delivery` forwarding are modelled in their
  corrected form (see Findings); the form as written is kept beside them.

## Findings

| source | as written | input that shows it | evidently intended | confidence | as-written member | corrected member |
|---|---|---|---|---|---|---|
| backend/app/services/shipment.py:77-81 | the stored code is read as `str()` of the Redis value, which is the text "None" when no code was ever stored, and is compared with the supplied code | a delivered update with `verification_code = "None"` for a shipment that never went out for delivery | a delivery is confirmed only against a code on record | medium, not executed | Shipments.NoneTextPassesAsWritten | Shipments.AbsentCodeNeverAccepted |
| backend/app/services/shipment.py:83-95 | the dumped update, `estimated_delivery` included, is passed as keyword arguments to `ShipmentEventService.add`, which has no such parameter | an update with `location = 11002`, `status = in_transit` and an `estimated_delivery` | the new estimate is applied to the shipment and the other fields become the event | high, not executed | Shipments.EstimateWithScanFailsAsWritten | Shipments.ShipmentService.Update |
