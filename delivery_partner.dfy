/** The partner directory (DeliveryPartnerService): registering a partner with
    its serviceable locations, finding the partners for a zip code, and the
    first-fit assignment of a new shipment to a partner with spare capacity. */
module DeliveryPartners {
  import opened Domain

  /** How many of the assigned shipments are still open: never more than
      are assigned, and all of them when every one is open. */
  function Outstanding(ids: seq<ShipmentId>, open: set<ShipmentId>): (n: nat)
    ensures n <= |ids|
    ensures (forall x :: x in ids ==> x in open) ==> n == |ids|
    ensures (forall x :: x in ids ==> x !in open) ==> n == 0
  {
    if ids == [] then 0 else (if ids[0] in open then 1 else 0) + Outstanding(ids[1..], open)
  }

  lemma {:induction false} OutstandingAppend(ids: seq<ShipmentId>, x: ShipmentId, open: set<ShipmentId>)
    ensures Outstanding(ids + [x], open) == Outstanding(ids, open) + (if x in open then 1 else 0)
  {
    if ids != [] {
      assert (ids + [x])[1..] == ids[1..] + [x];
      OutstandingAppend(ids[1..], x, open);
    }
  }

  /** current_handling_capacity: the maximum load less the open shipments.
      It lies between the maximum less every assigned shipment and the
      maximum itself. */
  function Capacity(p: Partner, open: set<ShipmentId>): (c: int)
    ensures p.maxCapacity - |p.shipments| <= c <= p.maxCapacity
  {
    p.maxCapacity - Outstanding(p.shipments, open)
  }

  /** A shipment outside the assigned list does not count, open or not. */
  lemma {:induction false} OutstandingIgnoresUncarried(ids: seq<ShipmentId>, open: set<ShipmentId>, x: ShipmentId)
    requires x !in ids
    ensures Outstanding(ids, open + {x}) == Outstanding(ids, open)
  {
    if ids != [] {
      OutstandingIgnoresUncarried(ids[1..], open, x);
    }
  }

  /** Closing shipments never raises a load. */
  lemma {:induction false} OutstandingMonotone(ids: seq<ShipmentId>, a: set<ShipmentId>, b: set<ShipmentId>)
    requires a <= b
    ensures Outstanding(ids, a) <= Outstanding(ids, b)
  {
    if ids != [] {
      OutstandingMonotone(ids[1..], a, b);
    }
  }

  /** Dropping a shipment from the list never raises the load. */
  lemma {:induction false} OutstandingWithout(ids: seq<ShipmentId>, x: ShipmentId, open: set<ShipmentId>)
    ensures Outstanding(Without(ids, x), open) <= Outstanding(ids, open)
  {
    if ids != [] {
      OutstandingWithout(ids[1..], x, open);
      var head := if ids[0] == x then [] else [ids[0]];
      OutstandingConcat(head, Without(ids[1..], x), open);
    }
  }

  lemma {:induction false} OutstandingConcat(a: seq<ShipmentId>, b: seq<ShipmentId>, open: set<ShipmentId>)
    ensures Outstanding(a + b, open) == Outstanding(a, open) + Outstanding(b, open)
  {
    if a == [] {
      assert a + b == b;
    } else {
      assert (a + b)[1..] == a[1..] + b;
      OutstandingConcat(a[1..], b, open);
    }
  }

  predicate UniqueIds(partners: seq<Partner>) {
    forall i, j :: 0 <= i < j < |partners| ==> partners[i].id != partners[j].id
  }

  /** No partner carries the shipment. */
  predicate NotCarried(partners: seq<Partner>, x: ShipmentId) {
    forall i :: 0 <= i < |partners| ==> x !in partners[i].shipments
  }

  /** Every shipment a partner carries is among ids (the shipment rows that
      exist: a partner's shipments are those whose foreign key names it). */
  predicate CarriedWithin(partners: seq<Partner>, ids: set<ShipmentId>) {
    forall i, x :: 0 <= i < |partners| && x in partners[i].shipments ==> x in ids
  }

  /** Attaching a shipment to a partner carries it within the ids it joins. */
  lemma CarriedAfterAssign(partners: seq<Partner>, pid: PartnerId, sid: ShipmentId, ids: set<ShipmentId>)
    requires CarriedWithin(partners, ids)
    ensures CarriedWithin(AssignTo(partners, pid, sid), ids + {sid})
  {
  }

  /** Dropping a shipment from every partner carries the rest within the ids
      without it. */
  lemma CarriedAfterUnassign(partners: seq<Partner>, after: seq<Partner>, x: ShipmentId, ids: set<ShipmentId>)
    requires CarriedWithin(partners, ids)
    requires |after| == |partners|
    requires forall i :: 0 <= i < |partners| ==>
      after[i] == partners[i].(shipments := Without(partners[i].shipments, x))
    ensures CarriedWithin(after, ids - {x})
  {
  }

  /** No partner holds more open shipments than its maximum. */
  predicate WithinCapacity(partners: seq<Partner>, open: set<ShipmentId>) {
    forall i :: 0 <= i < |partners| ==> Capacity(partners[i], open) >= 0
  }

  /** First-fit assignment of a new open shipment keeps every partner within
      capacity: the chosen one had a free slot, and the others' loads do not
      see the new shipment. */
  lemma AssignKeepsWithinCapacity(partners: seq<Partner>, destination: Zip, open: set<ShipmentId>, sid: ShipmentId)
    requires UniqueIds(partners) && WithinCapacity(partners, open) && NotCarried(partners, sid)
    ensures var eligible := PartnersForZipcode(partners, destination);
      var k := FirstFit(eligible, open + {sid});
      k.Some? ==> WithinCapacity(AssignTo(partners, eligible[k.value].id, sid), open + {sid})
  {
    var eligible := PartnersForZipcode(partners, destination);
    var k := FirstFit(eligible, open + {sid});
    if k.Some? {
      var chosen := eligible[k.value];
      assert chosen in partners;
      var j :| 0 <= j < |partners| && partners[j] == chosen;
      var after := AssignTo(partners, chosen.id, sid);
      forall i | 0 <= i < |after| ensures Capacity(after[i], open + {sid}) >= 0 {
        var p := partners[i];
        if p.id == chosen.id {
          assert i == j;
          OutstandingAppend(p.shipments, sid, open + {sid});
        } else {
          OutstandingIgnoresUncarried(p.shipments, open, sid);
        }
      }
    }
  }

  /** Closing shipments keeps every partner within capacity. */
  lemma WithinCapacityWhenClosing(partners: seq<Partner>, a: set<ShipmentId>, b: set<ShipmentId>)
    requires a <= b && WithinCapacity(partners, b)
    ensures WithinCapacity(partners, a)
  {
    forall i | 0 <= i < |partners| ensures Capacity(partners[i], a) >= 0 {
      OutstandingMonotone(partners[i].shipments, a, b);
    }
  }

  /** Dropping a shipment from every partner, and closing shipments, keeps
      every partner within capacity. */
  lemma UnassignKeepsWithinCapacity(partners: seq<Partner>, after: seq<Partner>, x: ShipmentId, a: set<ShipmentId>, b: set<ShipmentId>)
    requires a <= b && WithinCapacity(partners, b)
    requires |after| == |partners|
    requires forall i :: 0 <= i < |partners| ==>
      after[i] == partners[i].(shipments := Without(partners[i].shipments, x))
    ensures WithinCapacity(after, a)
  {
    forall i | 0 <= i < |after| ensures Capacity(after[i], a) >= 0 {
      OutstandingWithout(partners[i].shipments, x, a);
      OutstandingMonotone(partners[i].shipments, a, b);
    }
  }

  /** The partners with a serviceable location of the given zip code, in
      directory order. */
  function PartnersForZipcode(partners: seq<Partner>, zipcode: Zip): (r: seq<Partner>)
    ensures forall p :: p in r <==> p in partners && zipcode in p.locations
    ensures |r| <= |partners|
  {
    if partners == [] then []
    else
      (if zipcode in partners[0].locations then [partners[0]] else []) +
      PartnersForZipcode(partners[1..], zipcode)
  }

  /** The position of the first partner with capacity left, if any. */
  function FirstFit(eligible: seq<Partner>, open: set<ShipmentId>): (k: Option<nat>)
    ensures k.Some? ==>
      k.value < |eligible| && Capacity(eligible[k.value], open) > 0 &&
      forall j :: 0 <= j < k.value ==> Capacity(eligible[j], open) <= 0
    ensures k.None? ==> forall j :: 0 <= j < |eligible| ==> Capacity(eligible[j], open) <= 0
  {
    if eligible == [] then None
    else if Capacity(eligible[0], open) > 0 then Some(0)
    else match FirstFit(eligible[1..], open)
      case None => None
      case Some(k) => Some(k + 1)
  }

  /** The partner records after appending a shipment to the one with id pid. */
  function AssignTo(partners: seq<Partner>, pid: PartnerId, sid: ShipmentId): seq<Partner> {
    seq(|partners|, i requires 0 <= i < |partners| =>
      if partners[i].id == pid then partners[i].(shipments := partners[i].shipments + [sid])
      else partners[i])
  }

  lemma AssignToKeepsIds(partners: seq<Partner>, pid: PartnerId, sid: ShipmentId)
    ensures |AssignTo(partners, pid, sid)| == |partners|
    ensures forall i :: 0 <= i < |partners| ==> AssignTo(partners, pid, sid)[i].id == partners[i].id
  {
  }

  /** The zip codes for which add creates a new Location, in input order: those
      not known yet, each once (a location created earlier in the loop is
      found by the later lookups). */
  function NewLocations(zips: seq<Zip>, known: set<Zip>): seq<Zip>
    decreases |zips|
  {
    if zips == [] then []
    else if zips[0] in known then NewLocations(zips[1..], known)
    else [zips[0]] + NewLocations(zips[1..], known + {zips[0]})
  }

  /** add creates a Location exactly for the unknown zip codes, and never two
      for one zip code. */
  lemma {:induction false} NewLocationsAreTheUnknownZips(zips: seq<Zip>, known: set<Zip>)
    ensures var created := NewLocations(zips, known);
      && (forall z :: z in created <==> z in zips && z !in known)
      && (forall i, j :: 0 <= i < j < |created| ==> created[i] != created[j])
    decreases |zips|
  {
    if zips != [] {
      var z := zips[0];
      var rest := zips[1..];
      assert forall y :: y in zips <==> y == z || y in rest;
      if z in known {
        NewLocationsAreTheUnknownZips(rest, known);
      } else {
        NewLocationsAreTheUnknownZips(rest, known + {z});
      }
    }
  }

  class PartnerService {
    /** The delivery partners, in the order the directory query returns them. */
    var partners: seq<Partner>
    /** Zip codes of the Location rows that exist. */
    var locations: set<Zip>

    ghost predicate Valid()
      reads this
    {
      UniqueIds(partners)
    }

    constructor (locations: set<Zip>)
      ensures Valid() && partners == [] && this.locations == locations
    {
      partners := [];
      this.locations := locations;
    }

    /** Registers a partner and attaches one location per zip code, reusing a
        known Location and creating the others; returns the created ones. */
    method Add(id: PartnerId, name: string, email: string, maxCapacity: int, zips: seq<Zip>)
      returns (created: seq<Zip>)
      requires Valid()
      requires forall p :: p in partners ==> p.id != id
      modifies this
      ensures Valid()
      ensures partners == old(partners) + [Partner(id, name, email, maxCapacity, zips, [])]
      ensures locations == old(locations) + set z | z in zips
      ensures created == NewLocations(zips, old(locations))
    {
      var attached: seq<Zip> := [];
      created := [];
      var i := 0;
      while i < |zips|
        invariant 0 <= i <= |zips|
        invariant partners == old(partners)
        invariant attached == zips[..i]
        invariant locations == old(locations) + set z | z in zips[..i]
        invariant created + NewLocations(zips[i..], locations) == NewLocations(zips, old(locations))
      {
        var z := zips[i];
        assert zips[i..][1..] == zips[i + 1..];
        if z !in locations {
          locations := locations + {z};
          created := created + [z];
        }
        attached := attached + [z];
        assert zips[..i + 1] == zips[..i] + [z];
        i := i + 1;
      }
      assert zips[..i] == zips;
      partners := partners + [Partner(id, name, email, maxCapacity, attached, [])];
    }

    /** First-fit: the shipment goes to the first eligible partner, in
        directory order, with capacity left; nobody else changes. */
    method AssignShipment(shipmentId: ShipmentId, destination: Zip, open: set<ShipmentId>)
      returns (r: Result<Partner>)
      requires Valid()
      modifies this
      ensures Valid() && locations == old(locations)
      ensures var eligible := PartnersForZipcode(old(partners), destination);
        FirstFit(eligible, open).None? ==>
          r == Err(DeliveryPartnerNotAvailable) && partners == old(partners)
      ensures var eligible := PartnersForZipcode(old(partners), destination);
        var k := FirstFit(eligible, open);
        k.Some? ==>
          var chosen := eligible[k.value];
          && chosen in old(partners)
          && r == Ok(chosen.(shipments := chosen.shipments + [shipmentId]))
          && partners == AssignTo(old(partners), chosen.id, shipmentId)
          && (shipmentId in open ==> Capacity(r.value, open) == Capacity(chosen, open) - 1 >= 0)
    {
      var eligible := PartnersForZipcode(partners, destination);
      var i := 0;
      while i < |eligible| && Capacity(eligible[i], open) <= 0
        invariant 0 <= i <= |eligible|
        invariant forall j :: 0 <= j < i ==> Capacity(eligible[j], open) <= 0
      {
        i := i + 1;
      }
      if i == |eligible| {
        assert FirstFit(eligible, open).None?;
        return Err(DeliveryPartnerNotAvailable);
      }
      assert FirstFit(eligible, open) == Some(i);
      var partner := eligible[i];
      assert partner in old(partners);
      AssignToKeepsIds(partners, partner.id, shipmentId);
      OutstandingAppend(partner.shipments, shipmentId, open);
      partners := AssignTo(partners, partner.id, shipmentId);
      r := Ok(partner.(shipments := partner.shipments + [shipmentId]));
    }

    /** Drops a deleted shipment from the partner that carried it (the
        relationship is the shipment's foreign key). */
    method Unassign(shipmentId: ShipmentId)
      requires Valid()
      modifies this
      ensures Valid() && locations == old(locations)
      ensures |partners| == |old(partners)|
      ensures forall i :: 0 <= i < |partners| ==>
        partners[i] == old(partners[i]).(shipments := Without(old(partners[i]).shipments, shipmentId))
    {
      partners := seq(|partners|, i requires 0 <= i < |partners| reads this =>
        partners[i].(shipments := Without(partners[i].shipments, shipmentId)));
    }
  }

  /** The list with every occurrence of x removed. */
  function Without(ids: seq<ShipmentId>, x: ShipmentId): (r: seq<ShipmentId>)
    ensures forall y :: y in r <==> y in ids && y != x
  {
    if ids == [] then []
    else (if ids[0] == x then [] else [ids[0]]) + Without(ids[1..], x)
  }
}
