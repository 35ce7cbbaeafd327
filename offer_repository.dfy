/**
 * The offer repository (server/src/app/offer/offer.repository.ts): offer
 * records created, re-statused and deleted in the store, and the filters over
 * them. A write on an id the table does not hold fails inside the database;
 * callers check first.
 */
module OfferRepository {
  import opened Wrappers
  import opened Domain
  import opened Persistence

  /** The fields `update` may change; absent ones stay. */
  datatype OfferPatch = OfferPatch(
    hourlyRate: Option<real>,
    currency: Option<string>,
    status: Option<OfferStatus>,
    providerId: Option<Id>)

  /** `create`: a new PENDING offer with the given fields. */
  method Create(db: Store, taskId: Id, providerId: Id, hourlyRate: real, currency: string) returns (offer: Offer)
    requires db.Valid()
    modifies db`offers
    ensures db.Valid()
    ensures offer.id !in old(db.offers) && db.offers == old(db.offers)[offer.id := offer]
    ensures offer.taskId == taskId && offer.providerId == providerId
    ensures offer.hourlyRate == hourlyRate && offer.currency == currency
    ensures offer.status == OfferStatus.Pending
  {
    var id := NewId(db.offers.Keys);
    offer := Offer(id, taskId, providerId, hourlyRate, currency, OfferStatus.Pending);
    db.offers := db.offers[id := offer];
  }

  /** `findByTaskId`: the offers on a task. */
  function FindByTaskId(offers: map<Id, Offer>, taskId: Id): (r: set<Offer>)
    ensures forall o :: o in r <==> o in offers.Values && o.taskId == taskId
  {
    set id | id in offers && offers[id].taskId == taskId :: offers[id]
  }

  /** `findByProviderId`: the offers a provider made. */
  function FindByProviderId(offers: map<Id, Offer>, providerId: Id): (r: set<Offer>)
    ensures forall o :: o in r <==> o in offers.Values && o.providerId == providerId
  {
    set id | id in offers && offers[id].providerId == providerId :: offers[id]
  }

  /** `findPendingOffersByTaskId`: the PENDING offers on a task. */
  function FindPendingOffersByTaskId(offers: map<Id, Offer>, taskId: Id): (r: set<Offer>)
    ensures forall o :: o in r <==> o in offers.Values && o.taskId == taskId && o.status == OfferStatus.Pending
    ensures r <= FindByTaskId(offers, taskId)
  {
    set id | id in offers && offers[id].taskId == taskId && offers[id].status == OfferStatus.Pending :: offers[id]
  }

  /** Some offer on the task is ACCEPTED. */
  predicate HasAcceptedOffer(offers: map<Id, Offer>, taskId: Id)
  {
    exists id :: id in offers && offers[id].taskId == taskId && offers[id].status == OfferStatus.Accepted
  }

  /**
   * `findAcceptedOfferByTaskId` (`findFirst`): none exactly when no offer on
   * the task is ACCEPTED, otherwise one such offer; which one, when there are
   * several, is the database's choice.
   */
  method FindAcceptedOfferByTaskId(offers: map<Id, Offer>, taskId: Id) returns (r: Option<Offer>)
    ensures r.None? <==> !HasAcceptedOffer(offers, taskId)
    ensures r.Some? ==> r.value in offers.Values && r.value.taskId == taskId && r.value.status == OfferStatus.Accepted
  {
    if id :| id in offers && offers[id].taskId == taskId && offers[id].status == OfferStatus.Accepted {
      r := Some(offers[id]);
    } else {
      r := None;
    }
  }

  /** `update`: applies the present fields to one offer. */
  method Update(db: Store, id: Id, patch: OfferPatch) returns (offer: Offer)
    requires db.Valid() && id in db.offers
    modifies db`offers
    ensures db.Valid()
    ensures offer.id == id && offer.taskId == old(db.offers[id]).taskId
    ensures offer.hourlyRate == if patch.hourlyRate.Some? then patch.hourlyRate.value else old(db.offers[id]).hourlyRate
    ensures offer.currency == if patch.currency.Some? then patch.currency.value else old(db.offers[id]).currency
    ensures offer.status == if patch.status.Some? then patch.status.value else old(db.offers[id]).status
    ensures offer.providerId == if patch.providerId.Some? then patch.providerId.value else old(db.offers[id]).providerId
    ensures db.offers == old(db.offers)[id := offer]
  {
    var current := db.offers[id];
    offer := current.(
      hourlyRate := if patch.hourlyRate.Some? then patch.hourlyRate.value else current.hourlyRate,
      currency := if patch.currency.Some? then patch.currency.value else current.currency,
      status := if patch.status.Some? then patch.status.value else current.status,
      providerId := if patch.providerId.Some? then patch.providerId.value else current.providerId);
    db.offers := db.offers[id := offer];
  }

  /** `deleteOffer`: removes that offer only. */
  method DeleteOffer(db: Store, id: Id) returns (offer: Offer)
    requires db.Valid() && id in db.offers
    modifies db`offers
    ensures db.Valid()
    ensures offer == old(db.offers[id]) && db.offers == old(db.offers) - {id}
  {
    offer := db.offers[id];
    db.offers := db.offers - {id};
  }

  /** `updateStatus`: sets the status of one offer and nothing else. */
  method UpdateStatus(db: Store, id: Id, status: OfferStatus) returns (offer: Offer)
    requires db.Valid() && id in db.offers
    modifies db`offers
    ensures db.Valid()
    ensures offer == old(db.offers[id]).(status := status)
    ensures db.offers == old(db.offers)[id := offer]
  {
    offer := db.offers[id].(status := status);
    db.offers := db.offers[id := offer];
  }

  /** `acceptOffer`: that offer becomes ACCEPTED; nothing else changes. */
  method AcceptOffer(db: Store, id: Id) returns (offer: Offer)
    requires db.Valid() && id in db.offers
    modifies db`offers
    ensures db.Valid()
    ensures offer == old(db.offers[id]).(status := OfferStatus.Accepted)
    ensures db.offers == old(db.offers)[id := offer]
  {
    offer := UpdateStatus(db, id, OfferStatus.Accepted);
  }

  /** `rejectOffer`: that offer becomes REJECTED; nothing else changes. */
  method RejectOffer(db: Store, id: Id) returns (offer: Offer)
    requires db.Valid() && id in db.offers
    modifies db`offers
    ensures db.Valid()
    ensures offer == old(db.offers[id]).(status := OfferStatus.Rejected)
    ensures db.offers == old(db.offers)[id := offer]
  {
    offer := UpdateStatus(db, id, OfferStatus.Rejected);
  }
}
