/**
 * The offer service (server/src/app/offer/offer.services.ts): making,
 * accepting and rejecting offers, with the guards that keep at most one
 * ACCEPTED offer per task. Requests run one after another; the two writes of
 * an acceptance happen in sequence.
 */
module OfferServices {
  import opened Wrappers
  import opened Exception
  import opened Domain
  import opened Persistence
  import TaskRepository
  import OfferRepository
  import opened Marketplace

  // createOffer
  const TaskNotFound := Fail("Task not found", "Task not found", NOT_FOUND)
  const TaskNotOpen := Fail("Can only make offers on open tasks", "Can only make offers on open tasks", BAD_REQUEST)
  const ProviderNotFound := Fail("Provider not found", "Provider not found", NOT_FOUND)
  const RateNotPositive := Fail("Hourly rate must be positive", "Hourly rate must be positive", BAD_REQUEST)
  const DuplicatePendingOffer := Fail("Provider already has a pending offer for this task",
                                      "Provider already has a pending offer for this task", BAD_REQUEST)
  // getOfferById
  const OfferIdRequired := Fail("NOT FOUND", "Offer ID is required", NOT_FOUND)
  const OfferNotFound := Fail("NOT FOUND", "Offer not found", NOT_FOUND)
  // acceptOffer
  const NotCreatorAccept := Fail("Only the task creator can accept offers",
                                 "Only the task creator can accept offers", BAD_REQUEST)
  const NotPendingAccept := Fail("Can only accept pending offers", "Can only accept pending offers", BAD_REQUEST)
  const AlreadyAccepted := Fail("Task already has an accepted offer", "Task already has an accepted offer", BAD_REQUEST)

  /** The offer exists, its task exists, and the caller created that task. */
  predicate OwnsOfferTask(tasks: map<Id, Task>, offers: map<Id, Offer>, id: Id, userId: Id)
  {
    id in offers && offers[id].taskId in tasks && tasks[offers[id].taskId].userId == userId
  }

  /**
   * `createOffer`. The checks run in this order and the first that fails
   * decides the error: task exists (404), task is OPEN (400), provider exists
   * (404), rate positive (400), no PENDING offer from this provider on the
   * task (400). On success exactly one PENDING offer is added.
   */
  method CreateOffer(db: Store, taskId: Id, hourlyRate: real, currency: string, id: Id)
    returns (r: Result<Offer, Thrown>)
    requires db.Valid()
    modifies db`offers
    ensures db.Valid()
    ensures taskId !in db.tasks ==> r == Err(TaskNotFound)
    ensures taskId in db.tasks && db.tasks[taskId].status != TaskStatus.Open ==> r == Err(TaskNotOpen)
    ensures taskId in db.tasks && db.tasks[taskId].status == TaskStatus.Open && id !in db.providers ==>
      r == Err(ProviderNotFound)
    ensures (taskId in db.tasks && db.tasks[taskId].status == TaskStatus.Open && id in db.providers &&
       hourlyRate <= 0.0) ==> r == Err(RateNotPositive)
    ensures (taskId in db.tasks && db.tasks[taskId].status == TaskStatus.Open && id in db.providers &&
       hourlyRate > 0.0 && HasPendingOfferFrom(old(db.offers), taskId, id)) ==> r == Err(DuplicatePendingOffer)
    ensures r.Ok? <==>
      && taskId in db.tasks && db.tasks[taskId].status == TaskStatus.Open
      && id in db.providers && hourlyRate > 0.0
      && !HasPendingOfferFrom(old(db.offers), taskId, id)
    ensures r.Err? ==> db.offers == old(db.offers)
    ensures r.Ok? ==>
      && r.value.id !in old(db.offers) && db.offers == old(db.offers)[r.value.id := r.value]
      && r.value == Offer(r.value.id, taskId, id, hourlyRate, currency, OfferStatus.Pending)
    ensures MarketInvariant(db.tasks, old(db.offers), db.progress) ==> MarketInvariant(db.tasks, db.offers, db.progress)
  {
    var task := Lookup(db.tasks, taskId);
    if task.None? {
      return Err(TaskNotFound);
    }
    if task.value.status != TaskStatus.Open {
      return Err(TaskNotOpen);
    }
    var provider := Lookup(db.providers, id);
    if provider.None? {
      return Err(ProviderNotFound);
    }
    if hourlyRate <= 0.0 {
      return Err(RateNotPositive);
    }
    var existingOffer := OfferRepository.FindPendingOffersByTaskId(db.offers, taskId);
    var hasExistingOffer := exists offer :: offer in existingOffer && offer.providerId == id;
    if hasExistingOffer {
      return Err(DuplicatePendingOffer);
    }
    assert !HasPendingOfferFrom(db.offers, taskId, id) by {
      forall o | o in db.offers && db.offers[o].taskId == taskId && db.offers[o].status == OfferStatus.Pending
        ensures db.offers[o].providerId != id
      {
        assert db.offers[o] in existingOffer;
      }
    }
    var offer := OfferRepository.Create(db, taskId, id, hourlyRate, currency);
    r := Ok(offer);
    if MarketInvariant(db.tasks, old(db.offers), db.progress) {
      AddOfferPreserves(db.tasks, old(db.offers), db.progress, offer);
    }
  }

  /** `getOfferById`: NOT FOUND for a missing or empty id and for an unknown offer. */
  method GetOfferById(db: Store, id: Option<string>) returns (r: Result<Offer, Thrown>)
    ensures !Truthy(id) ==> r == Err(OfferIdRequired)
    ensures Truthy(id) && id.value !in db.offers ==> r == Err(OfferNotFound)
    ensures r.Ok? <==> Truthy(id) && id.value in db.offers
    ensures r.Ok? ==> r.value == db.offers[id.value]
  {
    if !Truthy(id) {
      return Err(OfferIdRequired);
    }
    var offer := Lookup(db.offers, id.value);
    if offer.None? {
      return Err(OfferNotFound);
    }
    r := Ok(offer.value);
  }

  /** `getOffersByTaskId`: a plain error for an unknown task, else the task's offers. */
  method GetOffersByTaskId(db: Store, taskId: Id) returns (r: Result<set<Offer>, Thrown>)
    ensures taskId !in db.tasks <==> r == Err(PlainError("Task not found"))
    ensures r.Ok? ==> forall o :: o in r.value <==> o in db.offers.Values && o.taskId == taskId
  {
    var task := Lookup(db.tasks, taskId);
    if task.None? {
      return Err(PlainError("Task not found"));
    }
    r := Ok(OfferRepository.FindByTaskId(db.offers, taskId));
  }

  /** `getOffersByProviderId`: a plain error for an unknown provider, else the provider's offers. */
  method GetOffersByProviderId(db: Store, providerId: Id) returns (r: Result<set<Offer>, Thrown>)
    ensures providerId !in db.providers <==> r == Err(PlainError("Provider not found"))
    ensures r.Ok? ==> forall o :: o in r.value <==> o in db.offers.Values && o.providerId == providerId
  {
    var provider := Lookup(db.providers, providerId);
    if provider.None? {
      return Err(PlainError("Provider not found"));
    }
    r := Ok(OfferRepository.FindByProviderId(db.offers, providerId));
  }

  /**
   * `acceptOffer`. Plain errors for a missing offer or task; BAD_REQUEST when
   * the caller did not create the task, when the offer is not PENDING, and
   * when the task already has an ACCEPTED offer. On success the offer becomes
   * ACCEPTED and the task ACCEPTED with the offer's provider; the updated
   * offer is returned.
   */
  method AcceptOffer(db: Store, id: Id, userId: Id) returns (r: Result<Offer, Thrown>)
    requires db.Valid()
    modifies db`offers, db`tasks
    ensures db.Valid()
    ensures id !in old(db.offers) ==> r == Err(PlainError("Offer not found"))
    ensures id in old(db.offers) && old(db.offers[id]).taskId !in old(db.tasks) ==> r == Err(PlainError("Task not found"))
    ensures (id in old(db.offers) && old(db.offers[id]).taskId in old(db.tasks) &&
       !OwnsOfferTask(old(db.tasks), old(db.offers), id, userId)) ==> r == Err(NotCreatorAccept)
    ensures (OwnsOfferTask(old(db.tasks), old(db.offers), id, userId) &&
       old(db.offers[id]).status != OfferStatus.Pending) ==> r == Err(NotPendingAccept)
    ensures (OwnsOfferTask(old(db.tasks), old(db.offers), id, userId) &&
       old(db.offers[id]).status == OfferStatus.Pending &&
       OfferRepository.HasAcceptedOffer(old(db.offers), old(db.offers[id]).taskId)) ==> r == Err(AlreadyAccepted)
    ensures r.Ok? <==>
      && OwnsOfferTask(old(db.tasks), old(db.offers), id, userId)
      && old(db.offers[id]).status == OfferStatus.Pending
      && !OfferRepository.HasAcceptedOffer(old(db.offers), old(db.offers[id]).taskId)
    ensures r.Err? ==> db.offers == old(db.offers) && db.tasks == old(db.tasks)
    ensures r.Ok? ==>
      && r.value == old(db.offers[id]).(status := OfferStatus.Accepted)
      && db.offers == old(db.offers)[id := r.value]
      && db.tasks == old(db.tasks)[r.value.taskId :=
           old(db.tasks[r.value.taskId]).(status := TaskStatus.Accepted, providerId := Some(r.value.providerId))]
    ensures r.Ok? ==> OfferRepository.HasAcceptedOffer(db.offers, r.value.taskId)
    ensures AtMostOneAcceptedPerTask(old(db.offers)) ==> AtMostOneAcceptedPerTask(db.offers)
    ensures MarketInvariant(old(db.tasks), old(db.offers), db.progress) ==>
      && MarketInvariant(db.tasks, db.offers, db.progress)
      && (r.Ok? ==> old(db.tasks[r.value.taskId]).providerId.None?)
  {
    var offer := Lookup(db.offers, id);
    if offer.None? {
      return Err(PlainError("Offer not found"));
    }
    var task := Lookup(db.tasks, offer.value.taskId);
    if task.None? {
      return Err(PlainError("Task not found"));
    }
    if task.value.userId != userId {
      return Err(NotCreatorAccept);
    }
    if offer.value.status != OfferStatus.Pending {
      return Err(NotPendingAccept);
    }
    var acceptedOffer := OfferRepository.FindAcceptedOfferByTaskId(db.offers, offer.value.taskId);
    if acceptedOffer.Some? {
      return Err(AlreadyAccepted);
    }
    var updatedOffer := OfferRepository.AcceptOffer(db, id);
    var _ := TaskRepository.UpdateTask(db, offer.value.taskId, AssignPatch(TaskStatus.Accepted, offer.value.providerId));
    TaskRepository.AssignPatchSetsStatusAndProvider(task.value, TaskStatus.Accepted, offer.value.providerId);
    r := Ok(updatedOffer);
    assert db.offers[id].taskId == updatedOffer.taskId && db.offers[id].status == OfferStatus.Accepted;
    if MarketInvariant(old(db.tasks), old(db.offers), db.progress) {
      UnacceptedTaskIsUnassigned(old(db.tasks), old(db.offers), db.progress, offer.value.taskId);
      AcceptOfferPreserves(old(db.tasks), old(db.offers), db.progress, id);
    }
  }

  /**
   * `rejectOffer`: the same owner and PENDING guards, raised as plain errors;
   * on success only the offer changes, to REJECTED. The task is never written.
   */
  method RejectOffer(db: Store, id: Id, userId: Id) returns (r: Result<Offer, Thrown>)
    requires db.Valid()
    modifies db`offers
    ensures db.Valid()
    ensures id !in old(db.offers) ==> r == Err(PlainError("Offer not found"))
    ensures id in old(db.offers) && old(db.offers[id]).taskId !in db.tasks ==> r == Err(PlainError("Task not found"))
    ensures (id in old(db.offers) && old(db.offers[id]).taskId in db.tasks &&
       !OwnsOfferTask(db.tasks, old(db.offers), id, userId)) ==> r == Err(PlainError("Only the task creator can reject offers"))
    ensures (OwnsOfferTask(db.tasks, old(db.offers), id, userId) &&
       old(db.offers[id]).status != OfferStatus.Pending) ==> r == Err(PlainError("Can only reject pending offers"))
    ensures r.Ok? <==> OwnsOfferTask(db.tasks, old(db.offers), id, userId) && old(db.offers[id]).status == OfferStatus.Pending
    ensures r.Err? ==> db.offers == old(db.offers)
    ensures r.Ok? ==>
      && r.value == old(db.offers[id]).(status := OfferStatus.Rejected)
      && db.offers == old(db.offers)[id := r.value]
    ensures MarketInvariant(db.tasks, old(db.offers), db.progress) ==> MarketInvariant(db.tasks, db.offers, db.progress)
  {
    var offer := Lookup(db.offers, id);
    if offer.None? {
      return Err(PlainError("Offer not found"));
    }
    var task := Lookup(db.tasks, offer.value.taskId);
    if task.None? {
      return Err(PlainError("Task not found"));
    }
    if task.value.userId != userId {
      return Err(PlainError("Only the task creator can reject offers"));
    }
    if offer.value.status != OfferStatus.Pending {
      return Err(PlainError("Can only reject pending offers"));
    }
    var rejected := OfferRepository.RejectOffer(db, id);
    r := Ok(rejected);
    if MarketInvariant(db.tasks, old(db.offers), db.progress) {
      RejectOfferPreserves(db.tasks, old(db.offers), db.progress, id);
    }
  }

  /** A refused acceptance reaches the client as 400 (not 403); a missing offer as 500. */
  lemma AcceptErrorStatuses()
    ensures StatusOf(NotCreatorAccept) == BAD_REQUEST
    ensures StatusOf(NotPendingAccept) == BAD_REQUEST && StatusOf(AlreadyAccepted) == BAD_REQUEST
    ensures StatusOf(PlainError("Offer not found")) == INTERNAL_SERVER_ERROR
  {
  }
}
