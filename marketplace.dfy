/**
 * What the task and offer services keep true of the store between requests,
 * when requests run one after another. The central rule is that a task has at
 * most one ACCEPTED offer; the others tie a task's assigned provider to that
 * offer and to the task's progress log.
 */
module Marketplace {
  import opened Wrappers
  import opened Domain
  import opened OfferRepository

  /** No task has two ACCEPTED offers. */
  predicate AtMostOneAcceptedPerTask(offers: map<Id, Offer>)
  {
    forall a, b ::
      (a in offers && b in offers &&
       offers[a].status == OfferStatus.Accepted && offers[b].status == OfferStatus.Accepted &&
       offers[a].taskId == offers[b].taskId) ==> a == b
  }

  /** A provider holds at most one PENDING offer on a task. */
  predicate OnePendingOfferPerProvider(offers: map<Id, Offer>)
  {
    forall a, b ::
      (a in offers && b in offers &&
       offers[a].status == OfferStatus.Pending && offers[b].status == OfferStatus.Pending &&
       offers[a].taskId == offers[b].taskId && offers[a].providerId == offers[b].providerId) ==> a == b
  }

  /** The provider already has a PENDING offer on the task. */
  predicate HasPendingOfferFrom(offers: map<Id, Offer>, taskId: Id, providerId: Id)
  {
    exists o :: o in offers && offers[o].taskId == taskId && offers[o].providerId == providerId &&
      offers[o].status == OfferStatus.Pending
  }

  /** Every offer is on a stored task. */
  predicate OffersReferToTasks(tasks: map<Id, Task>, offers: map<Id, Offer>)
  {
    forall o :: o in offers ==> offers[o].taskId in tasks
  }

  /** The provider of an ACCEPTED offer is the provider assigned to its task. */
  predicate AcceptedOfferAssignsProvider(tasks: map<Id, Task>, offers: map<Id, Offer>)
  {
    forall o :: o in offers && offers[o].status == OfferStatus.Accepted ==>
      offers[o].taskId in tasks && tasks[offers[o].taskId].providerId == Some(offers[o].providerId)
  }

  /** A task has a provider only through an ACCEPTED offer. */
  predicate AssignedTaskHasAcceptedOffer(tasks: map<Id, Task>, offers: map<Id, Offer>)
  {
    forall t :: t in tasks && tasks[t].providerId.Some? ==> HasAcceptedOffer(offers, t)
  }

  /** An OPEN task has no provider. */
  predicate OpenTaskUnassigned(tasks: map<Id, Task>)
  {
    forall t :: t in tasks && tasks[t].status == TaskStatus.Open ==> tasks[t].providerId.None?
  }

  /** Every progress entry was logged by the provider assigned to its task. */
  predicate ProgressByAssignedProvider(tasks: map<Id, Task>, progress: map<Id, TaskProgress>)
  {
    forall p :: p in progress ==>
      progress[p].taskId in tasks && tasks[progress[p].taskId].providerId == Some(progress[p].providerId)
  }

  predicate MarketInvariant(tasks: map<Id, Task>, offers: map<Id, Offer>, progress: map<Id, TaskProgress>)
  {
    && AtMostOneAcceptedPerTask(offers)
    && OnePendingOfferPerProvider(offers)
    && OffersReferToTasks(tasks, offers)
    && AcceptedOfferAssignsProvider(tasks, offers)
    && AssignedTaskHasAcceptedOffer(tasks, offers)
    && OpenTaskUnassigned(tasks)
    && ProgressByAssignedProvider(tasks, progress)
  }

  /** The empty store satisfies the invariant. */
  lemma EmptyStoreIsConsistent()
    ensures MarketInvariant(map[], map[], map[])
  {
  }

  // ---- consequences -------------------------------------------------------

  /** A task without an ACCEPTED offer has no provider: a provider is assigned at most once. */
  lemma UnacceptedTaskIsUnassigned(tasks: map<Id, Task>, offers: map<Id, Offer>, progress: map<Id, TaskProgress>, t: Id)
    requires MarketInvariant(tasks, offers, progress)
    requires t in tasks && !HasAcceptedOffer(offers, t)
    ensures tasks[t].providerId.None?
  {
  }

  /** An OPEN task has no ACCEPTED offer. */
  lemma OpenTaskHasNoAcceptedOffer(tasks: map<Id, Task>, offers: map<Id, Offer>, progress: map<Id, TaskProgress>, t: Id)
    requires MarketInvariant(tasks, offers, progress)
    requires t in tasks && tasks[t].status == TaskStatus.Open
    ensures !HasAcceptedOffer(offers, t)
  {
  }

  /** An OPEN task has no progress entries. */
  lemma OpenTaskHasNoProgress(tasks: map<Id, Task>, offers: map<Id, Offer>, progress: map<Id, TaskProgress>, p: Id)
    requires MarketInvariant(tasks, offers, progress)
    requires p in progress
    ensures tasks[progress[p].taskId].status != TaskStatus.Open
  {
  }

  // ---- preservation, one lemma per kind of write ---------------------------

  /** Adding a fresh OPEN, unassigned task. */
  lemma AddTaskPreserves(tasks: map<Id, Task>, offers: map<Id, Offer>, progress: map<Id, TaskProgress>, task: Task)
    requires MarketInvariant(tasks, offers, progress)
    requires task.id !in tasks && task.status == TaskStatus.Open && task.providerId.None?
    ensures MarketInvariant(tasks[task.id := task], offers, progress)
  {
    var tasks' := tasks[task.id := task];
    forall t | t in tasks' && tasks'[t].providerId.Some?
      ensures HasAcceptedOffer(offers, t)
    {
      assert t in tasks;
    }
  }

  /** Rewriting a task's fields without touching its status or provider. */
  lemma EditTaskPreserves(tasks: map<Id, Task>, offers: map<Id, Offer>, progress: map<Id, TaskProgress>, t: Id, task: Task)
    requires MarketInvariant(tasks, offers, progress)
    requires t in tasks && task.status == tasks[t].status && task.providerId == tasks[t].providerId
    ensures MarketInvariant(tasks[t := task], offers, progress)
  {
    var tasks' := tasks[t := task];
    forall u | u in tasks' && tasks'[u].providerId.Some?
      ensures HasAcceptedOffer(offers, u)
    {
      assert tasks[u].providerId.Some?;
    }
  }

  /** Moving a task to any status other than OPEN, provider unchanged. */
  lemma RestatusPreserves(tasks: map<Id, Task>, offers: map<Id, Offer>, progress: map<Id, TaskProgress>, t: Id, status: TaskStatus)
    requires MarketInvariant(tasks, offers, progress)
    requires t in tasks && status != TaskStatus.Open
    ensures MarketInvariant(tasks[t := tasks[t].(status := status)], offers, progress)
  {
    var tasks' := tasks[t := tasks[t].(status := status)];
    forall u | u in tasks' && tasks'[u].providerId.Some?
      ensures HasAcceptedOffer(offers, u)
    {
      assert tasks[u].providerId.Some?;
    }
  }

  /** Appending a progress entry by the task's assigned provider under a fresh id. */
  lemma AddProgressPreserves(tasks: map<Id, Task>, offers: map<Id, Offer>, progress: map<Id, TaskProgress>, entry: TaskProgress)
    requires MarketInvariant(tasks, offers, progress)
    requires entry.taskId in tasks && tasks[entry.taskId].providerId == Some(entry.providerId)
    ensures MarketInvariant(tasks, offers, progress[entry.id := entry])
  {
  }

  /** Adding a fresh PENDING offer on a stored task, from a provider with no PENDING offer on it. */
  lemma AddOfferPreserves(tasks: map<Id, Task>, offers: map<Id, Offer>, progress: map<Id, TaskProgress>, offer: Offer)
    requires MarketInvariant(tasks, offers, progress)
    requires offer.id !in offers && offer.taskId in tasks && offer.status == OfferStatus.Pending
    requires !HasPendingOfferFrom(offers, offer.taskId, offer.providerId)
    ensures MarketInvariant(tasks, offers[offer.id := offer], progress)
  {
    var offers' := offers[offer.id := offer];
    forall t | t in tasks && tasks[t].providerId.Some?
      ensures HasAcceptedOffer(offers', t)
    {
      var o :| o in offers && offers[o].taskId == t && offers[o].status == OfferStatus.Accepted;
      assert o in offers' && offers'[o] == offers[o];
    }
  }

  /** Rejecting a PENDING offer. */
  lemma RejectOfferPreserves(tasks: map<Id, Task>, offers: map<Id, Offer>, progress: map<Id, TaskProgress>, id: Id)
    requires MarketInvariant(tasks, offers, progress)
    requires id in offers && offers[id].status == OfferStatus.Pending
    ensures MarketInvariant(tasks, offers[id := offers[id].(status := OfferStatus.Rejected)], progress)
  {
    var offers' := offers[id := offers[id].(status := OfferStatus.Rejected)];
    forall t | t in tasks && tasks[t].providerId.Some?
      ensures HasAcceptedOffer(offers', t)
    {
      var o :| o in offers && offers[o].taskId == t && offers[o].status == OfferStatus.Accepted;
      assert o != id && offers'[o] == offers[o];
    }
  }

  /**
   * Accepting a PENDING offer on a task that has no ACCEPTED offer, and
   * assigning its provider to the task with status ACCEPTED.
   */
  lemma AcceptOfferPreserves(tasks: map<Id, Task>, offers: map<Id, Offer>, progress: map<Id, TaskProgress>, id: Id)
    requires MarketInvariant(tasks, offers, progress)
    requires id in offers && offers[id].status == OfferStatus.Pending
    requires !HasAcceptedOffer(offers, offers[id].taskId)
    ensures
      var offer := offers[id];
      MarketInvariant(
        tasks[offer.taskId := tasks[offer.taskId].(status := TaskStatus.Accepted, providerId := Some(offer.providerId))],
        offers[id := offer.(status := OfferStatus.Accepted)],
        progress)
  {
    var offer := offers[id];
    var t := offer.taskId;
    var tasks' := tasks[t := tasks[t].(status := TaskStatus.Accepted, providerId := Some(offer.providerId))];
    var offers' := offers[id := offer.(status := OfferStatus.Accepted)];
    UnacceptedTaskIsUnassigned(tasks, offers, progress, t);
    forall u | u in tasks' && tasks'[u].providerId.Some?
      ensures HasAcceptedOffer(offers', u)
    {
      if u == t {
        assert offers'[id].taskId == u && offers'[id].status == OfferStatus.Accepted;
      } else {
        var o :| o in offers && offers[o].taskId == u && offers[o].status == OfferStatus.Accepted;
        assert o != id && offers'[o] == offers[o];
      }
    }
    forall p | p in progress
      ensures progress[p].taskId != t
    {
      assert tasks[progress[p].taskId].providerId.Some?;
    }
  }
}
