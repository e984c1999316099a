/** The offer book service itself: the listener registry it appends to, the
    handlers of the store's change stream, the bootstrap hook of the
    statistics dump, and the mutation gateway. Everything the service does to
    the outside is recorded in logs: the notifications it delivers, the store
    calls it makes and the handler calls it makes. */
module OfferBook {
  import opened OfferTypes
  import opened ChangeBridge
  import opened Gateway

  class OfferBookService {
    /** The dumpStatistics configuration flag given at construction. */
    const dumpStatistics: bool
    /** offerBookChangedListeners: append-only, in registration order. */
    var listeners: seq<OfferBookChangedListener>
    /** Every listener call made so far, in order. */
    var notifications: seq<Notification>
    /** Every call made to the replicated store so far, in order. */
    var storeCalls: seq<StoreCall>
    /** Every handler call made so far, in order. */
    var callbacks: seq<Callback>
    /** How many delayed one-off dumps have been handed to the scheduler. */
    var scheduledDumps: nat

    constructor (dumpStatistics: bool)
      ensures this.dumpStatistics == dumpStatistics
      ensures listeners == [] && notifications == []
      ensures storeCalls == [] && callbacks == [] && scheduledDumps == 0
    {
      this.dumpStatistics := dumpStatistics;
      listeners, notifications := [], [];
      storeCalls, callbacks := [], [];
      scheduledDumps := 0;
    }

    /** addOfferBookChangedListener: append to the registry; nothing else
        changes. */
    method AddOfferBookChangedListener(listener: OfferBookChangedListener)
      modifies this`listeners
      ensures listeners == old(listeners) + [listener]
    {
      listeners := listeners + [listener];
    }

    /** The store's onAdded callback for a batch of added entries. */
    method OnAdded(batch: seq<ProtectedStorageEntry>)
      modifies this`notifications
      ensures notifications == old(notifications) + FanOut(batch, listeners, Added)
      ensures listeners == old(listeners) && storeCalls == old(storeCalls) && callbacks == old(callbacks)
    {
      Dispatch(batch, Added);
    }

    /** The store's onRemoved callback for a batch of removed entries. */
    method OnRemoved(batch: seq<ProtectedStorageEntry>)
      modifies this`notifications
      ensures notifications == old(notifications) + FanOut(batch, listeners, Removed)
      ensures listeners == old(listeners) && storeCalls == old(storeCalls) && callbacks == old(callbacks)
    {
      Dispatch(batch, Removed);
    }

    /** The outer loop of both change handlers: the entries of the batch in
        order. The registry, the store-call log and the handler log are
        untouched (the frame allows only `notifications`). */
    method Dispatch(batch: seq<ProtectedStorageEntry>, kind: ChangeKind)
      modifies this`notifications
      ensures notifications == old(notifications) + FanOut(batch, listeners, kind)
    {
      ghost var start := notifications;
      var i := 0;
      while i < |batch|
        invariant 0 <= i <= |batch|
        invariant listeners == old(listeners)
        invariant notifications == start + FanOut(batch[..i], listeners, kind)
      {
        NotifyListeners(batch[i], kind);
        FanOutPrefixStep(batch, i, listeners, kind);
        i := i + 1;
      }
      assert batch[..i] == batch;
    }

    /** The inner loop: every listener in registry order, each handed a
        fresh Offer wrapping the entry's payload when that payload is an
        offer; nothing for any other payload. */
    method NotifyListeners(entry: ProtectedStorageEntry, kind: ChangeKind)
      modifies this`notifications
      ensures notifications == old(notifications) + EntryFanOut(entry, listeners, kind)
    {
      var j := 0;
      while j < |listeners|
        invariant 0 <= j <= |listeners|
        invariant notifications == old(notifications) + EntryFanOut(entry, listeners[..j], kind)
      {
        if IsOfferEntry(entry) {
          var offer := Offer(entry.payload.offer);
          notifications := notifications + [Notification(listeners[j], kind, offer)];
          assert Broadcast(offer, listeners[..j + 1], kind)
              == Broadcast(offer, listeners[..j], kind) + [Notification(listeners[j], kind, offer)];
        }
        j := j + 1;
      }
      assert listeners[..j] == listeners;
    }

    /** The store's bootstrap event (onUpdatedDataReceived). Only when the
        dump flag was set did the constructor register for it: then it adds
        exactly one listener, the dump listener, and asks the scheduler for
        one extra delayed dump. */
    method OnUpdatedDataReceived()
      modifies this`listeners, this`scheduledDumps
      ensures listeners == old(listeners) + (if dumpStatistics then [StatisticsDumpListener] else [])
      ensures scheduledDumps == old(scheduledDumps) + (if dumpStatistics then 1 else 0)
    {
      if dumpStatistics {
        AddOfferBookChangedListener(StatisticsDumpListener);
        scheduledDumps := scheduledDumps + 1;
      }
    }

    /** One call of the replicated store; `answer` is what the store returns. */
    method CallStore(call: StoreCall, answer: bool) returns (result: bool)
      modifies this`storeCalls
      ensures storeCalls == old(storeCalls) + [call]
      ensures result == answer
    {
      storeCalls := storeCalls + [call];
      result := answer;
    }

    /** addOffer. `updateRequired` is the filter's
        requireUpdateToNewVersionForTrading(); `accepted` is what the store's
        add returns if it is called. */
    method AddOffer(offer: Offer, resultHandler: HandlerId, errorHandler: HandlerId,
                    updateRequired: bool, accepted: bool)
      modifies this`storeCalls, this`callbacks
      ensures storeCalls == old(storeCalls) + AddOfferOutcome(offer, resultHandler, errorHandler, updateRequired, accepted).storeCalls
      ensures callbacks == old(callbacks) + AddOfferOutcome(offer, resultHandler, errorHandler, updateRequired, accepted).callbacks
    {
      if updateRequired {
        callbacks := callbacks + [HandleErrorMessage(errorHandler, MandatoryUpdateTrading)];
        return;
      }
      var result := CallStore(AddProtectedStorageEntry(offer.payload), accepted);
      if result {
        callbacks := callbacks + [HandleResult(resultHandler)];
      } else {
        callbacks := callbacks + [HandleErrorMessage(errorHandler, AddOfferFailed)];
      }
    }

    /** refreshTTL, gated like addOffer; `refreshed` is the store's answer. */
    method RefreshTTL(payload: OfferPayloadBase, resultHandler: HandlerId, errorHandler: HandlerId,
                      updateRequired: bool, refreshed: bool)
      modifies this`storeCalls, this`callbacks
      ensures storeCalls == old(storeCalls) + RefreshTtlOutcome(payload, resultHandler, errorHandler, updateRequired, refreshed).storeCalls
      ensures callbacks == old(callbacks) + RefreshTtlOutcome(payload, resultHandler, errorHandler, updateRequired, refreshed).callbacks
    {
      if updateRequired {
        callbacks := callbacks + [HandleErrorMessage(errorHandler, MandatoryUpdateTrading)];
        return;
      }
      var result := CallStore(RefreshTtl(payload), refreshed);
      if result {
        callbacks := callbacks + [HandleResult(resultHandler)];
      } else {
        callbacks := callbacks + [HandleErrorMessage(errorHandler, RefreshTtlFailed)];
      }
    }

    /** activateOffer: the same observable effect as addOffer. */
    method ActivateOffer(offer: Offer, resultHandler: HandlerId, errorHandler: HandlerId,
                         updateRequired: bool, accepted: bool)
      modifies this`storeCalls, this`callbacks
      ensures storeCalls == old(storeCalls) + AddOfferOutcome(offer, resultHandler, errorHandler, updateRequired, accepted).storeCalls
      ensures callbacks == old(callbacks) + AddOfferOutcome(offer, resultHandler, errorHandler, updateRequired, accepted).callbacks
    {
      AddOffer(offer, resultHandler, errorHandler, updateRequired, accepted);
    }

    /** removeOffer: ungated; either handler may be absent. `removed` is
        what the store's remove returns. */
    method RemoveOffer(payload: OfferPayloadBase, resultHandler: Option<HandlerId>,
                       errorHandler: Option<HandlerId>, removed: bool)
      modifies this`storeCalls, this`callbacks
      ensures storeCalls == old(storeCalls) + RemoveOfferOutcome(payload, resultHandler, errorHandler, removed).storeCalls
      ensures callbacks == old(callbacks) + RemoveOfferOutcome(payload, resultHandler, errorHandler, removed).callbacks
    {
      var result := CallStore(RemoveData(payload), removed);
      if result {
        if resultHandler.Some? {
          callbacks := callbacks + [HandleResult(resultHandler.value)];
        }
      } else {
        if errorHandler.Some? {
          callbacks := callbacks + [HandleErrorMessage(errorHandler.value, RemoveOfferFailed)];
        }
      }
    }

    /** deactivateOffer: the same observable effect as removeOffer. */
    method DeactivateOffer(payload: OfferPayloadBase, resultHandler: Option<HandlerId>,
                           errorHandler: Option<HandlerId>, removed: bool)
      modifies this`storeCalls, this`callbacks
      ensures storeCalls == old(storeCalls) + RemoveOfferOutcome(payload, resultHandler, errorHandler, removed).storeCalls
      ensures callbacks == old(callbacks) + RemoveOfferOutcome(payload, resultHandler, errorHandler, removed).callbacks
    {
      RemoveOffer(payload, resultHandler, errorHandler, removed);
    }

    /** removeOfferAtShutDown: removeOffer without handlers, so one remove
        and no handler call whatever the store answers. */
    method RemoveOfferAtShutDown(payload: OfferPayloadBase, removed: bool)
      modifies this`storeCalls, this`callbacks
      ensures storeCalls == old(storeCalls) + [RemoveData(payload)]
      ensures callbacks == old(callbacks)
    {
      RemoveOffer(payload, None, None, removed);
    }
  }
}
