/** The mutation gateway's observable behaviour: which store calls and which
    handler calls one gateway operation makes, as a function of the
    eligibility gate and of what the store answers. */
module Gateway {
  import opened OfferTypes

  /** The identity of a handler object a caller passes in. */
  type HandlerId = nat

  /** An error message: a localisation key (resolved elsewhere) or a fixed
      English text. */
  datatype Message = Localized(key: Text) | Plain(text: Text)

  const MandatoryUpdateTrading: Message := Localized("popup.warning.mandatoryUpdate.trading")
  const AddOfferFailed: Message := Plain("Add offer failed")
  const RefreshTtlFailed: Message := Plain("Refresh TTL failed.")
  const RemoveOfferFailed: Message := Plain("Remove offer failed")

  /** A call of the replicated store. */
  datatype StoreCall =
    | AddProtectedStorageEntry(payload: OfferPayloadBase)
    | RefreshTtl(payload: OfferPayloadBase)
    | RemoveData(payload: OfferPayloadBase)

  /** A call of a caller's handler: `handleResult()` or
      `handleErrorMessage(message)`. */
  datatype Callback =
    | HandleResult(handler: HandlerId)
    | HandleErrorMessage(handler: HandlerId, message: Message)

  /** The store calls and the handler calls of one operation, in order. */
  datatype Outcome = Outcome(storeCalls: seq<StoreCall>, callbacks: seq<Callback>)

  /** The shape shared by addOffer and refreshTTL: gate first, then one store
      call whose answer picks the handler. */
  function GatedStoreCall(call: StoreCall, failure: Message, resultHandler: HandlerId, errorHandler: HandlerId,
                          updateRequired: bool, accepted: bool): (r: Outcome)
    ensures r.storeCalls == if updateRequired then [] else [call]
    ensures |r.callbacks| == 1
    ensures r.callbacks[0].HandleResult? <==> !updateRequired && accepted
    ensures r.callbacks[0].HandleResult? ==> r.callbacks[0].handler == resultHandler
    ensures r.callbacks[0].HandleErrorMessage? ==>
              && r.callbacks[0].handler == errorHandler
              && r.callbacks[0].message == if updateRequired then MandatoryUpdateTrading else failure
  {
    if updateRequired then Outcome([], [HandleErrorMessage(errorHandler, MandatoryUpdateTrading)])
    else if accepted then Outcome([call], [HandleResult(resultHandler)])
    else Outcome([call], [HandleErrorMessage(errorHandler, failure)])
  }

  /** addOffer: a closed gate reports the mandatory-update message and never
      reaches the store; otherwise exactly one add of the offer's payload,
      then exactly one of the two handlers: success iff the store accepted. */
  function AddOfferOutcome(offer: Offer, resultHandler: HandlerId, errorHandler: HandlerId,
                           updateRequired: bool, accepted: bool): (r: Outcome)
    ensures r.storeCalls == if updateRequired then [] else [AddProtectedStorageEntry(offer.payload)]
    ensures |r.callbacks| == 1
    ensures r.callbacks[0].HandleResult? <==> !updateRequired && accepted
    ensures r.callbacks[0].HandleResult? ==> r.callbacks[0].handler == resultHandler
    ensures r.callbacks[0].HandleErrorMessage? ==>
              && r.callbacks[0].handler == errorHandler
              && r.callbacks[0].message == if updateRequired then MandatoryUpdateTrading else AddOfferFailed
  {
    GatedStoreCall(AddProtectedStorageEntry(offer.payload), AddOfferFailed, resultHandler, errorHandler,
                   updateRequired, accepted)
  }

  /** refreshTTL: the same gate and the same handler discipline around one
      TTL refresh of the payload. */
  function RefreshTtlOutcome(payload: OfferPayloadBase, resultHandler: HandlerId, errorHandler: HandlerId,
                             updateRequired: bool, refreshed: bool): (r: Outcome)
    ensures r.storeCalls == if updateRequired then [] else [RefreshTtl(payload)]
    ensures |r.callbacks| == 1
    ensures r.callbacks[0].HandleResult? <==> !updateRequired && refreshed
    ensures r.callbacks[0].HandleResult? ==> r.callbacks[0].handler == resultHandler
    ensures r.callbacks[0].HandleErrorMessage? ==>
              && r.callbacks[0].handler == errorHandler
              && r.callbacks[0].message == if updateRequired then MandatoryUpdateTrading else RefreshTtlFailed
  {
    GatedStoreCall(RefreshTtl(payload), RefreshTtlFailed, resultHandler, errorHandler, updateRequired, refreshed)
  }

  /** removeOffer: no gate, exactly one remove, and at most one handler call:
      the success handler if the store removed the payload, the error
      handler otherwise, and none when that handler is absent. */
  function RemoveOfferOutcome(payload: OfferPayloadBase, resultHandler: Option<HandlerId>,
                              errorHandler: Option<HandlerId>, removed: bool): (r: Outcome)
    ensures r.storeCalls == [RemoveData(payload)]
    ensures |r.callbacks| <= 1
    ensures r.callbacks == [] <==> (if removed then resultHandler.None? else errorHandler.None?)
    ensures forall c :: c in r.callbacks ==>
              if removed then resultHandler.Some? && c == HandleResult(resultHandler.value)
              else errorHandler.Some? && c == HandleErrorMessage(errorHandler.value, RemoveOfferFailed)
  {
    var callbacks :=
      if removed then
        (match resultHandler case Some(h) => [HandleResult(h)] case None => [])
      else
        (match errorHandler case Some(h) => [HandleErrorMessage(h, RemoveOfferFailed)] case None => []);
    Outcome([RemoveData(payload)], callbacks)
  }

  /** The two failure kinds reach the error handler with distinct messages:
      a gate rejection is never mistaken for a failed store call. */
  lemma GateRejectionIsDistinguishable(offer: Offer, payload: OfferPayloadBase, resultHandler: HandlerId,
                                       errorHandler: HandlerId, answer: bool)
    ensures AddOfferOutcome(offer, resultHandler, errorHandler, true, answer).callbacks
            != AddOfferOutcome(offer, resultHandler, errorHandler, false, false).callbacks
    ensures RefreshTtlOutcome(payload, resultHandler, errorHandler, true, answer).callbacks
            != RefreshTtlOutcome(payload, resultHandler, errorHandler, false, false).callbacks
  {
  }
}
