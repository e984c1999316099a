/** The values the offer book works with: what the replicated store holds,
    the domain offer built around an offer payload, and the reduced record
    the statistics dump writes. All of them are read-only to the offer book. */
module OfferTypes {

  type Text = seq<char>

  datatype Option<+T> = None | Some(value: T)

  datatype Direction = Buy | Sell

  /** The economic fields a statistics record copies out of an offer.
      Prices, amounts and margins are opaque numbers here: no arithmetic is
      done on them. */
  datatype Terms = Terms(
    direction: Direction,
    minAmount: int,
    amount: int,
    price: int,
    date: int,
    marketPriceMargin: int,
    paymentMethod: Text)

  /** The offer variant of a stored payload. `terms` is `None` for an offer
      whose getters fail (a corrupted offer with missing values). */
  datatype OfferPayloadBase = OfferPayloadBase(
    id: Text,
    currencyCode: Text,
    useMarketBasedPrice: bool,
    terms: Option<Terms>)

  /** A stored payload is either an offer or some other protocol data. */
  datatype StoragePayload =
    | OfferVariant(offer: OfferPayloadBase)
    | OtherVariant(kind: Text)

  /** An entry of the replicated store, wrapping its payload. */
  datatype ProtectedStorageEntry = ProtectedStorageEntry(payload: StoragePayload)

  /** The domain offer: a fresh wrapper around an offer payload (the price
      feed bound into it is the same for every offer and is not modelled). */
  datatype Offer = Offer(payload: OfferPayloadBase)

  /** The payload-variant test: the entry holds an offer payload. */
  predicate IsOfferEntry(e: ProtectedStorageEntry)
  {
    e.payload.OfferVariant?
  }
}
