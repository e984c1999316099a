/** The selection step of the statistics dump: which offers of the snapshot
    become statistics records. */
module Statistics {
  import opened OfferTypes
  import Snapshot

  /** The reduced, lossy record the dump writes for one offer. */
  datatype OfferForJson = OfferForJson(
    direction: Direction,
    currencyCode: Text,
    minAmount: int,
    amount: int,
    price: int,
    date: int,
    id: Text,
    useMarketBasedPrice: bool,
    marketPriceMargin: int,
    paymentMethod: Text)

  /** Building the record for an offer; `None` where the source's
      constructor call throws because the offer's values are missing. */
  function ToJson(o: Offer): (r: Option<OfferForJson>)
    ensures r.Some? <==> o.payload.terms.Some?
    ensures r.Some? ==>
              && r.value.id == o.payload.id
              && r.value.currencyCode == o.payload.currencyCode
              && r.value.useMarketBasedPrice == o.payload.useMarketBasedPrice
  {
    match o.payload.terms
    case None => None
    case Some(t) =>
      Some(OfferForJson(t.direction, o.payload.currencyCode, t.minAmount, t.amount, t.price,
                        t.date, o.payload.id, o.payload.useMarketBasedPrice,
                        t.marketPriceMargin, t.paymentMethod))
  }

  /** The price filter: a fixed-price offer always passes; a market-based one
      only when the price feed has a market price for its currency.
      `marketPrices` is the set of currency codes the feed has a price for. */
  predicate HasUsablePrice(o: Offer, marketPrices: set<Text>)
  {
    !o.payload.useMarketBasedPrice || o.payload.currencyCode in marketPrices
  }

  /** An offer survives the dump when it passes the price filter and its
      record can be built. */
  predicate Survives(o: Offer, marketPrices: set<Text>)
  {
    HasUsablePrice(o, marketPrices) && ToJson(o).Some?
  }

  /** filter(price) . map(ToJson, dropping failures) over `offers`. */
  function SelectStatistics(offers: seq<Offer>, marketPrices: set<Text>): (r: seq<OfferForJson>)
    ensures |r| <= |offers|
    ensures forall x :: x in r ==> exists o :: o in offers && Survives(o, marketPrices) && ToJson(o) == Some(x)
    ensures forall o :: o in offers && Survives(o, marketPrices) ==> ToJson(o).value in r
  {
    if offers == [] then []
    else
      var rest := SelectStatistics(offers[1..], marketPrices);
      assert forall o :: o in offers[1..] ==> o in offers;
      if Survives(offers[0], marketPrices) then [ToJson(offers[0]).value] + rest else rest
  }

  /** The selection keeps relative order: selecting from a concatenation is
      concatenating the selections. */
  lemma {:induction false} SelectStatisticsAppend(a: seq<Offer>, b: seq<Offer>, marketPrices: set<Text>)
    ensures SelectStatistics(a + b, marketPrices) == SelectStatistics(a, marketPrices) + SelectStatistics(b, marketPrices)
  {
    if a == [] {
      assert a + b == b;
    } else {
      assert (a + b)[1..] == a[1..] + b;
      SelectStatisticsAppend(a[1..], b, marketPrices);
    }
  }

  /** doDumpStatistics' list: the selection applied to the current snapshot.
      A record is in it exactly when some stored offer payload survives and
      projects to that record. */
  function DumpStatistics(entries: seq<ProtectedStorageEntry>, marketPrices: set<Text>): (r: seq<OfferForJson>)
    ensures |r| <= Snapshot.CountOfferEntries(entries)
    ensures forall x :: x in r <==> exists p :: SurvivingStoredOffer(entries, marketPrices, p, x)
  {
    var offers := Snapshot.GetOffers(entries);
    var r := SelectStatistics(offers, marketPrices);
    forall x | x in r
      ensures exists p :: SurvivingStoredOffer(entries, marketPrices, p, x)
    {
      var o :| o in offers && Survives(o, marketPrices) && ToJson(o) == Some(x);
      var k :| 0 <= k < |offers| && offers[k] == o;
      assert SurvivingStoredOffer(entries, marketPrices, o.payload, x);
    }
    forall x, p | SurvivingStoredOffer(entries, marketPrices, p, x)
      ensures x in r
    {
      var e := ProtectedStorageEntry(OfferVariant(p));
      assert IsOfferEntry(e) && e.payload.offer == p;
      assert Offer(p) in offers;
    }
    r
  }

  /** `p` is an offer payload held in `entries` whose offer survives the dump
      and projects to `x`. */
  predicate SurvivingStoredOffer(entries: seq<ProtectedStorageEntry>, marketPrices: set<Text>,
                                 p: OfferPayloadBase, x: OfferForJson)
  {
    && ProtectedStorageEntry(OfferVariant(p)) in entries
    && Survives(Offer(p), marketPrices)
    && ToJson(Offer(p)) == Some(x)
  }
}
