/** Concrete scenarios of the model: a snapshot, a statistics selection, and two
    sessions of the service seen from a client. */
module Scenarios {
  import opened OfferTypes
  import Snapshot
  import Statistics
  import opened ChangeBridge
  import opened OfferBook

  function FixedOffer(id: Text, terms: Option<Terms>): (p: OfferPayloadBase)
  {
    OfferPayloadBase(id, "EUR", false, terms)
  }

  const SomeTerms: Terms := Terms(Buy, 1, 2, 3, 4, 0, "SEPA")

  /** Two offer entries and one other entry: the snapshot holds exactly
      the two offers, in store order. */
  lemma SnapshotOfTwoOffers()
    ensures var id1, id2 := FixedOffer("id1", Some(SomeTerms)), FixedOffer("id2", Some(SomeTerms));
            var entries := [ProtectedStorageEntry(OfferVariant(id1)),
                            ProtectedStorageEntry(OtherVariant("trade statistics")),
                            ProtectedStorageEntry(OfferVariant(id2))];
            Snapshot.GetOffers(entries) == [Offer(id1), Offer(id2)]
  {
  }

  /** A fixed-price offer, a market-based offer whose currency has no market
      price, a market-based offer whose currency has one, and a corrupted
      offer: only the first and the third are dumped. */
  lemma StatisticsOfFourOffers()
    ensures var a := Offer(OfferPayloadBase("A", "EUR", false, Some(SomeTerms)));
            var b := Offer(OfferPayloadBase("B", "USD", true, Some(SomeTerms)));
            var c := Offer(OfferPayloadBase("C", "EUR", true, Some(SomeTerms)));
            var d := Offer(OfferPayloadBase("D", "EUR", false, None));
            Statistics.SelectStatistics([a, b, c, d], {"EUR"}) == [Statistics.ToJson(a).value, Statistics.ToJson(c).value]
  {
    var a := Offer(OfferPayloadBase("A", "EUR", false, Some(SomeTerms)));
    var b := Offer(OfferPayloadBase("B", "USD", true, Some(SomeTerms)));
    var c := Offer(OfferPayloadBase("C", "EUR", true, Some(SomeTerms)));
    var d := Offer(OfferPayloadBase("D", "EUR", false, None));
    var prices: set<Text> := {"EUR"};
    assert "USD"[0] != "EUR"[0];
    assert [d][1..] == [];
    assert Statistics.SelectStatistics([d], prices) == [];
    assert [c, d][1..] == [d];
    assert Statistics.SelectStatistics([c, d], prices) == [Statistics.ToJson(c).value];
    assert [b, c, d][1..] == [c, d];
    assert Statistics.SelectStatistics([b, c, d], prices) == [Statistics.ToJson(c).value];
    assert [a, b, c, d][1..] == [b, c, d];
  }

  /** One subscriber, then a batch with a single offer entry: the subscriber
      gets onAdded exactly once, with an offer wrapping that payload. */
  method OneSubscriberOneOffer(p: OfferPayloadBase) returns (delivered: seq<Notification>)
    ensures delivered == [Notification(Subscriber(1), Added, Offer(p))]
  {
    var service := new OfferBookService(false);
    service.AddOfferBookChangedListener(Subscriber(1));
    service.OnAdded([ProtectedStorageEntry(OfferVariant(p))]);
    assert [ProtectedStorageEntry(OfferVariant(p))][1..] == [];
    delivered := service.notifications;
  }

  /** With the dump flag set, the bootstrap event arms exactly one dump
      listener and one delayed dump; afterwards every offer entry of an added
      batch runs one dump (one call of the dump listener), and other entries
      run none. */
  method DumpAfterBootstrap(batch: seq<ProtectedStorageEntry>) returns (dumpRuns: nat, delayedDumps: nat)
    ensures dumpRuns == Snapshot.CountOfferEntries(batch)
    ensures delayedDumps == 1
  {
    var service := new OfferBookService(true);
    service.OnUpdatedDataReceived();
    assert service.listeners == [StatisticsDumpListener];
    service.OnAdded(batch);
    FanOutLength(batch, [StatisticsDumpListener], Added);
    var n := Snapshot.CountOfferEntries(batch);
    assert n * |[StatisticsDumpListener]| == n;
    dumpRuns, delayedDumps := |service.notifications|, service.scheduledDumps;
  }
}
