/** The change-listener bridge: how a batch of added or removed store entries
    turns into notifications of the registered offer-book listeners. */
module ChangeBridge {
  import opened OfferTypes
  import Snapshot

  /** A registered listener: an application subscriber, or the listener the
      statistics dump registers (whose handlers each run a dump). */
  datatype OfferBookChangedListener =
    | Subscriber(id: nat)
    | StatisticsDumpListener

  datatype ChangeKind = Added | Removed

  /** One call of `onAdded(offer)` (kind Added) or `onRemoved(offer)` (kind
      Removed) on a listener. */
  datatype Notification = Notification(listener: OfferBookChangedListener, kind: ChangeKind, offer: Offer)

  /** The inner loop for one entry: every listener in registry order, each
      handed a fresh Offer wrapping the entry's payload; nothing for an entry
      that is not an offer. */
  function EntryFanOut(e: ProtectedStorageEntry, listeners: seq<OfferBookChangedListener>, kind: ChangeKind): (r: seq<Notification>)
    ensures |r| == if IsOfferEntry(e) then |listeners| else 0
  {
    if IsOfferEntry(e) then Broadcast(Offer(e.payload.offer), listeners, kind) else []
  }

  /** One offer handed to every listener, in registry order. */
  function Broadcast(offer: Offer, listeners: seq<OfferBookChangedListener>, kind: ChangeKind): (r: seq<Notification>)
  {
    seq(|listeners|, j requires 0 <= j < |listeners| => Notification(listeners[j], kind, offer))
  }

  /** The notifications a batch produces: entry-outer, listener-inner. */
  function FanOut(batch: seq<ProtectedStorageEntry>, listeners: seq<OfferBookChangedListener>, kind: ChangeKind): (r: seq<Notification>)
  {
    if batch == [] then [] else EntryFanOut(batch[0], listeners, kind) + FanOut(batch[1..], listeners, kind)
  }

  /** The distributivity step that FanOutLength and FanOutExactlyOnce use
      when one more entry adds a row of `m` notifications. */
  lemma OneMoreRow(c: nat, m: nat)
    ensures (1 + c) * m == m + c * m
  {
  }

  /** One notification per (offer entry, listener) pair. */
  lemma {:induction false} FanOutLength(batch: seq<ProtectedStorageEntry>, listeners: seq<OfferBookChangedListener>, kind: ChangeKind)
    ensures |FanOut(batch, listeners, kind)| == Snapshot.CountOfferEntries(batch) * |listeners|
  {
    if batch != [] {
      FanOutLength(batch[1..], listeners, kind);
      var c, n := Snapshot.CountOfferEntries(batch[1..]), |listeners|;
      if IsOfferEntry(batch[0]) {
        OneMoreRow(c, n);
      }
    }
  }

  /** Nothing is said about any entry that is not an offer: every
      notification is of the batch's kind, addressed to a registered
      listener, and wraps an offer payload of the batch. */
  lemma {:induction false} FanOutOnlyOffers(batch: seq<ProtectedStorageEntry>, listeners: seq<OfferBookChangedListener>, kind: ChangeKind)
    ensures forall n :: n in FanOut(batch, listeners, kind) ==>
              && n.listener in listeners
              && n.kind == kind
              && ProtectedStorageEntry(OfferVariant(n.offer.payload)) in batch
  {
    if batch != [] {
      FanOutOnlyOffers(batch[1..], listeners, kind);
      assert forall e :: e in batch[1..] ==> e in batch;
    }
  }

  /** Entries of a batch are handled independently and in order. */
  lemma {:induction false} FanOutAppend(a: seq<ProtectedStorageEntry>, b: seq<ProtectedStorageEntry>,
                                        listeners: seq<OfferBookChangedListener>, kind: ChangeKind)
    ensures FanOut(a + b, listeners, kind) == FanOut(a, listeners, kind) + FanOut(b, listeners, kind)
  {
    if a == [] {
      assert a + b == b;
    } else {
      assert (a + b)[1..] == a[1..] + b;
      FanOutAppend(a[1..], b, listeners, kind);
    }
  }

  /** Growing a batch by one entry grows its fan-out by that entry's
      notifications. */
  lemma FanOutSnoc(batch: seq<ProtectedStorageEntry>, e: ProtectedStorageEntry,
                   listeners: seq<OfferBookChangedListener>, kind: ChangeKind)
    ensures FanOut(batch + [e], listeners, kind) == FanOut(batch, listeners, kind) + EntryFanOut(e, listeners, kind)
  {
    FanOutAppend(batch, [e], listeners, kind);
    assert [e][1..] == [];
  }

  /** Extending a prefix of a batch by its next entry adds that entry's
      notifications. */
  lemma FanOutPrefixStep(batch: seq<ProtectedStorageEntry>, i: nat, listeners: seq<OfferBookChangedListener>, kind: ChangeKind)
    requires i < |batch|
    ensures FanOut(batch[..i + 1], listeners, kind) == FanOut(batch[..i], listeners, kind) + EntryFanOut(batch[i], listeners, kind)
  {
    assert batch[..i + 1] == batch[..i] + [batch[i]];
    FanOutSnoc(batch[..i], batch[i], listeners, kind);
  }

  /** An independent statement of the fan-out, driven by the offers alone:
      for each offer in turn, every listener in registry order. */
  function PerOffer(offers: seq<Offer>, listeners: seq<OfferBookChangedListener>, kind: ChangeKind): (r: seq<Notification>)
    ensures |r| == |offers| * |listeners|
  {
    if offers == [] then [] else Broadcast(offers[0], listeners, kind) + PerOffer(offers[1..], listeners, kind)
  }

  /** The fan-out of a batch is exactly: for each offer the snapshot of that
      batch would show, in order, one notification of every listener in
      registry order; non-offer entries leave no trace. */
  lemma {:induction false} FanOutOrder(batch: seq<ProtectedStorageEntry>, listeners: seq<OfferBookChangedListener>, kind: ChangeKind)
    ensures FanOut(batch, listeners, kind) == PerOffer(Snapshot.GetOffers(batch), listeners, kind)
  {
    if batch != [] {
      FanOutOrder(batch[1..], listeners, kind);
      var offers := Snapshot.GetOffers(batch);
      if IsOfferEntry(batch[0]) {
        assert offers[1..] == Snapshot.GetOffers(batch[1..]);
      } else {
        assert offers == Snapshot.GetOffers(batch[1..]);
      }
    }
  }

  /** PerOffer handles offers independently and in order. */
  lemma {:induction false} PerOfferAppend(a: seq<Offer>, b: seq<Offer>, listeners: seq<OfferBookChangedListener>, kind: ChangeKind)
    ensures PerOffer(a + b, listeners, kind) == PerOffer(a, listeners, kind) + PerOffer(b, listeners, kind)
  {
    if a == [] {
      assert a + b == b;
    } else {
      assert (a + b)[1..] == a[1..] + b;
      PerOfferAppend(a[1..], b, listeners, kind);
    }
  }

  /** Block `i` of the notifications belongs to the `i`-th offer and
      notifies every listener of it once, in registry order; the blocks
      before it belong to the offers before it. */
  lemma PerOfferBlock(offers: seq<Offer>, listeners: seq<OfferBookChangedListener>, kind: ChangeKind, i: nat)
    requires i < |offers|
    ensures PerOffer(offers, listeners, kind)
            == PerOffer(offers[..i], listeners, kind) + Broadcast(offers[i], listeners, kind)
               + PerOffer(offers[i + 1..], listeners, kind)
  {
    assert offers == offers[..i] + ([offers[i]] + offers[i + 1..]);
    PerOfferAppend(offers[..i], [offers[i]] + offers[i + 1..], listeners, kind);
    assert ([offers[i]] + offers[i + 1..])[1..] == offers[i + 1..];
  }

  /** Broadcasting grows by one notification per added listener. */
  lemma BroadcastSnoc(offer: Offer, listeners: seq<OfferBookChangedListener>, kind: ChangeKind)
    requires listeners != []
    ensures Broadcast(offer, listeners, kind)
            == Broadcast(offer, listeners[..|listeners| - 1], kind) + [Notification(listeners[|listeners| - 1], kind, offer)]
  {
  }

  /** A broadcast tells listener `l` about `offer` as many times as `l` is
      registered, and says nothing else. */
  lemma {:induction false} BroadcastCount(offer: Offer, listeners: seq<OfferBookChangedListener>, kind: ChangeKind, target: Notification)
    ensures multiset(Broadcast(offer, listeners, kind))[target]
            == if target.kind == kind && target.offer == offer then multiset(listeners)[target.listener] else 0
  {
    if listeners != [] {
      var front := listeners[..|listeners| - 1];
      BroadcastSnoc(offer, listeners, kind);
      BroadcastCount(offer, front, kind, target);
      assert listeners == front + [listeners[|listeners| - 1]];
    }
  }

  /** How many entries of `batch` hold exactly the offer payload `p`. */
  function Occurrences(batch: seq<ProtectedStorageEntry>, p: OfferPayloadBase): (n: nat)
  {
    multiset(batch)[ProtectedStorageEntry(OfferVariant(p))]
  }

  /** Counting the first entry of a batch separately. */
  lemma OccurrencesCons(batch: seq<ProtectedStorageEntry>, p: OfferPayloadBase)
    requires batch != []
    ensures Occurrences(batch, p)
            == (if batch[0] == ProtectedStorageEntry(OfferVariant(p)) then 1 else 0) + Occurrences(batch[1..], p)
  {
    assert batch == [batch[0]] + batch[1..];
  }

  /** What one entry contributes to the count of a notification. */
  lemma EntryFanOutCount(e: ProtectedStorageEntry, listeners: seq<OfferBookChangedListener>, kind: ChangeKind, target: Notification)
    ensures multiset(EntryFanOut(e, listeners, kind))[target]
            == if target.kind == kind && e == ProtectedStorageEntry(OfferVariant(target.offer.payload))
               then multiset(listeners)[target.listener] else 0
  {
    if IsOfferEntry(e) {
      BroadcastCount(Offer(e.payload.offer), listeners, kind, target);
    }
  }

  /** For every listener and every offer payload: the listener is notified
      about that offer exactly once per entry of the batch that holds it
      (times the number of times the listener is registered), and never with
      the other kind. Since every notification names an offer payload,
      entries that are not offers are never reported. */
  lemma {:induction false} FanOutExactlyOnce(batch: seq<ProtectedStorageEntry>, listeners: seq<OfferBookChangedListener>,
                                             kind: ChangeKind, target: Notification)
    ensures multiset(FanOut(batch, listeners, kind))[target]
            == if target.kind == kind
               then Occurrences(batch, target.offer.payload) * multiset(listeners)[target.listener] else 0
  {
    if batch != [] {
      var p, m := target.offer.payload, multiset(listeners)[target.listener];
      FanOutExactlyOnce(batch[1..], listeners, kind, target);
      EntryFanOutCount(batch[0], listeners, kind, target);
      OccurrencesCons(batch, p);
      assert multiset(FanOut(batch, listeners, kind))
             == multiset(EntryFanOut(batch[0], listeners, kind)) + multiset(FanOut(batch[1..], listeners, kind));
      if batch[0] == ProtectedStorageEntry(OfferVariant(p)) {
        OneMoreRow(Occurrences(batch[1..], p), m);
      }
    }
  }
}
