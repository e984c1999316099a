/** The snapshot query: the current offers, recomputed from the store's data
    view on every call. */
module Snapshot {
  import opened OfferTypes

  /** How many entries of `entries` hold an offer payload. */
  function CountOfferEntries(entries: seq<ProtectedStorageEntry>): (n: nat)
    ensures n <= |entries|
  {
    if entries == [] then 0
    else (if IsOfferEntry(entries[0]) then 1 else 0) + CountOfferEntries(entries[1..])
  }

  /** getOffers: keep the entries whose payload is an offer, in the store's
      iteration order, and wrap each payload in a fresh Offer. */
  function GetOffers(entries: seq<ProtectedStorageEntry>): (r: seq<Offer>)
    ensures |r| == CountOfferEntries(entries)
    ensures forall k :: 0 <= k < |r| ==> ProtectedStorageEntry(OfferVariant(r[k].payload)) in entries
    ensures forall e :: e in entries && IsOfferEntry(e) ==> Offer(e.payload.offer) in r
  {
    if entries == [] then []
    else
      var rest := GetOffers(entries[1..]);
      assert forall k :: 0 <= k < |rest| ==> ProtectedStorageEntry(OfferVariant(rest[k].payload)) in entries[1..];
      if IsOfferEntry(entries[0]) then [Offer(entries[0].payload.offer)] + rest else rest
  }

  /** Entries are handled independently: the snapshot of a concatenation is
      the concatenation of the snapshots, so the result keeps the store's
      order. */
  lemma {:induction false} GetOffersAppend(a: seq<ProtectedStorageEntry>, b: seq<ProtectedStorageEntry>)
    ensures GetOffers(a + b) == GetOffers(a) + GetOffers(b)
  {
    if a == [] {
      assert a + b == b;
    } else {
      assert (a + b)[1..] == a[1..] + b;
      GetOffersAppend(a[1..], b);
    }
  }

  /** An entry that is not an offer contributes nothing; an offer entry
      contributes exactly its own payload. */
  lemma GetOffersSingle(e: ProtectedStorageEntry)
    ensures GetOffers([e]) == if IsOfferEntry(e) then [Offer(e.payload.offer)] else []
  {
    assert [e][1..] == [];
  }

  /** A store holding no offer payload yields an empty snapshot. */
  lemma {:induction false} GetOffersWithoutOffers(entries: seq<ProtectedStorageEntry>)
    requires forall e :: e in entries ==> !IsOfferEntry(e)
    ensures GetOffers(entries) == []
  {
    if entries != [] {
      assert forall e :: e in entries[1..] ==> e in entries;
      GetOffersWithoutOffers(entries[1..]);
    }
  }
}
