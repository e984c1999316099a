# Offer book service: a Dafny model

This project models the sequential core of Bisq's `OfferBookService`. The service keeps a local view of the trade offers held in the peer-to-peer replicated store. Four parts are modelled:

- **Listener registry and change fan-out.** The service subscribes to the store's change stream. For every entry of an added or removed batch, and for every registered `OfferBookChangedListener`, it hands the listener a fresh `Offer` when the entry holds an offer payload. Any other payload is skipped.
- **Mutation gateway.** `addOffer` and `refreshTTL` are gated by the filter's "mandatory update" check. `removeOffer` has no gate and takes optional handlers. `activateOffer`, `deactivateOffer` and `removeOfferAtShutDown` delegate to the others.
- **Snapshot query.** `getOffers` keeps the data map's entries that hold an offer payload and wraps each one in an `Offer`.
- **Statistics dump.** The selection step of `doDumpStatistics` keeps an offer when it uses a fixed price or its currency has a market price, and drops an offer whose record cannot be built. When the dump flag is set, the bootstrap event arms the dump.

Layout:

- `offer_types.dfy` (`OfferTypes`): stored payloads (offer variant or other), store entries, and `Offer`.
- `snapshot.dfy` (`Snapshot`): `getOffers` as a function over the data map's values.
- `statistics.dfy` (`Statistics`): the `OfferForJson` record, the price filter and the selection.
- `change_bridge.dfy` (`ChangeBridge`): listeners and notifications, and `FanOut`, the notification sequence of one batch. It also holds an independent reference form of `FanOut` (`PerOffer`) and the counting lemmas.
- `gateway.dfy` (`Gateway`): store calls, handler calls and messages. Its outcome functions say what one gateway call does.
- `offer_book_service.dfy` (`OfferBook`): the class `OfferBookService`. It holds the registry (a `seq`, appended in place) and three logs: the notifications delivered, the store calls made and the handler calls made. The change handlers are nested loops proved against `FanOut`. The gateway methods branch on the gate and on the store's answer, and are proved against the outcome functions.
- `scenarios.dfy` (`Scenarios`): concrete scenarios (a snapshot, a selection, two client sessions of the class).

Abstractions:

- The store's data map is given as the sequence of its values in iteration order. Its keys are not used by this code.
- Each answer of the store (`addProtectedStorageEntry`, `refreshTTL`, `removeData`) is a boolean parameter of the gateway method. So is `requireUpdateToNewVersionForTrading()`.
- The price feed's market prices are given as the set of currency codes that have a price.
- Handlers are identities (`HandlerId`). A handler call is logged as `HandleResult(h)` or `HandleErrorMessage(h, message)`.
- `Res.get("popup.warning.mandatoryUpdate.trading")` is the opaque message `Localized("popup.warning.mandatoryUpdate.trading")`.
- An offer whose getters or `OfferForJson` constructor would throw ("corrupted with null values") is an offer payload with `terms == None`.
- The dump listener registered at bootstrap is `StatisticsDumpListener`. A notification addressed to it stands for one run of `doDumpStatistics`. The delayed dump that `UserThread.runAfter` schedules is counted in `scheduledDumps`.

Two facts about the code worth stating:

- Only `addOffer` and `refreshTTL` (and so `activateOffer`) check the filter (core/src/main/java/bisq/core/offer/OfferBookService.java:152, 168). `removeOffer` and `deactivateOffer` do not (193-205).
- The class comment (65-69) mentions an invalidation flag. The code has none, and `getOffers` reads the whole data map on every call.

## Model

| member | source | states |
|---|---|---|
| `Snapshot.GetOffers` | core/src/main/java/bisq/core/offer/OfferBookService.java:227-246 | one offer per offer-payload entry (length = number of offer entries); every offer wraps a payload stored in the map; every stored offer payload appears |
| `Snapshot.GetOffersAppend` | core/src/main/java/bisq/core/offer/OfferBookService.java:227-231 | entries are handled independently and the result keeps the store's iteration order |
| `Snapshot.GetOffersSingle` | core/src/main/java/bisq/core/offer/OfferBookService.java:231-235 | a non-offer entry contributes nothing; an offer entry contributes exactly an Offer wrapping its payload |
| `Snapshot.GetOffersWithoutOffers` | core/src/main/java/bisq/core/offer/OfferBookService.java:231 | a data map with no offer payload yields an empty list |
| `Statistics.ToJson` | core/src/main/java/bisq/core/offer/OfferBookService.java:269-286 | the record exists exactly when the offer's values are present, and carries the offer's id, currency and price mode |
| `Statistics.HasUsablePrice` | core/src/main/java/bisq/core/offer/OfferBookService.java:268 | definition, no contract: the price filter of line 268 (a fixed-price offer, or a market-based one whose currency has a market price); its effect is stated by `SelectStatistics`, `DumpStatistics` and `StatisticsOfFourOffers` |
| `Statistics.SelectStatistics` | core/src/main/java/bisq/core/offer/OfferBookService.java:267-288 | no more records than offers; every record comes from an offer that passes the price filter and projects; every such offer's record is present |
| `Statistics.SelectStatisticsAppend` | core/src/main/java/bisq/core/offer/OfferBookService.java:267-288 | survivors keep their relative order from the input list |
| `Statistics.DumpStatistics` | core/src/main/java/bisq/core/offer/OfferBookService.java:264-288 | over the data map: a record is in the dump list if and only if some stored offer payload passes the price filter and projects to it; at most one record per offer entry |
| `OfferTypes.IsOfferEntry` | core/src/main/java/bisq/core/offer/OfferBookService.java:105 | definition, no contract: the `instanceof OfferPayloadBase` test of lines 105, 117 and 231; its effect is stated by `GetOffers`, `FanOutOnlyOffers` and `FanOutExactlyOnce` |
| `ChangeBridge.Broadcast` | core/src/main/java/bisq/core/offer/OfferBookService.java:104-110 | definition, no contract: one offer handed to every listener in registry order; its contents are stated by `BroadcastCount`, its place in the fan-out by `PerOfferBlock` |
| `ChangeBridge.BroadcastCount` | core/src/main/java/bisq/core/offer/OfferBookService.java:104-110 | a broadcast tells listener l about the offer exactly once per registration of l, with the broadcast's kind, and about nothing else |
| `ChangeBridge.EntryFanOut` | core/src/main/java/bisq/core/offer/OfferBookService.java:104-110 | the inner listener loop for one entry: as many notifications as listeners for an offer entry, none for any other entry |
| `ChangeBridge.FanOut` | core/src/main/java/bisq/core/offer/OfferBookService.java:104-111 | definition, no contract: the nested loop of lines 104-111, entry-outer and listener-inner; its properties are the `FanOut*` lemmas below |
| `ChangeBridge.FanOutLength` | core/src/main/java/bisq/core/offer/OfferBookService.java:103-111 | a batch yields exactly (offer entries) x (registered listeners) notifications |
| `ChangeBridge.FanOutOnlyOffers` | core/src/main/java/bisq/core/offer/OfferBookService.java:103-124 | every notification has the batch's kind, goes to a registered listener and wraps an offer payload of the batch, so other payloads are never reported |
| `ChangeBridge.FanOutExactlyOnce` | core/src/main/java/bisq/core/offer/OfferBookService.java:103-124 | a listener is told about an offer exactly once per entry holding it (times its registrations), and never with the other kind |
| `ChangeBridge.FanOutAppend` | core/src/main/java/bisq/core/offer/OfferBookService.java:104 | the entries of a batch are processed independently and in order |
| `ChangeBridge.FanOutOrder` | core/src/main/java/bisq/core/offer/OfferBookService.java:103-111 | the notifications equal, for each offer of the batch's snapshot in order, one notification per listener in registry order (entry-major, listener-minor) |
| `ChangeBridge.PerOffer` | core/src/main/java/bisq/core/offer/OfferBookService.java:104 | the reference fan-out over a list of offers has one notification per (offer, listener) pair |
| `ChangeBridge.PerOfferAppend` | core/src/main/java/bisq/core/offer/OfferBookService.java:104 | the reference fan-out handles offers independently and in order |
| `ChangeBridge.PerOfferBlock` | core/src/main/java/bisq/core/offer/OfferBookService.java:104-110 | block i of the notifications is the i-th offer handed to every listener in registry order |
| `Gateway.GatedStoreCall` | core/src/main/java/bisq/core/offer/OfferBookService.java:152-162 | the branch shared by addOffer and refreshTTL: a closed gate makes no store call and reports the mandatory-update message; otherwise exactly one store call; exactly one handler call, success exactly when the gate is open and the store accepted, else the operation's failure message |
| `Gateway.AddOfferOutcome` | core/src/main/java/bisq/core/offer/OfferBookService.java:151-163 | a closed gate makes no store call and reports the mandatory-update message; otherwise exactly one add; exactly one handler call, success iff the gate is open and the store accepted, else "Add offer failed" |
| `Gateway.RefreshTtlOutcome` | core/src/main/java/bisq/core/offer/OfferBookService.java:165-179 | the same gate and handler discipline around one TTL refresh, failing with "Refresh TTL failed." |
| `Gateway.RemoveOfferOutcome` | core/src/main/java/bisq/core/offer/OfferBookService.java:193-205 | no gate; exactly one remove; at most one handler call, none exactly when the handler for the store's answer is absent; success iff removed, else "Remove offer failed" |
| `Gateway.GateRejectionIsDistinguishable` | core/src/main/java/bisq/core/offer/OfferBookService.java:152-177 | a gate rejection and a failed store call reach the error handler with different messages |
| `OfferBook.OfferBookService.constructor` | core/src/main/java/bisq/core/offer/OfferBookService.java:91-99 | empty registry and empty logs; the dump flag is recorded |
| `OfferBook.OfferBookService.AddOfferBookChangedListener` | core/src/main/java/bisq/core/offer/OfferBookService.java:257-259 | the registry grows by exactly the new listener at its end; nothing else changes |
| `OfferBook.OfferBookService.OnAdded` | core/src/main/java/bisq/core/offer/OfferBookService.java:103-112 | appends exactly `FanOut(batch, listeners, Added)` to the notifications; registry, store calls and handler calls are unchanged |
| `OfferBook.OfferBookService.OnRemoved` | core/src/main/java/bisq/core/offer/OfferBookService.java:115-124 | the same with `Removed` |
| `OfferBook.OfferBookService.Dispatch` | core/src/main/java/bisq/core/offer/OfferBookService.java:104 | the entry-outer loop appends the batch's fan-out and changes nothing else |
| `OfferBook.OfferBookService.NotifyListeners` | core/src/main/java/bisq/core/offer/OfferBookService.java:104-110 | the listener-inner loop appends one notification per listener for an offer entry, none otherwise |
| `OfferBook.OfferBookService.OnUpdatedDataReceived` | core/src/main/java/bisq/core/offer/OfferBookService.java:127-145 | with the dump flag, adds exactly one dump listener and schedules exactly one delayed dump; without it, changes nothing |
| `OfferBook.OfferBookService.CallStore` | core/src/main/java/bisq/core/offer/OfferBookService.java:157 | one store call is logged and the store's answer is returned |
| `OfferBook.OfferBookService.AddOffer` | core/src/main/java/bisq/core/offer/OfferBookService.java:151-163 | the store-call and handler logs grow by exactly `AddOfferOutcome` |
| `OfferBook.OfferBookService.RefreshTTL` | core/src/main/java/bisq/core/offer/OfferBookService.java:165-179 | the logs grow by exactly `RefreshTtlOutcome` |
| `OfferBook.OfferBookService.ActivateOffer` | core/src/main/java/bisq/core/offer/OfferBookService.java:181-185 | the same effect on both logs as `AddOffer` with the same arguments |
| `OfferBook.OfferBookService.RemoveOffer` | core/src/main/java/bisq/core/offer/OfferBookService.java:193-205 | the logs grow by exactly `RemoveOfferOutcome` |
| `OfferBook.OfferBookService.DeactivateOffer` | core/src/main/java/bisq/core/offer/OfferBookService.java:187-191 | the same effect on both logs as `RemoveOffer` with the same arguments |
| `OfferBook.OfferBookService.RemoveOfferAtShutDown` | core/src/main/java/bisq/core/offer/OfferBookService.java:249-251 | one remove of the payload and no handler call, whatever the store answers |
| `Scenarios.SnapshotOfTwoOffers` | core/src/main/java/bisq/core/offer/OfferBookService.java:227-246 | two offer entries and one other entry give exactly the two offers |
| `Scenarios.StatisticsOfFourOffers` | core/src/main/java/bisq/core/offer/OfferBookService.java:267-288 | a fixed-price offer and a priced market-based offer are kept; a market-based offer without a price and a corrupted offer are dropped |
| `Scenarios.OneSubscriberOneOffer` | core/src/main/java/bisq/core/offer/OfferBookService.java:103-111 | one listener and a one-offer batch give exactly one onAdded wrapping that payload |
| `Scenarios.DumpAfterBootstrap` | core/src/main/java/bisq/core/offer/OfferBookService.java:127-145 | after the bootstrap event with the dump flag set, an added batch runs one dump per offer entry, and exactly one delayed dump is scheduled |

## Left out

- The raw protocol-buffer dump inside `getOffers` (the timestamp, the USD/XMR price lookups and the writes to fixed Windows paths). This is file I/O of a debug leftover. The model's `getOffers` has no side effect.
- The JSON serialisation and the threaded disk write at the end of `doDumpStatistics`. This is I/O and foreign code; only the selected list is modelled.
- The one-second delay of `UserThread.runAfter`. This is scheduling; only the request for one extra dump is recorded.
- What a dump computes at the moment a dump listener is notified. The notification stands for the run. The list that run writes is `DumpStatistics` of the data map and market prices at that moment, which the class does not hold.
- `isBootstrapped`: a plain delegation to the store with no logic of its own.
- The internals of `P2PService`, `PriceFeedService`, `FilterManager`, `Offer` and `OfferForJson`. Their answers are parameters. An accepted add or remove changes the store's data map only inside the store, and the change comes back through `OnAdded`/`OnRemoved`.
- The identity of the fresh `Offer` built for each (entry, listener) pair, and the price feed bound into it. Offers are values, so two offers wrapping the same payload are equal.
- The keys of the data map and the hash map's iteration order. The data map's values are an input sequence in whatever order the store iterates them.
- Prices, amounts and margins as numbers. They are opaque integers, because no arithmetic is done on them here.
- OfferBook.OfferBookService.OnAdded, OfferBook.OfferBookService.OnRemoved, OfferBook.OfferBookService.Dispatch: listener callbacks are taken not to throw. In the source the nested `forEach` has no `try`, so a listener whose `onAdded`/`onRemoved` throws ends the whole batch: later listeners and later entries are not notified, and the exception goes back to the store's callback. The dump listener can fail this way, since `doDumpStatistics` runs the price lookup and the JSON conversion outside any `try`. The model always delivers the complete fan-out of the batch.
- Threads: cross-thread delivery of store callbacks, and a listener registered while a batch is being delivered. The registry is fixed for the duration of one batch.
- Localisation: `Res.get` is represented by its key.
- OfferBook.OfferBookService.ActivateOffer: takes present handlers, like `AddOffer`. The source declares them `@Nullable` and passes them on to `addOffer`, which calls the handler the outcome selects without a null check. A null handler raises a NullPointerException exactly when it is the one selected. A call whose null handler is never selected completes normally. The model takes both handlers present and represents neither case.
