# Checkout saga: a verified model

The repository is a checkout orchestrator. A shopper's session is taken through a stock hold in the
inventory service (IHMS) and an order in the order service (EC-OPS) by a saga coordinator, over
calls that can fail or time out, and with any number of requests for the same session running at
once. This project models the coordinator, its local stores and counters, its retry loops, and the
two services as their wire-compatible stand-ins define them, and proves what the orchestrator is for:
no order is lost or doubled, stock is conserved, and sessions, orders and holds agree.

Verify with `dafny verify --resource-limit 2000000 dfyconfig.toml`.

## How the model is built

The model has two layers over one set of program definitions.

* `Program.dfy` cuts each operation at its awaits. A suspended operation is a `Pc`; the code between
  two awaits is an `Effect` (what is saved, cached and counted, and where the operation waits next),
  with the branches, error conditions and constants of the source. `Sections.dfy` runs one such
  program over the replies it gets (`Exec`), from the grant of a session lock to its release.
* **Imperative layer.** `Stores.dfy`, `Metrics.dfy`, `Inventory.dfy`, `Orders.dfy`, `Cart.dfy`,
  `Retries.dfy`, `Coordinator.dfy` and `Service.dfy` hold the classes and loops of the source: stores
  that overwrite dictionary entries, services that update their state, loops with their attempts and
  back-off, and the coordinator's methods with the order of their `except` clauses. Each method is
  proved equal to the corresponding function, or, for a saga operation, to `Exec` over the calls it
  made. The gateway those methods await answers every call as an adversary likes, and while a method waits
  for its session lock other operations do to the stores what they like (`granted` is the state it then finds).
* **Concurrent layer.** `World.dfy` is a step relation: sessions with locks, any number of running
  operations, both services, a clock, and an adversary that picks which operation moves and what
  happens to its call. `Slices.dfy` states the invariant for one session and proves that every effect
  keeps it; `Reach.dfy` lifts it to the system and to all reachable states. `Serial.dfy` shows that
  what the concurrent layer does to a session is what its locked sections do one after another, that each
  finished section is a run of the coordinator's method for it (for place_order's hold section, of
  place_hold's), and that the two sections of place_order, with nothing in between, are a run of its method.

The results are in `Guarantees.dfy` (agreement, at most one order, the cache), `Lifecycle.dfy` (the
state graph over whole runs), `StockRuns.dfy` and `InventoryLaws.dfy` (stock), `Audit.dfy` (counters),
`Serial.dfy` (serialisability), `Scripts.dfy` (every locked section over literal replies: which call comes
next, after how many attempts it stops, and what is then saved, cached, counted and answered), `Names.dfy`
(which section posted an order, and under which name), `Outcomes.dfy` (what an answer tells the caller, and
what the end of a session means for its order and hold), `Recovery.dfy` (how one fault-free call ends a
session, and that nothing gets stuck), `Decisions.dfy` (what one fault-free place_hold, confirm or place_order
decides) and `Corners.dfy` (where the code parts from its documentation, from any state that allows it and in
concrete runs). A method is proved equal to a function; what that function does is then fixed by laws that do
not name it (`Scripts.dfy` for the saga, `InventoryLaws.dfy`, and the laws in `Orders.dfy`,
`Cart.dfy` and `Metrics.dfy`).

In the rows on `Scripts`, an order is *completed* when up to two timed-out fulfils and then ok, 404 or 409 end the
session CONFIRMED (or RECONCILED, for an order that was looked up) with the order, the key, its record and its counts,
and when three timeouts, or any other error, end it FULFILL_PENDING with the record and no count
(`src/saga/coordinator.py:509-556`). A failure is *compensated for* when up to two timed-out releases and then ok, 404
or 409 end the session COMPENSATED without a key, counted, with the failure raised (a timeout as an incomplete
compensation), and when three timeouts, or any other error, save and count nothing and raise an incomplete compensation
or that error (`src/saga/coordinator.py:651-678`).

### What the environment may do

* A call is answered; or refused with an HTTP error status, or dropped by the transport, both without
  effect; or it times out, having taken effect or not. A call that times out has taken effect before
  it returns or not at all. A lookup that completes reads the current orders.
* Only the inventory service itself answers 404 or 409 about an existing hold id; it can still refuse a
  hold creation with any status at any time.
* Session ids, correlation ids, hold ids and order ids are fresh. Request bodies are compared as values.
* The order service honours idempotency keys and unique references, or (`dedup` false) stores every POST;
  all results hold for both unless they say otherwise.
* Catalogs are arbitrary and may differ from call to call. Where quantities must match the order, the
  results ask that distinct SKUs name distinct products, and say exactly what happens otherwise.
* The clock only advances. Operations may be started at any time, with any arguments.

### Where the code and its documentation part

* **An order without its hold.** `docs/sequences/reconciliation.md:45` and
  `docs/adr/ADR-008-reconciliation-timeout.md:22` keep the hold while an order may exist, so that the two cannot
  diverge. `abandon` does not look at the pinned key (`src/saga/coordinator.py:311-318`) and releases it. With
  every release acknowledged, a free session with an order is without its hold if and only if it is ABANDONED
  (`Guarantees.OrderWithoutHoldExactly`); the step that abandons a session strands an order if and only if the
  session had one just before (`Outcomes.EndsDecideHold`), so never when no key is pinned
  (`Corners.AbandonStrandsOrder`). It does happen (`Corners.OrderWithoutHoldHappens`).
* **A confirmed session without its hold.** `release_hold_safe` can end without True after an earlier DELETE took
  effect; the session then stays HELD with no hold. The service's confirm looks at the hold first and turns such a
  session down unchanged (`Decisions.GoneHoldIsTurnedDown`). place_order on a HELD session does not look
  (`src/saga/coordinator.py:390-412`), and confirms it, since 404 on fulfil counts as success
  (`Corners.ConfirmedWithoutHoldHappens`). Whatever the faults, a session has its hold fulfilled after the step
  that confirms it if and only if the hold was still there just before (`Outcomes.EndsDecideHold`), and after a
  fault-free confirm or place_order if and only if it was there before the call (`Decisions.ConfirmDecides`).
* **A looked-up order that is not reconciled.** `docs/WORKFLOWS.md:63` has a session RECONCILED when a lookup finds
  its order. The completion of a looked-up order ends RECONCILED, and is counted so, if and only if the fulfil loop
  returns True, and otherwise FULFILL_PENDING (`Sections.FoundOrderEnds`); it then can only become CONFIRMED,
  uncounted (`src/saga/coordinator.py:591-597`), and does (`Corners.FoundButConfirmedHappens`).
* **A compensation that is complete and reported incomplete.** A section that compensated raises the error for an
  incomplete compensation if and only if what it compensated for was a timeout
  (`src/saga/coordinator.py:271-275`; `Outcomes.AnswersAreHonest`), and that happens
  (`Corners.CompensatedAsIncompleteHappens`).

## Model

| member | source | states |
|---|---|---|
| Guarantees.Agreement | src/saga/coordinator.py:163-290 | in every reachable state: CONFIRMED/RECONCILED means exactly one order with this correlation id, the one the session names, and a fulfilled hold unless (iff) an unacknowledged release lost it; FULFILL_PENDING means that order exists and the hold was not released unless lost; COMPENSATED means no order and no hold; ABANDONED means no hold |
| Guarantees.OrderWithoutHold | src/saga/coordinator.py:311-318 | at every moment, also inside a section: with every release acknowledged, an order whose hold is gone belongs to a session with a pinned key that is ABANDONED or being abandoned |
| Guarantees.OrderWithoutHoldExactly | src/saga/coordinator.py:311-318 | with its lock free, a session with an order is without its hold iff it is ABANDONED or an unacknowledged release lost the hold; with every release acknowledged, iff it is ABANDONED |
| Outcomes.EndsDecideHold | src/saga/coordinator.py:509-606 | whatever the faults, the step that abandons a session strands an order iff the session had one just before, and the step that confirms it leaves its hold fulfilled iff the hold was still there just before |
| Guarantees.CompensationHasNoOrder | src/saga/coordinator.py:651-678 | no release inside confirm is for a session that has an order |
| Guarantees.HeldUnpinnedHasNoOrder | src/saga/coordinator.py:219-234 | a HELD session with a free lock and no key has no order |
| Guarantees.AtMostOneOrder | src/saga/coordinator.py:415-443 | no two stored orders carry one correlation id, for any interleaving, retries and keys, even when the order service deduplicates nothing; a POST is only ever awaited for an unpinned session without an order |
| Guarantees.NoOrderIsLost | src/saga/coordinator.py:276-287 | every stored order is the one order of a session that names it, or has its key pinned, or is in the hands of the operation that is about to record it |
| Guarantees.PostsAreValid | docker/mock-upstreams/ecops/app.py:23-32 | every order the saga posts passes the validation of the order service |
| Guarantees.OrdersOnlyGrow | docker/mock-upstreams/ecops/app.py:105-113 | no step drops or reorders stored orders |
| Guarantees.OrderIdsAreOwn | src/saga/coordinator.py:445-465 | distinct sessions never share an order id |
| Guarantees.OrderCarriesLines | src/saga/coordinator.py:680-693 | a session's order has one item per line frozen when its hold was placed, with that line's code, quantity and price, whatever the catalog did since |
| Names.OrderWasPosted | src/saga/coordinator.py:239-243 | every stored order of a session was posted by one of its confirm sections, with that section's key and exactly this body: the session's reference, its frozen lines one by one, and the name the section was given or else the one the session was held under |
| Guarantees.ConflictIsKeyReuse | src/saga/coordinator.py:424-429 | a POST that the order service answers with 409 after the empty lookup has met a key that stands for another session's order; any other POST is stored |
| Guarantees.CacheAgrees | src/saga/idempotency.py:23-33 | a cached record for (session, key) has the session's key, state, order, hold and expiry, and is the session's only record |
| Guarantees.ReplayIsNoOp | src/saga/coordinator.py:338-362 | the lock-free replay of place_order makes no call and changes nothing but its own answer, the stored session |
| Guarantees.CachedConfirmRepairsNothing | src/saga/coordinator.py:171-203 | a cached confirm leaves session, records and counters as they were and goes on only to fulfil |
| Corners.AmbiguousConfirm | src/saga/coordinator.py:276-287 | from any reachable held session, a confirm or place_order whose stored POST times out and whose lookups time out leads to a HELD session with its key pinned and its order stored |
| Corners.AbandonStrandsOrder | src/saga/coordinator.py:292-327 | a fault-free abandon of any reachable free HELD session strands an order iff the session had one before the call, and without a pinned key it had none |
| Corners.OrderWithoutHoldHappens | src/saga/coordinator.py:311-318 | a concrete run reaches an order without its hold with every release acknowledged |
| Corners.LosesHold | src/saga/steps/compensate.py:25-35 | from any reachable held session, a confirm or place_order whose releases take effect without an answer leaves it HELD with its hold gone |
| Corners.ConfirmedWithoutHoldHappens | src/saga/coordinator.py:390-412 | a concrete run of place_hold and place_order calls reaches a CONFIRMED session with an order whose hold was released |
| Corners.FoundButPending | src/saga/coordinator.py:481-539 | from any reachable pinned session with an order, a same-key confirm that finds it and whose fulfils time out leaves the session FULFILL_PENDING with that order |
| Corners.FoundButConfirmedHappens | src/saga/coordinator.py:591-597 | a concrete run reaches a CONFIRMED session whose order a lookup found, and which is not among the counted reconciled ones |
| Corners.CompensatedAsIncomplete | src/saga/coordinator.py:271-275 | from any reachable held session, a POST that times out and never arrives, and lookups that find nothing, end COMPENSATED with no order and no hold, and with the error for an incomplete compensation |
| Corners.CompensatedAsIncompleteHappens | src/saga/coordinator.py:271-275 | a concrete run reaches that |
| Reach.ReachableOk | src/saga/coordinator.py:64-72 | every reachable state satisfies the system invariant: identities, lock ownership, current local copies, ownership of orders and holds, and the session invariant |
| Reach.StartKeeps | src/saga/coordinator.py:338-392 | the stretch of an operation before its lock never changes a session or record |
| Reach.RespondKeeps | src/saga/coordinator.py:120-161 | every reply, with every fault, keeps the invariant |
| Slices.EnterOk | src/saga/coordinator.py:170-243 | everything an operation can do on getting its lock keeps the session invariant and the session's identity and hold |
| Slices.RepairIsIdle | src/saga/coordinator.py:176-186 | the repair written when a cached record is replayed equals the stored session |
| Slices.CreateHoldOk | src/saga/coordinator.py:131-152 | an acknowledged hold makes a well-formed HELD session; a failed one leaves it CREATED |
| Slices.LookupOk | src/saga/coordinator.py:246-260 | every lookup reply is followed by a step that fits what orders exist |
| Slices.PostOk | src/saga/coordinator.py:415-443 | every reply to the POST is followed by a step that fits what orders then exist |
| Slices.FulfillOk | src/saga/coordinator.py:509-606 | every reply to a fulfil keeps order, hold, state and record in agreement |
| Slices.ReleaseOk | src/saga/coordinator.py:651-678 | every reply to a release keeps agreement, marking exactly the releases that did not return True |
| Lifecycle.WholeRun | docs/WORKFLOWS.md:53-66 | between any two moments of any run a session follows the documented graph, changes state at most three times, keeps its identity, its hold, lines, customer and expiry once held, its key and order once set, and everything once terminal |
| Lifecycle.StepEvolves | src/session/models.py:45-51 | every step moves a session along one edge of the graph or not at all |
| Outcomes.AnswersAreHonest | src/saga/coordinator.py:261-290 | for every ending of every operation, under the lock or not: a returned session is the stored one; an operation that raises left the session unchanged, or pinned its key with the hold kept (status unknown), or compensated it with no order and no hold, and then the error is an incomplete compensation iff the cause was a timeout and the cause itself otherwise; on an unknown session every operation raises |
| Serial.SectionsSerialise | src/session/store.py:38-51 | a session and its records are what its locked sections make of them run one after another in lock order; every operation stands where, and answers what, that serial run says; exactly one hold creation was acknowledged for a session with a hold, none otherwise |
| Serial.OneHolder | src/session/store.py:43-45 | two operations inside locked sections are in sections of different sessions |
| Serial.SectionIsMethodRun | src/saga/coordinator.py:163-290 | a section of the concurrent model that ends with an answer is a run of the coordinator's method, from agreeing stores to agreeing stores with the same answer |
| Serial.TwinsRun | src/saga/coordinator.py:374-388 | a hold section of place_order and one of place_hold over the same replies write the same session, record and events, at every point |
| Serial.HoldSectionIsMethodRun | src/saga/coordinator.py:374-388 | a hold section of place_order that is over is a run of place_hold's method, which returns the held session where the section goes on to confirm |
| Serial.TwoSectionsAreMethodRun | src/saga/coordinator.py:374-413 | a hold section of place_order and the confirm section after it, with nothing in between, are a run of place_order's method |
| Coordinator.ClockIsIdle | src/saga/coordinator.py:120-161 | hold and abandon sections run the same at any time |
| World.ServeIs | docker/mock-upstreams/ihms/app.py:141-219 | the fault model: a refused, dropped or unapplied call changes nothing, an applied call that times out changes what the answered one does, and an answered call answers from the current state |
| StockRuns.StockAccount | docker/mock-upstreams/ihms/app.py:141-219 | in every reachable state and for every product, initial stock = shelf + recorded holds of sessions + orphans of timed-out creations, and the shelf is never negative |
| StockRuns.StockBalances | src/saga/coordinator.py:120-161 | with no lock held, initial stock = shelf + HELD, FULFILL_PENDING, CONFIRMED and RECONCILED sessions that did not lose their hold + orphans |
| StockRuns.OrderedStockBalances | src/saga/coordinator.py:116-119 | over catalogs that give every SKU its own product, the same balance in ordered quantities |
| StockRuns.HoldCarriesLines | src/saga/coordinator.py:143-151 | a session's recorded hold was requested with the product and quantity of each frozen line, one by one, and reserves for each product what the lines ask for |
| StockRuns.CarryingIsRecorded | src/saga/coordinator.py:651-678 | with no lock held, the sessions with a recorded hold are the HELD, FULFILL_PENDING, CONFIRMED and RECONCILED ones that did not lose it |
| Audit.CountersAudit | src/observability/metrics.py:20-40 | at the end of every run each saga counter equals the number of sessions it stands for (status unknown: those that were HELD with a key at some moment of the run), and placed holds = HELD + FULFILL_PENDING + successes + compensations + abandoned sessions that had a hold |
| Recovery.AbandonRecovers | src/saga/coordinator.py:292-327 | from every reachable CREATED or HELD session with a free lock, one fault-free abandon ends ABANDONED |
| Recovery.PendingRecovers | src/saga/coordinator.py:558-606 | from every reachable FULFILL_PENDING session with a free lock, one fault-free confirm with its key ends CONFIRMED |
| Recovery.PinnedRecovers | src/saga/coordinator.py:481-507 | one fault-free confirm with the pinned key, directly or through the service and however late, ends RECONCILED if the order exists and otherwise changes nothing |
| Decisions.ConfirmDecides | src/saga/coordinator.py:235-290 | one fault-free confirm (of the coordinator, or of the service when the hold is there) or place_order of an unpinned, unexpired HELD session ends CONFIRMED with a new order, or COMPENSATED when the key already stands for another order; confirmed, its hold is fulfilled iff it was there before the call |
| Decisions.GoneHoldIsTurnedDown | src/checkout/service.py:247-254 | the service's confirm of a HELD session whose hold is gone ends with an expired hold and changes nothing, locked or not |
| Decisions.ExpiredIsTurnedDown | src/saga/coordinator.py:695-702 | an expired hold with no key pinned blocks confirm, place_order and the service's confirm without a change |
| Decisions.HoldDecides | src/saga/coordinator.py:74-161 | one fault-free place_hold of an acceptable cart ends HELD when every line is in stock, and otherwise is turned down without a change |
| Decisions.OrderDecides | src/saga/coordinator.py:329-413 | one fault-free place_order of an acceptable cart on a CREATED session ends CONFIRMED with a new order and its hold fulfilled; is turned down without a change when a line is not in stock; ends COMPENSATED when its key already stands for another order |
| Recovery.NoDeadlock | src/session/store.py:38-45 | an unfinished operation can be answered, can take its lock, or waits for a holder that can be answered |
| Sections.ConfirmWorkBound | src/saga/coordinator.py:163-290 | for every session, record, time and reply script a confirm is over after at most 8 calls, at most one of them a POST, and never both fulfils and releases |
| Sections.ReplayWork | src/saga/coordinator.py:171-203 | a confirm served from the cache makes at most three calls, all of them fulfils |
| Sections.ReplayGivesSame | src/saga/coordinator.py:171-203 | a finished confirm repeated with its key returns the same session from the cache, whatever the services answer, and counts nothing |
| Sections.TallyAllAdds | src/observability/saga_events.py:42-66 | the events of a section are counted one after another, in order |
| Sections.TallyAllOne | src/observability/saga_events.py:42-66 | no event counts nothing, and one counts as itself |
| Sections.FoundOrderEnds | src/saga/coordinator.py:509-556 | the completion of a looked-up order ends RECONCILED, counted so, iff the fulfil loop returns True, and FULFILL_PENDING otherwise |
| Sections.LookupEnded | src/saga/steps/reconcile.py:19-34 | a lookup loop inside a section has the effect of its result |
| Sections.FulfillEnded | src/saga/steps/finalize.py:26-46 | a fulfil loop inside a section has the effect of its result |
| Sections.ReleaseEnded | src/saga/steps/compensate.py:25-35 | a release loop inside a section has the effect of its result |
| Scripts.ConfirmLooks | src/saga/coordinator.py:239-267 | a confirm of a HELD, unpinned, unexpired session with lines and a name asks once for its order: any failure of that lookup is compensated for, an order it finds is completed as reconciled |
| Scripts.ConfirmPosts | src/saga/coordinator.py:261-290 | after an empty lookup it posts the name, the reference and the frozen lines one by one under its key: a stored order is completed, a POST dropped or refused with any status but 409 is compensated for and its own failure raised |
| Scripts.ConfirmAfterConflict | src/saga/coordinator.py:425-432 | after a 409 at most three lookups follow over empty and timed-out answers: a found order is completed as reconciled; a third empty one is compensated for as the 409, a third timeout as a timeout, any other error as itself |
| Scripts.ConfirmAfterTimeout | src/saga/coordinator.py:433-443 | after a timed-out POST the same three lookups: a found order is completed, three empty answers are compensated for, and a third timeout or any other error pins the key, keeps the hold and raises an unknown status |
| Scripts.ConfirmPinned | src/saga/coordinator.py:224-234 | a confirm of a HELD session with its own key pinned looks the order up at most three times, completes it if found, and otherwise leaves the session as it is with its status unknown |
| Scripts.ConfirmPending | src/saga/coordinator.py:208-218 | a confirm of a FULFILL_PENDING session with its key: CONFIRMED, cached and counted after up to two timed-out fulfils and a settled one; unchanged after three timeouts or any other error |
| Scripts.ConfirmRefused | src/saga/coordinator.py:219-241 | what a confirm refuses before any call, and with which error: state, key, lines, expiry, then name |
| Scripts.ConfirmReplayed | src/saga/coordinator.py:171-203 | for any session and cached record: the repair of order and state, and the fulfils that follow, after which a pending session is confirmed and one that is over is returned as it is |
| Scripts.AbandonReleases | src/saga/coordinator.py:311-327 | an abandon of a HELD session ends ABANDONED after up to two timed-out releases and then ok, 404 or 409; a third timeout is an incomplete compensation and any other error is raised, with nothing saved |
| Scripts.AbandonWithoutCall | src/saga/coordinator.py:298-327 | any other abandon makes no call: a session with nothing held is abandoned, one that is over or pending is refused |
| Scripts.HoldAsks | src/saga/coordinator.py:120-161 | a hold section reads the stock; a line it does not cover ends it, a covered cart or a failed read asks for product and quantity of every line; a refusal is counted only if it is an answer, and a made hold freezes name, expiry and lines in a HELD session |
| Scripts.HoldRefused | src/saga/coordinator.py:124-127 | a hold section of a session that is not CREATED is refused without a call |
| Scripts.PlaceHoldStarts | src/saga/coordinator.py:81-114 | what place_hold refuses before its lock, in order: empty cart, bad cart, unknown session, wrong state |
| Scripts.PlaceOrderStarts | src/saga/coordinator.py:338-412 | place_order's replay and its repair, its refusals, and the name and key it goes on with: the name given, or the session's, or a placeholder |
| Scripts.GatedConfirmStarts | src/checkout/service.py:247-254 | when the service's confirm looks at the hold first, and what each answer leads to |
| Scripts.MissingSession | src/saga/coordinator.py:205-207 | whatever gets the lock of a session that is not there raises that it was not found |
| Retries.FindOrderByReference | src/saga/steps/reconcile.py:11-34 | for every retry limit and reply script: goes on exactly over empty and timed-out lookups, None only after a last empty lookup, a timeout exactly when the last allowed lookup timed out, at most max_retries + 1 calls, triangular back-off, and the trailing raise is unreachable |
| Retries.FindRunMeans | src/saga/steps/reconcile.py:19-34 | attempt by attempt the loop yields a result if and only if the replies are as that result's description says |
| Retries.ReleaseHoldSafe | src/saga/steps/compensate.py:14-35 | True exactly on some timeouts followed by ok, 404 or 409; False exactly on max_retries + 1 timeouts; any other error raised at once |
| Retries.ReleaseRunMeans | src/saga/steps/compensate.py:25-35 | the same, attempt by attempt, as an if and only if |
| Retries.FulfillHoldSafe | src/saga/steps/finalize.py:18-46 | True exactly on some timeouts followed by ok, 404 or 409; False otherwise; never raises |
| Retries.FulfillRunMeans | src/saga/steps/finalize.py:26-46 | the same, attempt by attempt, as an if and only if |
| Retries.BackOffSum | src/saga/steps/compensate.py:25-34 | a loop that uses all its m retries sleeps 1 + 2 + ... + m steps |
| InventoryLaws.StockConserved | docker/mock-upstreams/ihms/app.py:141-219 | over every sequence of requests with positive quantities, shelf plus reserved is constant for every product and no level is negative |
| InventoryLaws.CreateConserves | docker/mock-upstreams/ihms/app.py:149-181 | creating a hold moves units from the shelf to the hold; the only leak is a request that meets an unknown product in the second loop, and it loses exactly what was deducted before |
| InventoryLaws.ReleaseConserves | docker/mock-upstreams/ihms/app.py:197-208 | releasing a hold conserves every product |
| InventoryLaws.FulfillConserves | docker/mock-upstreams/ihms/app.py:211-219 | fulfilling a hold conserves every product |
| InventoryLaws.CreatePositive | docker/mock-upstreams/ihms/app.py:149-181 | with positive quantities a hold is made iff every line fits, refused without a trace otherwise, and levels stay non-negative |
| InventoryLaws.ReservesOrderedIffDistinct | docker/mock-upstreams/ihms/app.py:158 | a hold reserves the ordered quantity of every product iff its lines name distinct products |
| InventoryLaws.HoldTakesLast | docker/mock-upstreams/ihms/app.py:149-168 | of several lines for one product the hold reserves the last one's quantity, and the shelf loses exactly that |
| InventoryLaws.ReserveOrderGrows | docker/mock-upstreams/ihms/app.py:158 | products are reserved in the order of first appearance: more lines only add to the end |
| InventoryLaws.HoldMadeIs | docker/mock-upstreams/ihms/app.py:149-181 | a hold is refused iff some line alone asks for more than there is, without a trace; one that is made is active for 900 seconds, keeps its lines, and touches no other hold or product |
| InventoryLaws.CrashIs | docker/mock-upstreams/ihms/app.py:167-168 | a covered request crashes iff it has a line for an unknown product, and records no hold |
| InventoryLaws.ReleaseIs | docker/mock-upstreams/ihms/app.py:197-208 | 404, 409 and 204 of a release as an iff of what is stored; 204 removes the hold and puts back exactly what it reserved |
| InventoryLaws.FulfillIs | docker/mock-upstreams/ihms/app.py:211-219 | 404 and 200 of a fulfil as an iff; only the status of that hold changes |
| InventoryLaws.GetIs | docker/mock-upstreams/ihms/app.py:184-194 | 404, 409 and 200 of a look at a hold, each as an iff |
| Inventory.IhmsService.Gather | docker/mock-upstreams/ihms/app.py:149-165 | the first loop refuses exactly the requests with a line over its level, and otherwise notes the last quantity per product (InventoryLaws.ReserveTakesLast) in first-seen order |
| Inventory.IhmsService.TakeOut | docker/mock-upstreams/ihms/app.py:167-168 | the second loop deducts product by product up to the first unknown one |
| Inventory.IhmsService.CreateHold | docker/mock-upstreams/ihms/app.py:141-181 | new state and answer of the endpoint, the forced 409 included; what the state is, is given by InventoryLaws.HoldMadeIs and HoldTakesLast |
| Inventory.IhmsService.ReleaseHold | docker/mock-upstreams/ihms/app.py:197-208 | new state and status: 404, 409 for a fulfilled hold, or restocked and 204 |
| Inventory.IhmsService.FulfillHold | docker/mock-upstreams/ihms/app.py:211-219 | new state and status: 404, or fulfilled and 200 |
| Inventory.IhmsService.GetHold | docker/mock-upstreams/ihms/app.py:184-194 | status 404, 409 or 200, and no change |
| Orders.StoreStaysConsistent | docker/mock-upstreams/ecops/app.py:70-113 | over every request sequence with fresh order ids: every key points to a stored order, order ids and client references stay distinct, no order is dropped or changed |
| Orders.KeyIsSticky | docker/mock-upstreams/ecops/app.py:80-87 | a used key answers its original order for the same body and 409 for any other valid one, without a change |
| Orders.CommittedIsVisible | docker/mock-upstreams/ecops/app.py:102-113 | a POST that committed, answered or hanging, is what the next lookup finds and the only order of its reference |
| Orders.CreateOutcome | docker/mock-upstreams/ecops/app.py:70-113 | a POST stores its order or changes nothing, and success returns an order of its own body and reference |
| Orders.ConflictOnFreshRef | docker/mock-upstreams/ecops/app.py:79-100 | for an unused reference a valid POST fails exactly when its key stands for a stored order |
| Orders.OrdersForMeans | docker/mock-upstreams/ecops/app.py:49-53 | the list for a reference holds exactly the orders that carry it |
| Orders.PostIs | docker/mock-upstreams/ecops/app.py:70-113 | the whole answer of a POST in the order of its checks, with the 409 for a used key and a different body and the 409 for a used reference under a new key |
| Orders.FirstForIs | docker/mock-upstreams/ecops/app.py:49-53 | a lookup by reference takes the order that was stored first |
| Orders.EcopsService.ListOrders | docker/mock-upstreams/ecops/app.py:49-53 | the listed orders, in order |
| Orders.EcopsService.CreateOrder | docker/mock-upstreams/ecops/app.py:70-113 | new state and answer of the endpoint, in every scenario |
| Cart.MergeQuantities | src/saga/coordinator.py:87-89 | SKUs in first-seen order, each with the sum of its quantities (Cart.QuantityAdds, Cart.QuantityOne) |
| Cart.QuantityAdds | src/saga/coordinator.py:87-89 | what a cart asks of a SKU is additive over any split of the cart |
| Cart.QuantityOne | src/saga/coordinator.py:87-89 | one item asks for its own quantity of its own SKU, and an empty cart for nothing |
| Cart.FirstSeenInOrder | src/saga/coordinator.py:87-92 | merged SKUs come in the order of their first occurrence |
| Cart.LinesForMeans | src/saga/coordinator.py:91-105 | lines are built iff every SKU is in the catalog with an acceptable quantity and price, one per SKU with its product and sum |
| Cart.FirstBadSku | src/saga/coordinator.py:91-105 | the first SKU that cannot be held decides the error: unknown product or a line that is not valid |
| Cart.BuildLines | src/saga/coordinator.py:87-105 | the lines, or the first error the loop meets |
| Cart.CartRequest | src/saga/coordinator.py:87-119 | the hold request of an accepted cart has one positive line per SKU in first-seen order with its sum, and over an injective catalog reserves exactly the ordered quantities |
| Cart.CartAdds | src/saga/coordinator.py:87-119 | however a cart is split, each line and each item of the hold request asks for the sum of what the parts ask |
| Cart.AssertSufficientStock | src/saga/coordinator.py:637-649 | on given levels, the first line short of stock, if any |
| Coordinator.SagaCoordinator.AssertSufficientStockForLines | src/saga/coordinator.py:628-649 | one read of the inventory; the first line short of stock, and none when the read fails |
| Coordinator.SagaCoordinator.EnterLock | src/session/store.py:38-45 | the lock is held afterwards, and nothing changed if it was free and nobody waited |
| Cart.StockCheckExact | src/saga/coordinator.py:628-649 | on the same inventory the pre-check stops exactly the requests the service would refuse, unknown products included, and a refusal changes nothing |
| Coordinator.SagaCoordinator.PlaceHold | src/saga/coordinator.py:74-161 | the checks before the lock read the state at the call; from the state in which the lock was granted on, stores, counters, calls and answer are those of its program over the replies it got, which Scripts.PlaceHoldStarts and Scripts.HoldAsks give case by case |
| Coordinator.SagaCoordinator.HoldLocked | src/saga/coordinator.py:129-161 | the same for the locked part of place_hold |
| Coordinator.SagaCoordinator.Confirm | src/saga/coordinator.py:163-290 | from the state in which the lock was granted on, the same for confirm, whose cases are the Scripts.Confirm rows |
| Coordinator.SagaCoordinator.ReplayLocked | src/saga/coordinator.py:171-203 | the same for a confirm served from the cache |
| Coordinator.SagaCoordinator.ConfirmLocked | src/saga/coordinator.py:205-243 | the same for a confirm with no cached record |
| Coordinator.SagaCoordinator.OrderLocked | src/saga/coordinator.py:245-267 | the same for the try block of confirm (Scripts.ConfirmLooks, Scripts.ConfirmPosts) |
| Coordinator.SagaCoordinator.OrderFailed | src/saga/coordinator.py:268-290 | the same for its except clauses, in their order |
| Coordinator.SagaCoordinator.CreateOrderWithRetry | src/saga/coordinator.py:415-443 | one POST and, on 409 or a timeout, a lookup; the result decides what confirm does next, as in Scripts.ConfirmPosts, ConfirmAfterConflict and ConfirmAfterTimeout |
| Coordinator.SagaCoordinator.ResolveExistingOrderAttemptLocked | src/saga/coordinator.py:481-507 | a pinned attempt is completed as reconciled or stays unknown |
| Coordinator.SagaCoordinator.CompleteOrderAfterCreateLocked | src/saga/coordinator.py:509-556 | fulfil, then finalise or record the pending fulfil |
| Coordinator.SagaCoordinator.RetryFulfillPendingLocked | src/saga/coordinator.py:558-606 | fulfil again, then confirm or stay pending |
| Coordinator.SagaCoordinator.FinalizeSuccessLocked | src/saga/coordinator.py:445-479 | saves the terminal session and its record, or raises and changes nothing |
| Coordinator.SagaCoordinator.CacheConfirmResponse | src/saga/coordinator.py:608-626 | stores the record of the given session and state |
| Coordinator.SagaCoordinator.CompensateAndFailLocked | src/saga/coordinator.py:651-678 | release, then compensate or raise |
| Coordinator.SagaCoordinator.Abandon | src/saga/coordinator.py:292-327 | from the state in which the lock was granted on, the whole of abandon is its program over the replies it got, which Scripts.AbandonReleases and Scripts.AbandonWithoutCall give case by case |
| Coordinator.SagaCoordinator.PlaceOrder | src/saga/coordinator.py:329-413 | the replay, or a hold section followed by a confirm section, or a confirm section, each from the state in which its lock was granted; Scripts.PlaceOrderStarts, Scripts.HoldAsks and the Scripts.Confirm rows give the cases |
| Service.CheckoutService.CreateSession | src/checkout/service.py:145-147 | a fresh CREATED session is stored and nothing else changes |
| Service.CheckoutService.ValidateHoldActive | src/saga/coordinator.py:704-723 | one read of the hold; 404 and 409 become an expired hold, other failures are raised |
| Service.CheckoutService.Confirm | src/checkout/service.py:240-254 | the hold check for an unpinned held session, without a lock and without a change when it fails, then the coordinator's confirm |
| Metrics.MetricsRegistry.Increment | src/observability/metrics.py:32-36 | adds to the named counter and no other |
| Metrics.MetricsRegistry.RecordConfirmSuccess | src/observability/saga_events.py:50-54 | counts a success, and a reconciliation with it |
| Metrics.TallyIs | src/observability/saga_events.py:42-66 | every event moves its own counter by one and no other, a reconciled success both of its two |
| Metrics.AddIs | src/observability/metrics.py:32-36 | an increment moves the named counter by the amount and no other |
| Stores.InMemorySessionStore.Save | src/session/store.py:23-25 | the session is stored under its id |
| Stores.InMemorySessionStore.Get | src/session/store.py:27-28 | the stored session, if any |
| Stores.LockedSessionStore.LockFor | src/session/store.py:38-45 | makes a free lock on first use and leaves all others |
| Stores.InMemoryIdempotencyStore.Get | src/saga/idempotency.py:29-30 | the record of that session and key, if any |
| Stores.InMemoryIdempotencyStore.Put | src/saga/idempotency.py:32-33 | the record replaces that of its session and key only |

## Left out

- HTTP routes, clients, headers, logging, settings, Docker, Prometheus output and the React UI: plumbing and
  libraries; of the gateway clients the error classes and their order are kept, since they decide branches.
- Live catalogs and their fallbacks (`src/catalog`): a catalog is any map from SKU to product, given per call.
- Cancellation of a running task, process crashes, and upstream effects that happen after the call that
  caused them has returned: outside the fault model above.
- An order service that stores orders without their client reference, as `docs/adr/ADR-008-reconciliation-timeout.md`
  describes the frozen API: the stand-in service, which keeps references, is modelled.
- `LockedSessionStore.mutate`, the test-only endpoints and listing orders without a reference: not used by the saga.
  The scenarios of the order service are modelled in `Orders.dfy`.
- Coordinator.SagaCoordinator.PlaceHold: does not let other sessions' operations change the stores at the awaits
  under its lock; they do so in the concurrent layer.
- Coordinator.SagaCoordinator.Confirm: the same.
- Coordinator.SagaCoordinator.Abandon: the same.
- Coordinator.SagaCoordinator.PlaceOrder: the same.
- Service.CheckoutService.Confirm: the same; at the look at the hold and while it waits for the lock they may.
- The concurrent layer keeps each session's records beside the session, and takes any waiting operation next where
  the source queues them.
- Identifiers are opaque and never empty, prices are whole numbers, times are integers, back-off is counted in
  steps of 0.05 s, and the customer name given to place_order is taken as already stripped.
- Metrics.MetricsRegistry.Increment: does not model the error for an unknown counter name, because counters are
  an enumeration.
- Progress under unfair scheduling: `Recovery.NoDeadlock` shows that some operation can always move, not that a
  given one ever does.
