# Verification of the Stripe payment provider

This project models how the provider keeps Kubernetes objects and Stripe in step, and proves what
holds over every run of it. It is written in Dafny 4.11; `dafny verify dfyconfig.toml` checks it.

## What is modelled

**One Stripe Customer per account** (`customer_protocol.dfy`, `customer_invariants.dfy`,
`customer_theorems.dfy`, `customer_accounting.dfy`, `customer_isolation.dfy`, `customer_runs.dfy`,
`customer_status.dfy`, `stripe_customers.dfy`, `key_locks.dfy`, `customer_metadata.dfy`, `sibling_lookup.dfy`).
Any number of `Ensure` calls run at once. A state holds the lock table, one stack frame per call, the
StripeCustomer objects of the API server, the customers Stripe holds and the customer IDs recorded on
StripePaymentMethods. Every remote call is one action. It may fail before or after taking effect, a
search may leave out any customer, a StripeCustomer may be deleted at any point, and a call may panic
or be lost at any point. A run is any sequence of possible actions. `StripeCustomersCode` is the same
protocol as the code writes it, statement by statement, with arbitrary steps of other callers
between its remote calls; each method is proved to extend a run of the protocol, so every theorem
about runs is about the code. `CustomerMetadata` and `SiblingLookup` connect the protocol's abstract
customers and sibling lookup to the metadata and the listing the code works on.

**The payment-method lifecycle** (`payment_method_status.dfy`, `payment_method_lifecycle.dfy`,
`payment_method_agreement.dfy`, `payment_method_records.dfy`, `payment_method_code.dfy`). A
StripePaymentMethod and its parent PaymentMethod are written by reconcile passes and webhook
deliveries through merge patches (RFC 7396) computed from copies that may be stale. Reads and patches
are separate actions. `PaymentMethodCode` is the same as the code writes it; its methods, too, are
proved to extend a run.

**Webhook deduplication** (`deduper.dfy`, `linked_list.dfy`, `webhook_delivery.dfy`). The LRU is a class
over a map and a doubly linked ring of elements, proved against the stack distance over its whole call
history.

**Algorithms around them.** Tax-ID reconciliation (`tax_ids.dfy`), the bounded name list and the
splitter that reads it back (`metadata_names.dfy`), query escaping (`search_query.dfy`), the update filter
(`account_filter.dfy`), the bound-project list (`bound_projects.dfy`) and the deletion budget
(`cleanup.dfy`).

## What turned out differently from the documentation

The model follows the code. Where its documentation or a natural expectation says more, the project
gives the input that breaks the claim and the exact condition under which it holds.

- The repository's README says (line 40) that an account never gets two customers. `TwoCustomers` is
  a run, from any start, in which it does: the first creation is never acknowledged, and the searches
  miss it. `CreatesAnotherIff` says exactly when a creation is a second one, and `CustomersPerAccount`
  bounds how many there can be.
- Accounts keep their customers apart exactly as long as no account is deleted and made again under
  its namespace and name (`KeptApartIff`), because siblings match by account name only
  (`customer_id_lookup.go:185`). From any start with two such accounts, `SharedKeyRetags` is a run in
  which the second takes over the first one's customer.
- `internal/webhook/http.go:37` speaks of at-most-once processing. `RunsAgainIff` says exactly when a
  handler runs again, and `RunsTwice` is such a run for every capacity. `RetryIsDropped` says that an
  event whose handler failed is lost when Stripe retries it.
- The count of failed cleanup attempts is read from an annotation without a range check. At the
  largest 64-bit value the increment wraps and the budget of twelve does not apply
  (`WrapsAround`); `BoundHoldsIff` says that this is the only such value.
- The activity timeline can record an outcome twice when two deliveries overlap
  (`OverlapRecordsTwice`); `TimelineIff` gives the exact condition.
- With overlapping deliveries, the card that confirmed last need not be the one a StripePaymentMethod
  records (`OverlapKeepsOther`); without them it is, and so are the other records (`LastWriteStands`).
- A StripePaymentMethod can be Active and have a client secret: when a reconcile pass is overtaken by
  a confirmation (`ExpiredIntentOvertaken`), also with a failed delivery around its patch
  (`RefusedRejectionOvertaken`), and when it records the first SetupIntent between a confirmation's
  read and its patch (`LateIntentOvertaken`), because a merge patch from a copy without a secret clears
  none. For deliveries that do not overlap, `AgreementIff` gives the exact condition, failed and
  unfinished deliveries included.
- A list whose first name does not fit in 495 bytes is rendered as ", …", so it reads back with an
  empty name in front (`RoundTrip`).

## Model

| member | source | states |
|---|---|---|
| KeyLocks.MutualExclusion | internal/controller/stripe_customers.go:61-71 | two callers that are both between lock and unlock of one key are the same caller |
| KeyLocks.AdvanceInv | internal/controller/stripe_customers.go:61-71 | every step inside `lock` keeps the table consistent: a key that has a mutex keeps it, two keys never share one, and nobody else's place changes |
| KeyLocks.DropInv | internal/controller/stripe_customers.go:68-70 | an unlock, or losing the caller at any stage, frees exactly what that caller had locked; the table, the other callers' places and their mutexes stay |
| KeyLocks.WaitsFor | internal/controller/stripe_customers.go:61-71 | a caller that cannot move waits for the owner of the table mutex, who can, or for the holder of its own key |
| CustomerInvariants.CoreStep | internal/controller/stripe_customers.go:86-214 | every action of any pass and every outside deletion keeps the joint invariant of locks, objects, publications and stack frames |
| CustomerInvariants.RunInv | internal/controller/stripe_customers.go:86-214 | that invariant holds at every point of every run; in particular a pass's snapshot of its StripeCustomer is still the server's when it patches |
| CustomerInvariants.PatchFromCurrent | internal/controller/stripe_customers.go:198-212 | a merge patch computed from what the server still holds leaves exactly the status that was computed |
| CustomerInvariants.PatchMisses | internal/controller/stripe_customers.go:207-212 | a patch that is skipped or refused changes no object and publishes nothing |
| CustomerInvariants.ReadKeepsPass | internal/controller/stripe_customers.go:155-187 | after the uncached read the pass works on the server's own copy of an object its account owns, goes on to create one, or fails |
| CustomerTheorems.CustomersPerAccount | internal/controller/stripe_customers.go:86-151 | in every run the customers created for an account are at most one, plus its unpublished creations, plus the deletions of its published StripeCustomer |
| CustomerTheorems.NewCustomersAreLogged | internal/stripe/client.go:146-157 | the count above misses none: every customer a run adds to Stripe is a counted creation |
| CustomerTheorems.SlotFree | internal/stripe/client.go:132-147 | a pass about to create a customer is the only one with a claim for its account, published or in flight |
| CustomerAccounting.EveryCustomerAccounted | internal/controller/stripe_customers.go:86-151 | at every point of every run, each customer ever created for an account is in a pass's hands, published by the account's live StripeCustomer, never published, or was published by one that was deleted |
| CustomerAccounting.EarlierAreLost | internal/stripe/client.go:132-147 | when another customer is about to be created for an account, every earlier one was never published or lost with its StripeCustomer |
| CustomerAccounting.CreatesAnotherIff | internal/stripe/client.go:146-157 | a creation gives an account a second customer exactly when the log has an earlier one that was never published, or whose StripeCustomer was deleted |
| CustomerRuns.TwoCustomers | internal/stripe/client.go:146-157 | from every start, for every account, some run creates exactly two customers for it and leaves both at Stripe under its uid |
| CustomerTheorems.PublishedIdPermanent | internal/controller/stripe_customers.go:98-150 | between any two points of a run, the non-empty ID of one StripeCustomer object stays the same, whichever calls fail |
| CustomerTheorems.NamedForever | internal/controller/stripe_customers.go:189-214 | what an object has ever published stays what it published, also after the object is gone |
| CustomerTheorems.ReturnsAgree | internal/controller/stripe_customers.go:113-150 | every ID returned for an object, tax-ID error or not, is the ID the object publishes at any point, and all of them are equal |
| CustomerTheorems.ReadyIsHonest | internal/controller/stripe_customers.go:117-149 | Ready is True only on a StripeCustomer that names its customer |
| CustomerStatus.SyncPublishes | internal/controller/stripe_customers.go:112-149 | in every run, an acknowledged or unnoticed patch whose object is still there leaves: Ready True for CustomerSynced exactly when the pass got as far as the tax IDs, with its customer ID and TaxIDsApplied True for Synced or False for StripeRejected as Stripe answered; otherwise Ready False for StripeError, the ID the pass started from and the tax-ID condition as it was; an ID that was there stays |
| CustomerStatus.SyncAnswers | internal/controller/stripe_customers.go:113-150 | the call comes back with the customer ID exactly when the pass got as far as the tax IDs and the patch was acknowledged, and with the word on the tax IDs |
| CustomerStatus.WritesTakeEffect | internal/stripe/client.go:140-165 | a create, an update or a new StripeCustomer that is not refused takes effect though its caller may not hear of it, with the account's name, uid and namespace on it |
| CustomerStatus.KnowsAnswer | internal/stripe/client.go:131-166 | a pass comes to its patch from the tax IDs, knowing whether Stripe took them, or from a search, create or update that Stripe failed, knowing that |
| CustomerStatus.PassWaits | internal/controller/stripe_customers.go:86-151 | whatever others do, a pass is moved by its own actions only |
| CustomerTheorems.OneMutexPerKey | internal/controller/stripe_customers.go:61-71 | over a whole run a key keeps the mutex it first got |
| CustomerTheorems.OnePassPerKey | internal/controller/stripe_customers.go:91 | at every point of every run, two passes past the lock work on different accounts' keys |
| CustomerTheorems.NoDeadlock | internal/controller/stripe_customers.go:61-71 | at every point of every run, each unfinished pass can take its next step, or waits on a pass that can and that owns the table mutex or works under the same key |
| CustomerTheorems.MovesBounded | internal/controller/stripe_customers.go:86-151 | between any two points of a run at which a thread starts no other call, its actions number at most the rank it loses |
| CustomerTheorems.PassesEnd | internal/controller/stripe_customers.go:86-151 | however calls interleave, every single Ensure call takes at most thirteen actions, waiting excluded |
| CustomerIsolation.IsoStep | internal/stripe/client.go:131-222 | with one account per namespace and name, every action keeps customers apart: objects, siblings, passes, publications and returned IDs carry their own account's uid |
| CustomerIsolation.UpdateTarget | internal/stripe/client.go:159-165 | stamping the customer a pass is about to update takes it from no other pass |
| CustomerIsolation.NeverRetagged | internal/stripe/client.go:173-185 | from every untangled start with one account per namespace and name, a customer stamped with one uid keeps it to the end of every run |
| CustomerIsolation.PublishedForOneAccount | internal/controller/stripe_customers.go:180-185 | from every such start, no customer ID is ever published for two account uids, nor on a live object of another owner |
| CustomerRuns.KeptApartIff | internal/controller/stripe_customers.go:180-185 | from an untangled start, every run keeps every customer's uid and publishes none for two accounts, if and only if no two accounts that ever exist share a namespace and name |
| CustomerRuns.SharedKeyRetags | internal/controller/customer_id_lookup.go:185-187 | from every start with two accounts of one namespace and name, some run gives the first one's customer to the second and publishes it for both |
| CustomerRuns.TaintedSiblingRetags | internal/controller/customer_id_lookup.go:174-189 | from every start in which a sibling holds a customer with another account's uid, some run takes that customer over |
| CustomerRuns.RecreatedAccountRetags | internal/controller/customer_id_lookup.go:185-187 | such a start, with one account per name and everything but the siblings untangled: a recreated account and a StripePaymentMethod that outlived its predecessor |
| StripeCustomersCode.StripeCustomers.Ensure | internal/controller/stripe_customers.go:86-151 | the code is a run of the protocol; the lock is free again on every path that got it; an ID that comes back is the one the account's object publishes, and the object then has Ready True for CustomerSynced and TaxIDsApplied True or False as the answer says; after a recorded Stripe failure it has Ready False for StripeError and the tax-ID condition it had |
| StripeCustomersCode.StripeCustomers.EnsureLocked | internal/controller/stripe_customers.go:93-150 | under the lock, an answer is the result the protocol's pass reached and any error means it reached none; the object shows which |
| StripeCustomersCode.StripeCustomers.SyncAndPublish | internal/controller/stripe_customers.go:110-150 | there is an answer or a recorded Stripe failure exactly when the status patch was the last action and went through, and the object shows its conditions |
| StripeCustomersCode.StripeCustomers.EnsureCustomer | internal/stripe/client.go:131-166 | without a Stripe failure the returned ID is non-empty, is the one worked on, and is the given ID when there was one |
| StripeCustomersCode.StripeCustomers.Prepare | internal/controller/stripe_customers.go:98-109 | under the lock, the pass starts from the published ID or a sibling's, and goes on to search exactly when it has neither |
| StripeCustomersCode.StripeCustomers.GetOrCreate | internal/controller/stripe_customers.go:155-187 | the returned status is the one of an object under the account's key that, unless it was deleted since, the server holds with that status and this account as owner; anything else ends the pass with an error |
| StripeCustomersCode.StripeCustomers.PatchStatus | internal/controller/stripe_customers.go:191-214 | the pass ends with its ID, or with an error when the patch failed or Stripe did; a patch that went through leaves the ID and the two conditions that Ensure hands it |
| StripeCustomersCode.StripeCustomers.AcquireLock | internal/controller/stripe_customers.go:61-71 | when it returns with the lock the pass is past it; until then it is still waiting, whatever others do |
| StripeCustomersCode.StripeCustomers.Unlock | internal/controller/stripe_customers.go:91 | the pass and its place in the lock table are gone, and an ID it returns is published |
| StripeCustomersCode.StripeCustomers.FindCustomerByBillingAccount | internal/stripe/client.go:203-222 | an error in either search ends in a Stripe failure, and otherwise the pass goes on to write the customer found, or a new one |
| StripeCustomersCode.StripeCustomers.SearchBy | internal/stripe/client.go:203-244 | a customer that comes back exists and matches the uid, or the legacy rule; a search leads to it, to the next search, or to a Stripe failure |
| CustomerMetadata.BillingAccountMetadata | internal/stripe/client.go:173-185 | in any iteration order the tags are exactly the non-empty ones of the three identity values |
| CustomerMetadata.ApplyCustomerDetails | internal/stripe/client.go:260-314 | keys set before stay, the four described keys are always sent, name, e-mail and address only when present, default card and invoice fields always |
| CustomerMetadata.BuildParams | internal/stripe/client.go:140-144 | what is sent is the identity tags and the described keys, neither overwriting the other, and the fields of the details, name and e-mail only when present |
| CustomerMetadata.LastSyncCounts | internal/stripe/client.go:277-293 | after any number of syncs of an account the metadata is what the last one alone would have left |
| CustomerMetadata.SyncGets | internal/stripe/client.go:173-293 | what a sync leaves under each of the seven keys: the account's name, namespace and uid where given, both names, and the two rendered lists |
| CustomerMetadata.SyncSpares | internal/stripe/client.go:277-293 | a sync leaves every other key as it was |
| CustomerMetadata.AcceptedIff | internal/stripe/client.go:212-221 | a customer left by an earlier sync is accepted by the legacy search exactly when its uid is the account's or, without one, when the namespace is among the organizations that were kept |
| CustomerMetadata.UidHitIff | internal/stripe/client.go:205-210 | the uid search may return exactly the customers that carry the account's uid |
| CustomerMetadata.NeverUntagged | internal/stripe/client.go:168-172 | no sync takes away a customer's identity tags, and foreign keys keep their values |
| CustomerMetadata.SyncStamps | internal/stripe/client.go:140-165 | whatever a customer carried, a sync leaves exactly the tags the protocol stamps |
| CustomerMetadata.AcceptsIsNameHit | internal/stripe/client.go:212-221 | the legacy match closure accepts exactly the customers the protocol lets the search return |
| SiblingLookup.FindExistingCustomerID | internal/controller/customer_id_lookup.go:140-156 | the ID of the first StripePaymentMethod of the account that recorded one, "" exactly when none did, and an error exactly when the listing failed |
| SiblingLookup.AccountStripePaymentMethods | internal/controller/customer_id_lookup.go:162-191 | exactly the listed StripePaymentMethods whose PaymentMethod could be read and is bound to the account, in order, and nothing when the listing failed |
| SiblingLookup.FirstIsUnique | internal/controller/customer_id_lookup.go:150-155 | a listing has exactly one such answer |
| SiblingLookup.OrderFreeIff | internal/controller/customer_id_lookup.go:150-155 | the listing order decides the answer exactly when two siblings of the account recorded different IDs |
| SiblingLookup.AnswerIsSibling | internal/controller/customer_id_lookup.go:140-156 | whatever a cache that may be behind lists of the namespace's StripePaymentMethods, the answer is one the protocol's lookup may give |
| SiblingLookup.AnswerIff | internal/controller/customer_id_lookup.go:140-191 | an ID is the answer of some such listing exactly when a StripePaymentMethod of the account recorded it, and none is always an answer of some |
| PaymentMethodStatus.PatchStripe | internal/webhook/http.go:321-383 | the copy records the outcome (the card's ID and time of confirmation, the intent's ID and status, the error, the Confirmed condition) and the server ends with the merge of that into what it holds by then |
| PaymentMethodStatus.Project | internal/webhook/http.go:388-485 | the copy records the card and address, or the error's non-empty parts, and the readiness; the parent gets the merge of that, and the timeline one event exactly when the patch was acknowledged and the copy was not there yet |
| PaymentMethodStatus.PatchIntent | internal/controller/stripepaymentmethod_controller.go:217-253 | the copy records the new SetupIntent, its customer and its conditions, and the server ends with the merge of that |
| PaymentMethodStatus.PatchAwaiting | internal/controller/stripepaymentmethod_controller.go:464-484 | a settled parent is left alone; otherwise it gets the merge of AwaitingConfirmation |
| PaymentMethodLifecycle.TimelineIff | internal/webhook/http.go:388-485 | over every run, Attached and Failed alternate and end in the parent's phase exactly when no patch disturbs, which can be read off the patch's copy, the server and the acknowledgement |
| PaymentMethodLifecycle.TimelineStep | internal/webhook/http.go:394-436 | one action keeps the timeline truthful exactly when it does not disturb it |
| PaymentMethodLifecycle.AtomicTimeline | internal/webhook/http.go:388-485 | with each read and patch of the parent as one step, the timeline is truthful after every run |
| PaymentMethodLifecycle.OverlapRecordsTwice | internal/webhook/http.go:430-436 | from every state, two overlapping deliveries of a new outcome record it twice |
| PaymentMethodLifecycle.ReconcileNeverOverwrites | internal/controller/stripepaymentmethod_controller.go:126-253 | in every interleaving, a pass whose copy was read at or after the first AwaitingConfirmation changes neither the phase nor anything confirmation wrote |
| PaymentMethodLifecycle.PatchIntentTouches | internal/controller/stripepaymentmethod_controller.go:217-253 | a reconcile patch never touches what confirmation wrote, and changes the phase exactly when its copy and the server were both not yet awaiting |
| PaymentMethodLifecycle.SettledForever | internal/controller/stripepaymentmethod_controller.go:126-130 | once a StripePaymentMethod is awaiting, active or failed, it is one of these at every later point |
| PaymentMethodAgreement.AgreementIff | internal/webhook/http.go:236-485 | in every run without overlapping deliveries, whichever calls of a delivery or a reconcile pass fail and however passes fall between a delivery's calls: the two objects agree (Active, Failed, InstrumentReady, card, no secret when Active) except while a delivery has written one and not yet the other, and every outcome shows where it was written, exactly when no action is overtaken |
| PaymentMethodAgreement.AgreementBetweenIff | internal/webhook/http.go:236-485 | the same exact condition when nothing is asked of a delivery under way, for runs that do not stop in the middle of one: what is overtaken cannot be put right |
| PaymentMethodAgreement.AgreementStep | internal/webhook/http.go:236-485 | one action, failing or not, keeps agreement exactly when it is not overtaken |
| PaymentMethodAgreement.OvertakenBreaks | internal/controller/stripepaymentmethod_controller.go:217-253 | what an overtaken action breaks shows at once, or when the delivery it spoiled ends, whatever follows |
| PaymentMethodAgreement.LateIntentOvertaken | internal/webhook/http.go:241-271 | from every coherent start without a SetupIntent, a run in which the first one is recorded between a confirmation's read and its patch ends with an Active object that has a client secret |
| PaymentMethodAgreement.ExpiredIntentOvertaken | internal/controller/stripepaymentmethod_controller.go:132-155 | from every coherent start with an expired SetupIntent, a run in which the pass is overtaken by the confirmation ends with an Active object that has a client secret |
| PaymentMethodAgreement.RefusedRejectionOvertaken | internal/webhook/http.go:277-288 | from the same starts, a later rejection whose first patch is refused does not help: the run ends with no call under way and an Active object that has a client secret |
| PaymentMethodAgreement.CrossingDisagrees | internal/webhook/http.go:271-294 | from every start, two deliveries of different outcomes that cross leave the two objects in different phases |
| PaymentMethodAgreement.DeliveryCoherentIff | internal/webhook/http.go:271-294 | a delivery that nothing interrupts ends in agreement from any state, except when it brings no card and the cards differed before |
| PaymentMethodAgreement.DeliveryIsRun | internal/webhook/http.go:236-295 | such a delivery is a run of its four remote calls |
| PaymentMethodAgreement.HalfDeliveredIff | internal/webhook/http.go:271-274 | from agreement, a delivery that ends after its first patch leaves agreement exactly when it had nothing new to say |
| PaymentMethodRecords.SuccessRecorded | internal/webhook/http.go:321-446 | a success that nothing interrupts leaves, field by field: Active, the card's ID, the time, the intent's ID and status, no secret and Confirmed True; the parent Active and ready; a card with its address when it is one; one Attached event unless the parent was Active; everything else as it was |
| PaymentMethodRecords.RejectionRecorded | internal/webhook/http.go:358-485 | a rejection that nothing interrupts leaves: Failed, the intent's ID and status, the error's code and message, Confirmed and readiness False; the parent keeps what the error leaves empty; everything else as it was |
| PaymentMethodRecords.IntentRecorded | internal/controller/stripepaymentmethod_controller.go:217-253 | a pass that mints a SetupIntent leaves its ID, secret, status and expiry, the customer, both conditions and AwaitingConfirmation, and nothing of a confirmation changed |
| PaymentMethodRecords.AwaitingRecorded | internal/controller/stripepaymentmethod_controller.go:464-484 | the end of a pass leaves a parent that had none of the three phases awaiting and not ready, the rest as it was |
| PaymentMethodRecords.ParentLeftAlone | internal/controller/stripepaymentmethod_controller.go:464-473 | the parent is moved on exactly when it had none of the three phases |
| PaymentMethodRecords.MintsIff | internal/controller/stripepaymentmethod_controller.go:132-155 | in every interleaving, a pass on an object that is neither Active nor Failed, and that goes on, mints a new SetupIntent exactly when the copy it read has no secret or an expiry before the time of the read |
| PaymentMethodRecords.SettledIsLeft | internal/controller/stripepaymentmethod_controller.go:126-130 | a pass that reads Active or Failed does nothing else |
| PaymentMethodRecords.LastWriteStands | internal/webhook/http.go:321-485 | in every run in which deliveries do not overlap, at every point: the card's ID and time, the card, the failure, and the parent's card with its address, failure reason and failure message are each what the last delivery says whose patch took effect and carried it |
| PaymentMethodRecords.NeverWritten | internal/webhook/http.go:321-485 | and between such patches each of them stays as it was, whatever passes and other deliveries do |
| PaymentMethodRecords.ConfirmationStandsIff | internal/webhook/http.go:321-352 | in any run, a success that lands is recorded exactly when whatever part of it the copy already had the server still has |
| PaymentMethodRecords.OverlapKeepsOther | internal/webhook/http.go:321-352 | with overlapping deliveries the card that confirmed last need not be the one recorded |
| PaymentMethodRecords.MergeLaws | internal/webhook/http.go:321-485 | a patch without a change leaves the server as it is, and a patch sent twice is one sent once |
| PaymentMethodCode.Provider.Reconcile | internal/controller/stripepaymentmethod_controller.go:126-155 | the code is a run of the lifecycle however others interleave; on a terminal phase it only reads, and otherwise, if it goes on, it mints a new SetupIntent exactly when the object it read has no secret or an expiry that has passed |
| PaymentMethodCode.Provider.ReconcileSetupIntent | internal/controller/stripepaymentmethod_controller.go:158-262 | a pass that needs a SetupIntent runs to its end, or ends with an error at any call |
| PaymentMethodCode.Provider.EnsurePaymentMethodAwaiting | internal/controller/stripepaymentmethod_controller.go:464-484 | the parent's half of the pass is a run of the lifecycle |
| PaymentMethodCode.Provider.Deliver | internal/webhook/http.go:236-295 | a delivery is a run of the lifecycle, failing at any call; one about no StripePaymentMethod is acknowledged or fails without an action, and any other succeeds only when its projection was acknowledged |
| PaymentMethodCode.Provider.Find | internal/webhook/http.go:297-319 | a fresh copy of the StripePaymentMethod, or none or an error, and then nothing happened |
| PaymentMethodCode.Provider.Retrieve | internal/webhook/http.go:246-254 | a success that gets neither configuration nor card ends before it writes anything |
| LinkedList.List.PushBack | internal/stripe/deduper.go:50 | a fresh element at the back of the ring, everything else in place |
| LinkedList.List.Remove | internal/stripe/deduper.go:47 | the ring without that element, everything else in order |
| LinkedList.List.MoveToBack | internal/stripe/deduper.go:40 | the element's value moves from its place to the back, the others keep their order |
| Deduper.MemoryDeduper.SeenOrRecord | internal/stripe/deduper.go:36-52 | true exactly for an id called before with fewer than `capacity` distinct other ids since, over the whole call history |
| Deduper.MemoryDeduper.constructor | internal/stripe/deduper.go:24-33 | an empty history, and 4096 for a capacity that is not positive |
| Deduper.SeenIffRecent | internal/stripe/deduper.go:36-52 | membership in the LRU order is the stack-distance law, for every history, id and capacity |
| Deduper.OrderIsTail | internal/stripe/deduper.go:39-51 | the bounded order is the most recent part of the unbounded recency order |
| Deduper.OrderBounded | internal/stripe/deduper.go:43-49 | the order repeats no id and never exceeds its capacity |
| Deduper.LargerSeesMore | internal/stripe/deduper.go:24-26 | a larger deduper sees everything a smaller one sees |
| WebhookDelivery.Webhook.ServeHTTP | internal/webhook/http.go:99-206 | each failed check has its status and outcome; a duplicate gets 200; an event whose handler runs gets 200 and Success when its type is not handled or the handler succeeds, else 500 and HandlerError; whether the handler runs is determined by the deliveries so far, and a delivery that fails a check leaves the deduper alone |
| WebhookDelivery.Webhook.Accept | internal/webhook/http.go:163-206 | from the deduper on: what a duplicate, an event nobody handles, a handled one, a failing handler and a panic are answered and counted as |
| WebhookDelivery.RunsAgainIff | internal/webhook/http.go:163-170 | the handler runs again for an id exactly when at least `capacity` distinct other verified ids arrived since the id's last verified delivery |
| WebhookDelivery.FirstDeliveryRuns | internal/webhook/http.go:163-170 | the first verified delivery of an id always runs |
| WebhookDelivery.RunsTwice | internal/webhook/http.go:163-170 | for every capacity and id, the event, `capacity` others and the event again make the handler run twice |
| WebhookDelivery.RetryIsDropped | internal/webhook/http.go:163-170 | an event whose handler ran and failed is answered 500, and its retry is dropped unless at least `capacity` distinct ids came in between |
| MetadataNames.JoinNamesForMetadata | internal/stripe/client.go:333-351 | the loop computes the join of the kept names, with the ellipsis when a name was dropped |
| MetadataNames.KeptIsLongest | internal/stripe/client.go:344-348 | what is kept is the longest prefix whose join fits in 495 bytes |
| MetadataNames.RenderBounded | internal/stripe/client.go:323-326 | no rendered value exceeds 500 bytes |
| MetadataNames.RenderForm | internal/stripe/client.go:328-332 | a list that fits is written whole; otherwise a fitting prefix that one more name would overflow, and the ellipsis |
| MetadataNames.RoundTrip | internal/stripe/client.go:218-220 | splitting and trimming a rendered list gives the list, or the kept names and "…" |
| MetadataNames.JoinSays | internal/stripe/client.go:333-343 | names are joined with a comma and a space |
| MetadataNames.BlankFrontIff | internal/stripe/client.go:219 | in front, exactly one UTF-8 White_Space character is a blank, whole |
| MetadataNames.BlankBackIff | internal/stripe/client.go:219 | and so it is at the end |
| MetadataNames.LegacyMatchIffKept | internal/stripe/client.go:218-220 | a namespace other than "…" is matched exactly when it is among the kept names |
| SearchQuery.EscapeSearchQueryValue | internal/stripe/client.go:249-258 | the loop computes the escaping that the scanner below undoes |
| SearchQuery.ScanUndoesEscape | internal/stripe/client.go:249-258 | scanning a quoted, escaped value stops at exactly its closing quote and yields the value |
| SearchQuery.QueryReads | internal/stripe/client.go:206-213 | a query is the key, a quote, and a string that reads back as the value and ends the query |
| SearchQuery.QueriesDistinct | internal/stripe/client.go:206-213 | two values give the same query exactly when they are equal |
| TaxIds.Customer.ReconcileTaxIds | internal/stripe/client.go:361-407 | a success leaves the synced copies of every key; a failure at any call loses nothing wanted, adds nothing unwanted, and deletes nothing before every creation went through |
| TaxIds.Customer.CreateMissing | internal/stripe/client.go:379-394 | the creating half deletes nothing and adds only wanted keys, also when it fails |
| TaxIds.Customer.DeleteUnwanted | internal/stripe/client.go:395-405 | the deleting half, in any order, takes exactly one copy of every unwanted key and no wanted one |
| TaxIds.OneRunSuffices | internal/stripe/client.go:353-407 | one fault-free run leaves exactly the desired keys if and only if no unwanted key was held twice |
| TaxIds.ConvergesIn | internal/stripe/client.go:353-407 | n fault-free runs leave exactly the desired keys if and only if no unwanted key was held more than n times |
| TaxIds.KeysDistinct | internal/stripe/client.go:366-386 | tax IDs whose types hold no "=" have the same key exactly when they are equal |
| TaxIds.KeySharedIff | internal/stripe/client.go:366-386 | with arbitrary types, a tax ID shares its key with another exactly when its type or value holds a "=" |
| AccountFilter.FilterLosesNothing | internal/controller/billingaccount_controller.go:247-252 | after any watched updates, what was last synced is what the latest version says |
| AccountFilter.PassesIffSyncDiffers | internal/controller/billingaccount_controller.go:265-277 | without a spec change an update passes exactly when a sync would send something else |
| AccountFilter.BlockedChangesNothing | internal/controller/stripepaymentmethod_controller.go:410-458 | an update that is blocked changes neither details nor default card nor whether the account is billed by invoice |
| AccountFilter.BuildDetails | internal/controller/stripepaymentmethod_controller.go:410-458 | the code fills the details in to what the filter compares |
| AccountFilter.DetailsPrecedence | internal/controller/stripepaymentmethod_controller.go:413-456 | the business name and the first invoice address win, both names are kept, tax IDs and address are passed on, the organization is the namespace if there is one |
| AccountFilter.InvoiceFieldsSay | internal/controller/billingaccount_controller.go:163-187 | an invoice field is there exactly when the account is billed by invoice and its terms give the value, the purchase order first |
| BoundProjects.ListBoundProjectNames | internal/controller/customer_id_lookup.go:58-83 | a project that has a name is listed once for each unset or active binding of the account to it, and nothing else; the list is sorted |
| BoundProjects.LeqIff | internal/controller/customer_id_lookup.go:81 | of two names the one that is a prefix, or has the smaller byte where they first differ, comes first |
| BoundProjects.SortedUnique | internal/controller/customer_id_lookup.go:81 | a sorted list is determined by its elements |
| BoundProjects.ProjectsMetadataStable | internal/stripe/client.go:292-293 | names and metadata value are the same for every order in which the bindings are listed |
| Cleanup.StripePaymentMethod.ReconcileDelete | internal/controller/stripepaymentmethod_controller.go:304-376 | a pass leaves the stored object exactly as the specification of one pass says, whichever calls fail, and removes the finalizer under the exact condition of `RemovedIff` |
| Cleanup.CounterRoundTrip | internal/controller/stripepaymentmethod_controller.go:378-386 | every 64-bit count survives being printed to the annotation and scanned back |
| Cleanup.FinalizerGone | internal/controller/stripepaymentmethod_controller.go:339-362 | from count n the finalizer is gone after max(1, 12 - n) successful updates, whatever Stripe and the config answer |
| Cleanup.BoundHoldsIff | internal/controller/stripepaymentmethod_controller.go:339-340 | that bound holds for all answers exactly when the count is not the largest integer |
| Cleanup.WrapsAround | internal/controller/stripepaymentmethod_controller.go:339-340 | at the largest integer the pass that should give up starts over |
| Cleanup.EarlyOnlyWhenClean | internal/controller/stripepaymentmethod_controller.go:330-337 | before the twelfth attempt the finalizer goes only through a pass in which the configuration, the update, the detach of a recorded card and the cancel of a SetupIntent neither succeeded nor canceled all went through |
| Cleanup.RemovedIff | internal/controller/stripepaymentmethod_controller.go:330-362 | one pass removes the finalizer exactly when its update succeeds and either it is the twelfth attempt or later, or configuration, needed detach and needed cancel all succeeded |
| Cleanup.CleanPassEnds | internal/controller/stripepaymentmethod_controller.go:330-337 | any pass in which all of these succeed ends the deletion, whatever came before |
| Cleanup.GivesUpAtTwelfth | internal/controller/stripepaymentmethod_controller.go:339-362 | without a count so far, the finalizer survives n failing passes exactly when n is below twelve |
| Cleanup.RecordsGivingUpIff | internal/controller/stripepaymentmethod_controller.go:340-353 | the object records CleanupIncomplete exactly when a failing pass is the twelfth attempt or later and its status patch succeeds |

## Left out

- HTTP plumbing, signature checking, JSON decoding, the Stripe SDK, metrics, logging, CRD manifests and generated code: their results are inputs of the model.
- Leader election: one live process with one shared `StripeCustomers` is taken as given (cmd/main.go:95-102). A restart is every pass being lost at once.
- Writes by others: nobody but `Ensure` edits a StripeCustomer's status or a customer's tags; deleting a StripeCustomer is modelled.
- Stripe's search may omit any customer but returns its current metadata, and no call returns a customer that does not exist.
- StripeCustomersCode.StripeCustomers.AcquireLock: partial, since a caller may wait as long as others hold the key; `NoDeadlock` says whom it waits on, and `PassesEnd` that those calls end.
- CustomerIsolation.NeverRetagged: starts from stores in which customers without a uid name one organization, and live objects and siblings hold their own account's customers; `KeptApartIff` gives the exact condition from such a start, and `TaintedSiblingRetags` shows why the siblings matter. A sibling that holds a customer without a uid is not covered.
- CustomerIsolation.PublishedForOneAccount: from the same starts as `NeverRetagged`.
- PaymentMethodRecords.LastWriteStands: deliveries for one StripePaymentMethod do not overlap; `OverlapKeepsOther` shows what overlapping ones can do, and `ConfirmationStandsIff` is the exact condition for one patch.
- PaymentMethodAgreement.AgreementIff: deliveries for one StripePaymentMethod do not overlap; `CrossingDisagrees` shows what overlapping ones can do.
- CustomerRuns.KeptApartIff: a PaymentMethod keeps its billing account reference, so a recorded ID stays with the namespace and name whose pass returned it; the lookup would follow a reference that changed (internal/controller/customer_id_lookup.go:185).
- CustomerProtocol: the tax IDs are one step that succeeds or is rejected; `TaxIds` models the step. Observed generations are left out because a StripeCustomer's spec never changes, and condition messages and times carry no decision.
- StripeCustomersCode.StripeCustomers.Interfere and PaymentMethodCode.Provider.Interfere: their contracts admit any steps of others; the code after them is proved for every continuation.
- PaymentMethodStatus: condition reasons, messages and times, and the observed generation, are left out; deletion during the lifecycle is modelled apart, in `Cleanup`.
- TaxIds.KeysDistinct: Stripe's tax-ID types hold no "="; `KeySharedIff` says what holds of any others.
- LinkedList.List.Remove: does not clear the removed element's own links, which nothing reads afterwards.
- Cleanup.CounterRoundTrip: of the blanks `fmt.Sscanf` skips, only space and tab are modelled.
- BoundProjects.SortStrings: `sort.Strings` is an insertion sort on values; the array sorted in place and the algorithm of Go's library are not captured.
- WebhookDelivery.Webhook.ServeHTTP: deliveries come one after the other, as the deduper's mutex orders them; overlapping handlers are the subject of `PaymentMethodLifecycle`. A webhook without a deduper is not modelled.
- AccountFilter.FilterLosesNothing: covers what a sync takes from the account itself; projects and the default card's Stripe ID have their own watches.
- `findDefaultStripePaymentMethodID`, `needsStripeCustomer`, `requeueUntilExpiry` and the response constructors: one branch each.
- `BackfillCustomerName`, the tax-ID table, `setupDeclineReason` and the PaymentMethod watcher.
