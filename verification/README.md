# Demeter daemon core, modelled in Dafny

This project models the event-sourced domain engine of the Demeter daemon.
Commands (`register_apikey`, `create_resource`) check that the namespace
exists and that the caller's credential is valid, then emit an event on an
append-only dispatch queue. Queries (`list_resources`, `read_balance`) apply
the same checks and read the projection store. Event handlers fold the
events into that store, which has four tables:

- namespaces;
- API-key rows of `(digest, salt)`;
- resource rows;
- double-entry accounting rows.

Resource usage debits account 1 (usage) and credits account 2 (pool).
A payment debits account 2 and credits account 3 (settlement).

Two smaller pure cores are modelled alongside:

- the AuthToken controller: which domain action an observed token calls
  for, the status each action writes back, and when the runtime looks again;
- the chain monitor: which transactions are DCU payments, and how each
  becomes a `UsagePaymentV1`.

Every operation is a pure function, `State × Input → (Result, State')`.

- **Hashing.** Argon2 becomes a caller-supplied `Hasher`. It returns
  `None` when hashing fails, and that failure aborts the command.
- **Randomness.** The uuid v4 of a new resource is a caller-supplied
  16-byte value.
- **Integers.** They are unbounded, and the Rust casts are written out:
  - `u64 as i64` is `Base.U64ToI64`;
  - `i64 as u64` is `Base.I64ToU64`;
  - the cast of an unbounded sum is `Base.WrapU64`.
- **Store tables.** They are sequences in insertion order. The namespace
  table is a set. The store's own queries are characterised as multisets
  or counts, because SQL gives no row order. The domain's key scan does
  depend on that order (see `Domain.ScanApiKeys` under "Left out").

Modules, one per file:

| module | file | models |
|---|---|---|
| `Base` | base.dfy | results, bytes, digests, integer casts |
| `Events` | events.dfy | the event union |
| `EventDispatch` | event_dispatch.dfy | the dispatch queue |
| `FabricState` | fabric_state.dfy | the projection store and the ledger |
| `Domain` | domain.dfy | guards, commands, queries, handlers |
| `Scenario` | scenario.dfy | multi-step properties and the end-to-end test |
| `AuthTokens` | authtokens.dfy | the AuthToken controller |
| `DltMonitor` | dlt_monitor.dfy | the DCU payment filter and mapping |

Notes on the code as written:

- **Salt.** API keys are salted with the fixed bytes `somesaltforyou`
  (src/domain/mod.rs:155).
- **Namespace minting.** There is no `MintNamespace` command. A namespace
  only appears through a `NamespaceMintedV1` event submitted from outside.
- **Dispatch.** `submit_event` appends to a queue and returns
  `Result<()>`, always `Ok(())`. It mints no receipt and has no
  subscribers. So the `create_resource` ack carries only the uuid.
- **Event union.** The union has the five variants `handle` matches on
  (src/domain/mod.rs:337-343), with the fields the domain reads and writes.

## Model

| member | source | states |
|---|---|---|
| Base.U64ToI64 | src/domain/mod.rs:283-297 | `as i64` keeps values below 2^63, makes larger ones negative, and is undone by `as u64` |
| Base.I64ToU64 | src/domain/mod.rs:272 | `as u64` keeps non-negative values and otherwise agrees with the value modulo 2^64 |
| Base.WrapU64 | src/domain/mod.rs:272 | a sum reduced modulo 2^64 is the `as u64` cast whenever the sum fits in an `i64` |
| Base.CastRoundTrip | src/domain/mod.rs:272-297 | the two casts are inverse bijections between `i64` and `u64` |
| EventDispatch.Ephemeral | src/driven/event_dispatch/mod.rs:11-15 | a new dispatch holds no entries |
| EventDispatch.SubmitEvent | src/driven/event_dispatch/mod.rs:17-21 | submission always succeeds; the event becomes the one new last entry and earlier entries stay in place |
| EventDispatch.SubmitPreservesOrder | src/driven/event_dispatch/mod.rs:17-21 | two submissions leave the entries in submission order |
| FabricState.Ephemeral | src/driven/fabric_state/mod.rs:29-38 | a fresh store has no namespace, no keys or resources under any namespace, and no ledger rows |
| FabricState.InsertNamespace | src/driven/fabric_state/mod.rs:48-60 | the name exists afterwards; every other name and every other table are unchanged |
| FabricState.NamespaceExistsIffInserted | src/driven/fabric_state/mod.rs:48-75 | after a run of inserts, a name exists iff it existed before or was inserted; other names do not matter |
| FabricState.NamespaceExists | src/driven/fabric_state/mod.rs:62-75 | a name exists iff the namespace table holds a row with that name |
| FabricState.NamespacePersistence | src/driven/fabric_state/mod.rs:152-163 | in a fresh store a name exists iff it was inserted |
| FabricState.InsertApiKey | src/driven/fabric_state/mod.rs:77-91 | exactly the new `(namespace, digest, salt)` row is appended after all earlier rows, even when an identical row is already stored; the other tables are untouched |
| FabricState.KeysOfCounts | src/driven/fabric_state/mod.rs:93-106 | the key query returns each `(digest, salt)` exactly as often as it was stored under that namespace, and nothing stored elsewhere |
| FabricState.GetAllApiKeysForNamespace | src/driven/fabric_state/mod.rs:93-106 | the query returns each `(digest, salt)` as many times as a row with that namespace, digest and salt is stored, and nothing else |
| FabricState.InsertApiKeyQuery | src/driven/fabric_state/mod.rs:77-106 | a new key appears in its own namespace's query and in no other |
| FabricState.ThreeKeysFirstNamespace | src/driven/fabric_state/mod.rs:171-187 | two keys under one namespace and one under another: the first namespace's query gives its two keys |
| FabricState.ThreeKeysSecondNamespace | src/driven/fabric_state/mod.rs:188-192 | in the same store, the second namespace's query gives only its own key |
| FabricState.ApiKeysPersistence | src/driven/fabric_state/mod.rs:165-193 | the store's key test for any two distinct namespaces, with results compared as multisets |
| FabricState.InsertResource | src/driven/fabric_state/mod.rs:108-131 | exactly the new `(namespace, kind, uuid, name, manifest)` row is appended after all earlier rows; the other tables are untouched |
| FabricState.ProjectionsOf | src/driven/fabric_state/mod.rs:133-145 | a listing holds the `(name, uuid, kind)` of every row of the namespace and nothing from any other namespace |
| FabricState.ProjectionsOfCounts | src/driven/fabric_state/mod.rs:133-145 | the listing has one item per row: each `(name, uuid, kind)` occurs exactly as often as rows of the namespace project to it, duplicates included |
| FabricState.ListResources | src/driven/fabric_state/mod.rs:133-145 | `list_resources` returns each projection exactly as often as rows of the namespace carry it |
| FabricState.InsertResourceQuery | src/driven/fabric_state/mod.rs:108-145 | a new resource appears, without its manifest, in its own namespace's listing and in no other |
| FabricState.TransactionRows | src/domain/mod.rs:281-300 | a ledger transaction has one row per delta, each tagged with its epoch, entry, cluster, namespace and resource |
| FabricState.InsertAccounting | src/domain/mod.rs:281-301 | all rows of a transaction are appended together and earlier rows stay |
| FabricState.InsertAccountingEffect | src/domain/mod.rs:281-301 | inserting a transaction moves exactly the per-account totals its deltas name, in its own namespace only |
| FabricState.InsertBalancedPreservesLedger | src/domain/mod.rs:281-301 | a balanced transaction keeps every namespace's debits equal to its credits |
| FabricState.AccountTotalOrderIndependent | src/domain/mod.rs:267-270 | account totals do not depend on the order in which rows were inserted |
| FabricState.AccountsOfAppend | src/domain/mod.rs:267-270 | the accounts of two runs of ledger rows are the union of each run's accounts |
| FabricState.TransactionAccounts | src/domain/mod.rs:281-301 | a transaction's rows name exactly its deltas' accounts, all in its own namespace |
| FabricState.InsertAccountingAccounts | src/domain/mod.rs:281-301 | inserting a transaction adds its deltas' accounts to its own namespace's account set and to no other |
| FabricState.ReadBalance | src/domain/mod.rs:267-270 | the balance view lists exactly the accounts that have a row in the namespace |
| Domain.AssertAvailableNamespace | src/domain/mod.rs:83-91 | passes iff the namespace does not exist; otherwise the error is `NamespaceUnavailable` |
| Domain.AssertExistingNamespace | src/domain/mod.rs:105-113 | passes iff the namespace exists; otherwise the error is `InvalidNamespace` |
| Domain.ScanApiKeys | src/domain/mod.rs:115-131 | accepts at the first key that matches if every earlier key hashed; a failed hash aborts; with no match the error is `InvalidApiKey` |
| Domain.ScanAcceptsIffSomeKeyMatches | src/domain/mod.rs:115-131 | with a hasher that never fails, the scan accepts iff some stored key's digest equals the hash of the secret under that key's salt |
| Domain.AssertValidApiKey | src/domain/mod.rs:115-131 | a namespace with no keys rejects every API key with `InvalidApiKey` |
| Domain.AssertValidCredentials | src/domain/mod.rs:133-145 | an owner signature is always accepted; an API key passes iff some stored key matches, assuming the hasher never fails |
| Domain.CheckAccess | src/domain/mod.rs:150-153 | a missing namespace fails with `InvalidNamespace` before any credential is looked at; otherwise the result is the credential check's |
| Domain.RegisterApiKey | src/domain/mod.rs:147-165 | succeeds iff access is granted and hashing succeeds; a refused access fails with the guard's own error, and a failed hash after granted access fails with `HashingFailed`; on success it emits exactly one `ApiKeyRegisteredV1` with the command's namespace, the fixed salt and the digest of the secret; on failure nothing changes |
| Domain.CreateResource | src/domain/mod.rs:177-210 | succeeds iff access is granted, and fails with the guard's own error otherwise; on success it emits exactly one `ResourceCreatedV1` that copies the command's fields and carries the 16-byte uuid the ack returns; on failure nothing changes |
| Domain.ListResources | src/domain/mod.rs:228-257 | fails exactly as the access check does; otherwise gives one item per stored row, in the queried namespace, with empty spec and status |
| Domain.ReadBalance | src/domain/mod.rs:259-276 | fails exactly as the access check does; otherwise gives the store's balance view after the `as u64` casts |
| Domain.CastBalances | src/domain/mod.rs:267-273 | an id appears in the output iff its `i64` reading is a ledger account; no account is lost or merged, and each total is cast |
| Domain.OnNamespaceMinted | src/domain/mod.rs:93-103 | fails with `NamespaceUnavailable` and no change iff the name exists; otherwise inserts it and changes nothing else |
| Domain.OnApiKeyRegistered | src/domain/mod.rs:167-175 | always succeeds; the key appears in its namespace's query and in no other |
| Domain.OnResourceCreated | src/domain/mod.rs:212-226 | always succeeds; the resource appears in its namespace's listing and in no other |
| Domain.UsageDeltas | src/domain/mod.rs:288-299 | the usage transaction is balanced and moves only account 1 (debit) and account 2 (credit), each by the units |
| Domain.PaymentDeltas | src/domain/mod.rs:316-327 | the payment transaction is balanced and moves only account 2 (debit) and account 3 (credit), each by the units |
| Domain.OnResourceUsage | src/domain/mod.rs:278-304 | appends two rows tagged with the event and its resource; account totals change only by the usage effect |
| Domain.OnUsagePayment | src/domain/mod.rs:306-332 | appends two rows tagged with the event and no resource; account totals change only by the payment effect |
| Domain.Apply | src/domain/mod.rs:337-343 | each event changes only its own table: a mint adds exactly its name, a registration appends exactly its key row, a creation appends exactly its resource row, usage and payments append two ledger rows; only a repeated mint fails, with `NamespaceUnavailable` and nothing changed |
| Domain.Handle | src/domain/mod.rs:334-344 | only the store changes, and it becomes what the event's own handler produces; handling fails, with nothing changed, iff the event re-mints an existing namespace |
| Domain.HandlePreservesLedgerBalance | src/domain/mod.rs:278-344 | every event keeps every namespace's ledger balanced |
| Domain.MintTwice | src/domain/mod.rs:93-103 | minting a fresh name succeeds and minting it again fails |
| Scenario.SubmitAndHandle | src/domain/mod.rs:376-380 | a watcher that handles each event as it is queued: the queue gains exactly the event, and the store is what handling the event alone gives |
| Scenario.CheckAccessFrame | src/domain/mod.rs:105-145 | the access check reads only the namespace and key tables |
| Scenario.WrongPasswordRejected | src/domain/mod.rs:115-131 | if the namespace's only key was registered for one password, a password the hasher tells apart is rejected and nothing changes |
| Scenario.RegisteredKeyIsAccepted | src/domain/mod.rs:147-175 | assuming a hasher that never fails, once a registration's event is applied, the registered secret is an accepted credential for the namespace |
| Scenario.CreatedResourceIsListed | src/domain/mod.rs:177-257 | once the emitted event is applied, the uuid the ack returned is listed with the command's name, kind and namespace |
| Scenario.UsageAccounts | src/domain/mod.rs:278-304 | a usage adds exactly accounts 1 and 2 to its namespace's accounts |
| Scenario.PaymentAccounts | src/domain/mod.rs:306-332 | a payment adds exactly accounts 2 and 3 to its namespace's accounts |
| Scenario.UsageThenPaymentAccounts | src/domain/mod.rs:278-332 | after a usage and a payment in a namespace with no ledger rows, its accounts are exactly 1, 2 and 3 |
| Scenario.UsageThenPaymentAccountTotal | src/domain/mod.rs:278-332 | each account's totals are the sum of the usage effect and the payment effect |
| Scenario.UsageThenPaymentTotals | src/domain/mod.rs:278-332 | the balance view is account 1: debit u; account 2: debit p, credit u; account 3: credit p |
| Scenario.UsageThenPaymentBalance | src/domain/mod.rs:423-462 | `read_balance` after the usage and the payment reports those totals as the units of the two events |
| Scenario.BalanceOfThree | src/domain/mod.rs:259-276 | `read_balance` over three accounts' totals casts each one back to the units it was booked from |
| Scenario.CastKeepsIds | src/domain/mod.rs:272 | with non-negative account ids, the balance read back has exactly the stored ids |
| Scenario.CastThree | src/domain/mod.rs:272 | the cast keeps account ids 1, 2 and 3 and returns the booked units |
| Scenario.HappyPath | src/domain/mod.rs:356-467 | the end-to-end test for any names, password, uuid and units: mint, register, create with the key (which returns the given uuid), usage, payment, then the balance |
| AuthTokens.DetermineAction | src/authtokens/controller.rs:91-120 | the four actions partition tokens: cleanup iff deletion is requested; otherwise generate iff never emitted; forget iff emitted, viewed and a secret is still held; otherwise nothing |
| AuthTokens.PatchStatus | src/framework.rs:67-79 | a status merge patch replaces the whole status and touches nothing else |
| AuthTokens.Reconcile | src/authtokens/controller.rs:49-89 | it fails, leaving the token unchanged, exactly when the token has no namespace or a needed status patch is refused, and is otherwise done; a missing namespace fails with the user-input error; generate writes an emitted status with the placeholder secret; forget keeps it emitted and drops the secret; only cleanup requeues, after 10 s |
| AuthTokens.OnError | src/authtokens/controller.rs:130-133 | any reconcile error is retried after 5 s |
| AuthTokens.Schedule | src/authtokens/controller.rs:49-133 | the runtime retries after 5 s iff the reconcile failed, after 10 s iff a token with a namespace is being deleted, and otherwise waits for a change |
| AuthTokens.ForgottenIsFixpoint | src/authtokens/controller.rs:71-119 | once the forgotten status is written, and with no deletion, the next action is nothing |
| AuthTokens.AfterGenerate | src/authtokens/controller.rs:56-119 | once the generated status is written, the next action is forget if the token was viewed, else nothing |
| AuthTokens.NoOpIsStable | src/authtokens/controller.rs:87-120 | a no-op reconcile leaves the token unchanged, so it stays a no-op |
| AuthTokens.CleanupOnlyRequeues | src/authtokens/controller.rs:83-94 | a token being deleted is requeued after 10 s and never changed |
| AuthTokens.ConvergesInTwoSteps | src/authtokens/controller.rs:49-120 | with accepted patches and no outside edits, a live token reaches the no-op state within two reconciles, emitted and with its spec intact |
| AuthTokens.RefusedPatchRetries | src/authtokens/controller.rs:60-133 | a refused patch is retried after 5 s and the same action is chosen again |
| DltMonitor.AnyAssetOf | src/drivers/dlt_monitor/mod.rs:16-21 | true iff some asset bundle of the output is under the policy |
| DltMonitor.AnyOutputOf | src/drivers/dlt_monitor/mod.rs:16-21 | true iff some output of the transaction carries an asset under the policy |
| DltMonitor.IsDcuPayment | src/drivers/dlt_monitor/mod.rs:16-21 | true iff some output carries an asset whose policy is the configured DCU policy |
| DltMonitor.NoAssetsNoPayment | src/drivers/dlt_monitor/mod.rs:16-21 | a transaction with no outputs, or whose outputs carry no assets, is not a DCU payment |
| DltMonitor.DcuPaymentHasOutputs | src/drivers/dlt_monitor/mod.rs:16-21 | a DCU payment always has a first output to read the units from |
| DltMonitor.DcuPayments | src/drivers/dlt_monitor/mod.rs:39-46 | only DCU payments from the block are kept, in block order (a subsequence of the block) |
| DltMonitor.DcuPaymentsCounts | src/drivers/dlt_monitor/mod.rs:39-46 | each DCU payment is kept as often as it occurs in the block, and everything else is dropped |
| DltMonitor.ApplyTxs | src/drivers/dlt_monitor/mod.rs:38-49 | only an applied block with a body is handled; the kept transactions are its filtered ones |
| DltMonitor.FindLabel | src/drivers/dlt_monitor/mod.rs:56-63 | returns the first metadata entry with the label, or nothing iff no entry has it |
| DltMonitor.ToUsagePayment | src/drivers/dlt_monitor/mod.rs:52-66 | defined iff there is auxiliary data with a label-1791 entry and at least one output; the payment then has entry = hash, epoch 1, units = first output's coin, and the namespace of the first label-1791 entry |
| DltMonitor.FirstLabelWins | src/drivers/dlt_monitor/mod.rs:56-63 | when two entries carry label 1791, the first names the namespace |
| DltMonitor.Payments | src/drivers/dlt_monitor/mod.rs:51-67 | the kept transactions all map to payments, one each and in order, or the monitor stops |
| DltMonitor.HandlePaymentsAsWritten | src/drivers/dlt_monitor/mod.rs:51-67 | with the un-awaited `handle`, the ledger is left as it was |
| DltMonitor.HandlePayments | src/drivers/dlt_monitor/mod.rs:51-67 | with `handle` awaited, each payment appends two ledger rows and nothing else changes |
| DltMonitor.HandlePaymentsTotals | src/drivers/dlt_monitor/mod.rs:51-67 | with `handle` awaited, account totals grow by exactly the payments' effects |
| DltMonitor.DroppedPaymentIsLost | src/drivers/dlt_monitor/mod.rs:52-67 | one positive payment leaves settlement uncredited as written, and credits it by the units once awaited |
| DltMonitor.MappedPrefix | src/drivers/dlt_monitor/mod.rs:51-67 | the payments the loop reaches, in order, before the first kept transaction that cannot be mapped, which is the one it panics on |
| DltMonitor.MappedPrefixIsPayments | src/drivers/dlt_monitor/mod.rs:51-67 | the loop reaches the end of the block iff every kept transaction maps, and then it has handled exactly the mapped batch |
| DltMonitor.OnTipEvent | src/drivers/dlt_monitor/mod.rs:38-69 | with `handle` awaited: a tip event runs to completion iff it is an applied block with a body whose kept transactions all map, each then adding two ledger rows; an unhandled event changes nothing; otherwise the payments before the unmappable transaction are applied before the panic |
| DltMonitor.PrefixAppliedBeforePanic | src/drivers/dlt_monitor/mod.rs:51-67 | a payment handled before the panic stays in the ledger although the event does not complete |

## Left out

- Argon2 (src/domain/auth.rs) is a foreign library. It is a caller-supplied
  hasher here. Telling two passwords apart is assumed, as a precondition of
  `Scenario.WrongPasswordRejected`, and not proved.
- The SQLite connection, migrations and pool are replaced by in-memory
  tables. Unique-key or duplicate-insert failures depend on a schema that is
  not part of this model, so every insert here succeeds.
- `insert_accounting` and `read_balance` are called by the domain but have
  no definition in src/driven/fabric_state/mod.rs. They are defined here
  from their call sites. Two choices
  follow from that:
  - a missing debit or credit counts as 0;
  - a namespace's balance lists only the accounts that have rows.
- SQLite's integer overflow in `SUM` is not modelled. Sums are unbounded
  and reduced modulo 2^64 by the final cast.
- Domain.ReadBalance: the source returns a vector of
  `(account, debit, credit)` triples in store order. The model returns a map
  keyed by account, one entry per account, because the grouping query is
  not part of this model.
- Domain.CreateResource: the ack's event receipt is left out, because the
  dispatch as written returns `Ok(())` and no receipt.
- Domain.ScanApiKeys: the scan visits keys in the store's insertion order.
  SQL gives `get_all_api_keys_for_namespace` no order, so the model fixes
  an order the source leaves open. The outcome depends on that order only
  when some key's hash fails: the scan then accepts only if a matching key
  comes before the failing one.
- Domain.RegisterApiKey and Domain.CreateResource: src/domain/mod.rs:158
  and :194 apply `?` to the future that `submit_event` returns, without
  `.await`. As written that does not type-check. The model treats the call
  as awaited, and it then always succeeds, because `submit_event` only
  appends to its queue.
- Domain.ListResources: the query's `resource_name` is ignored, as in the
  source.
- Event subscription, broadcast and lag handling are absent from the
  dispatch as written. They are not modelled.
- The tokio lock, tasks, sleeps and the subscription loops are left out:
  - each command, query and handler is one atomic step;
  - `Scenario.SubmitAndHandle` stands for a projection driver that applies
    each event as soon as it is queued.
- Kubernetes plumbing is left out: the controller loop, the client and
  logging.
  - A status patch is reduced to whether the API server accepted it.
  - Finalizers, token expiry and revocation are not acted on by the
    controller, so they are not modelled.
- AuthTokens.ConvergesInTwoSteps: it assumes no outside edits between the
  two reconciles. Viewing a token between reconciles would restart the
  forget step.
- The chain monitor's tip-follower client, network I/O and the `Undo` and
  `Reset` branches are left out. The branches are `todo!()` and are
  modelled as the monitor stopping.
- DltMonitor.ToUsagePayment: the payment built in the monitor has no
  `cluster`, so the cluster is a parameter.
  - The metadata value is taken to be the namespace string.
  - The comparison of a policy id with the configured policy is taken to
    be string equality.
- The gRPC transport, binaries, configuration loading and logging are left
  out.

## Findings

| source | as written | input that shows it | evidently intended | confidence | as-written member | corrected member |
|---|---|---|---|---|---|---|
| src/drivers/dlt_monitor/mod.rs:52-67 | `handle(...)` is called under the lock, but its future is never awaited, so each payment event is built and dropped | any applied block with one DCU payment of positive units: the settlement account is not credited | each payment is applied to the ledger, as the subscription loop at line 28 does with `.await` | medium, not executed | DltMonitor.HandlePaymentsAsWritten, DltMonitor.DroppedPaymentIsLost | DltMonitor.HandlePayments, DltMonitor.HandlePaymentsTotals |
