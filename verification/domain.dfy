/** The domain engine: command handlers that validate against the projection
    store and submit events, queries that read the store, and event handlers
    that fold events into the store. Every operation is a pure function of the
    domain state; the hasher is the caller's Argon2 and the uuid of a new
    resource is the caller's fresh random value. */
module Domain {
  import opened Base
  import opened Events
  import FS = FabricState
  import ED = EventDispatch

  datatype Credential =
    | OwnerSignatureV1(signature: string, timestamp: U64)
    | ApiKeyV1(secret: Bytes)

  datatype Config = Config(cluster: Bytes)

  datatype Domain = Domain(config: Config, eventDispatch: ED.EventDispatch, fabricState: FS.FabricState)

  datatype RegisterApiKeyCmd = RegisterApiKeyCmd(auth: Credential, namespace: string, secret: Bytes)

  datatype CreateResourceCmd = CreateResourceCmd(auth: Credential, namespace: string, name: string, kind: string, spec: Bytes)

  /** The source's ack also names an event receipt, which the dispatch does not mint. */
  datatype CreateResourceAck = CreateResourceAck(resourceUuid: Bytes)

  datatype ListResourcesQuery = ListResourcesQuery(auth: Credential, resourceName: string, namespaceName: string)

  datatype ListResourcesItem = ListResourcesItem(metadata: ResourceMetadataV1, spec: Bytes, status: Bytes)

  datatype ReadBalanceQuery = ReadBalanceQuery(auth: Credential, namespaceName: string)

  datatype AccountBalance = AccountBalance(debit: U64, credit: U64)

  datatype ReadBalanceOutput = ReadBalanceOutput(accounts: map<U64, AccountBalance>)

  /** The result of a command or an event handler together with the domain after it. */
  datatype Reply<T> = Reply(result: Result<T>, domain: Domain)

  /** The result of an event handler together with the store after it. */
  datatype Applied = Applied(result: Result<()>, state: FS.FabricState)

  /** The salt every API key is registered with. */
  const SALT: Bytes := AsciiBytes("somesaltforyou")

  const USAGE_ACCOUNT: I64 := 1
  const POOL_ACCOUNT: I64 := 2
  const SETTLEMENT_ACCOUNT: I64 := 3

  // ---------------------------------------------------------------- guards

  function AssertAvailableNamespace(s: FS.FabricState, ns: string): (r: Result<()>)
    ensures r.Ok? <==> !FS.NamespaceExists(s, ns)
    ensures r.Err? ==> r.error == NamespaceUnavailable
  {
    if FS.NamespaceExists(s, ns) then Err(NamespaceUnavailable) else Ok(())
  }

  function AssertExistingNamespace(s: FS.FabricState, ns: string): (r: Result<()>)
    ensures r.Ok? <==> FS.NamespaceExists(s, ns)
    ensures r.Err? ==> r.error == InvalidNamespace
  {
    if FS.NamespaceExists(s, ns) then Ok(()) else Err(InvalidNamespace)
  }

  /** Re-hashing `secret` with the key's salt reproduces the stored digest. */
  predicate Matches(h: Hasher, secret: Bytes, key: FS.ApiKey) {
    var d := h(secret, key.salt);
    d.Some? && d.value == key.digest
  }

  predicate HashesOk(h: Hasher, secret: Bytes, key: FS.ApiKey) {
    h(secret, key.salt).Some?
  }

  /** The linear scan over a namespace's keys: the first key whose digest is
      reproduced accepts; a hashing failure aborts the scan; running out of
      keys rejects. */
  function ScanApiKeys(keys: seq<FS.ApiKey>, h: Hasher, secret: Bytes): (r: Result<()>)
    ensures r.Ok? <==> exists i :: 0 <= i < |keys| && Matches(h, secret, keys[i])
                                   && forall j :: 0 <= j < i ==> HashesOk(h, secret, keys[j])
    ensures r == Err(InvalidApiKey) <==> forall i :: 0 <= i < |keys| ==> HashesOk(h, secret, keys[i]) && !Matches(h, secret, keys[i])
    ensures r.Err? ==> r.error == InvalidApiKey || r.error == HashingFailed
    decreases |keys|
  {
    if keys == [] then Err(InvalidApiKey)
    else
      var d := h(secret, keys[0].salt);
      if d.None? then Err(HashingFailed)
      else if d.value == keys[0].digest then Ok(())
      else
        var rest := ScanApiKeys(keys[1..], h, secret);
        assert forall i :: 1 <= i < |keys| ==> keys[i] == keys[1..][i - 1];
        assert rest.Ok? ==> exists i :: 1 <= i < |keys| && Matches(h, secret, keys[i])
                                        && forall j :: 0 <= j < i ==> HashesOk(h, secret, keys[j]) by {
          if rest.Ok? {
            var i :| 0 <= i < |keys| - 1 && Matches(h, secret, keys[1..][i])
                     && forall j :: 0 <= j < i ==> HashesOk(h, secret, keys[1..][j]);
            assert Matches(h, secret, keys[i + 1]);
            assert forall j :: 1 <= j < i + 1 ==> HashesOk(h, secret, keys[j]);
          }
        }
        rest
  }

  /** With a hasher that never fails, the order of the keys is irrelevant:
      the scan accepts exactly when some stored key matches. */
  lemma ScanAcceptsIffSomeKeyMatches(keys: seq<FS.ApiKey>, h: Hasher, secret: Bytes)
    ensures NeverFails(h) ==> (ScanApiKeys(keys, h, secret).Ok? <==> exists k :: k in keys && Matches(h, secret, k))
  {
    if NeverFails(h) && exists k :: k in keys && Matches(h, secret, k) {
      var k :| k in keys && Matches(h, secret, k);
      var i :| 0 <= i < |keys| && keys[i] == k;
      assert forall j :: 0 <= j < i ==> HashesOk(h, secret, keys[j]);
    }
  }

  function AssertValidApiKey(s: FS.FabricState, h: Hasher, ns: string, secret: Bytes): (r: Result<()>)
    ensures |FS.GetAllApiKeysForNamespace(s, ns)| == 0 ==> r == Err(InvalidApiKey)
  {
    ScanApiKeys(FS.GetAllApiKeysForNamespace(s, ns), h, secret)
  }

  /** Owner signatures are accepted without any check (an open TODO in the
      source); API keys must be reproduced by some stored key of `ns`. */
  function AssertValidCredentials(s: FS.FabricState, h: Hasher, ns: string, credential: Credential): (r: Result<()>)
    ensures credential.OwnerSignatureV1? ==> r.Ok?
    ensures credential.ApiKeyV1? && |FS.GetAllApiKeysForNamespace(s, ns)| == 0 ==> r == Err(InvalidApiKey)
    ensures credential.ApiKeyV1? && NeverFails(h) ==>
              (r.Ok? <==> exists k :: k in FS.GetAllApiKeysForNamespace(s, ns) && Matches(h, credential.secret, k))
  {
    match credential
    case ApiKeyV1(secret) =>
      ScanAcceptsIffSomeKeyMatches(FS.GetAllApiKeysForNamespace(s, ns), h, secret);
      AssertValidApiKey(s, h, ns, secret)
    case OwnerSignatureV1(_, _) => Ok(())
  }

  /** The two guards every command and query runs, in the source's order. */
  function CheckAccess(s: FS.FabricState, h: Hasher, ns: string, credential: Credential): (r: Result<()>)
    ensures !FS.NamespaceExists(s, ns) ==> r == Err(InvalidNamespace)
    ensures FS.NamespaceExists(s, ns) ==> r == AssertValidCredentials(s, h, ns, credential)
  {
    var _ :- AssertExistingNamespace(s, ns);
    AssertValidCredentials(s, h, ns, credential)
  }

  // -------------------------------------------------------------- commands

  /** Registers `cmd.secret` under the fixed salt. On success exactly one
      `ApiKeyRegisteredV1` is submitted; on failure nothing changes. */
  function RegisterApiKey(d: Domain, h: Hasher, cmd: RegisterApiKeyCmd): (r: Reply<()>)
    ensures r.result.Ok? <==> CheckAccess(d.fabricState, h, cmd.namespace, cmd.auth).Ok? && h(cmd.secret, SALT).Some?
    ensures CheckAccess(d.fabricState, h, cmd.namespace, cmd.auth).Err? ==>
              r.result == Err(CheckAccess(d.fabricState, h, cmd.namespace, cmd.auth).error)
    ensures CheckAccess(d.fabricState, h, cmd.namespace, cmd.auth).Ok? && h(cmd.secret, SALT).None? ==>
              r.result == Err(HashingFailed)
    ensures r.result.Err? ==> r.domain == d
    ensures r.result.Ok? ==>
              && r.domain.config == d.config && r.domain.fabricState == d.fabricState
              && r.domain.eventDispatch.entries
                 == d.eventDispatch.entries + [ApiKeyRegistered(ApiKeyRegisteredV1(cmd.namespace, h(cmd.secret, SALT).value, SALT))]
  {
    match CheckAccess(d.fabricState, h, cmd.namespace, cmd.auth)
    case Err(e) => Reply(Err(e), d)
    case Ok(_) =>
      match h(cmd.secret, SALT)
      case None => Reply(Err(HashingFailed), d)
      case Some(digest) =>
        var sub := ED.SubmitEvent(d.eventDispatch, ApiKeyRegistered(ApiKeyRegisteredV1(cmd.namespace, digest, SALT)));
        assert sub.dispatch.entries == d.eventDispatch.entries + [ApiKeyRegistered(ApiKeyRegisteredV1(cmd.namespace, digest, SALT))];
        match sub.result
        case Err(e) => Reply(Err(e), d)
        case Ok(_) => Reply(Ok(()), d.(eventDispatch := sub.dispatch))
  }

  /** Announces a new resource under the caller-supplied uuid. On success the
      ack and the submitted `ResourceCreatedV1` carry the same 16-byte uuid;
      on failure nothing changes. */
  function CreateResource(d: Domain, h: Hasher, cmd: CreateResourceCmd, uuid: Uuid): (r: Reply<CreateResourceAck>)
    ensures r.result.Ok? <==> CheckAccess(d.fabricState, h, cmd.namespace, cmd.auth).Ok?
    ensures r.result.Err? ==> r.result.error == CheckAccess(d.fabricState, h, cmd.namespace, cmd.auth).error
    ensures r.result.Err? ==> r.domain == d
    ensures r.result.Ok? ==>
              && |r.result.value.resourceUuid| == 16
              && r.domain.config == d.config && r.domain.fabricState == d.fabricState
              && r.domain.eventDispatch.entries == d.eventDispatch.entries
                 + [ResourceCreated(ResourceCreatedV1(
                      ResourceMetadataV1(cmd.namespace, cmd.kind, cmd.name, r.result.value.resourceUuid), cmd.spec))]
  {
    match CheckAccess(d.fabricState, h, cmd.namespace, cmd.auth)
    case Err(e) => Reply(Err(e), d)
    case Ok(_) =>
      var evt := ResourceCreated(ResourceCreatedV1(ResourceMetadataV1(cmd.namespace, cmd.kind, cmd.name, uuid), cmd.spec));
      var sub := ED.SubmitEvent(d.eventDispatch, evt);
      assert sub.dispatch.entries == d.eventDispatch.entries + [evt];
      match sub.result
      case Err(e) => Reply(Err(e), d)
      case Ok(_) => Reply(Ok(CreateResourceAck(uuid)), d.(eventDispatch := sub.dispatch))
  }

  // --------------------------------------------------------------- queries

  function ToItem(ns: string, p: FS.ListResourceProj): ListResourcesItem {
    ListResourcesItem(ResourceMetadataV1(ns, p.kind, p.name, p.uuid), [], [])
  }

  /** The resources of the queried namespace, tagged with that namespace and
      with empty spec and status. `resourceName` is not used by the source. */
  function ListResources(d: Domain, h: Hasher, q: ListResourcesQuery): (r: Result<seq<ListResourcesItem>>)
    ensures r.Ok? <==> CheckAccess(d.fabricState, h, q.namespaceName, q.auth).Ok?
    ensures r.Err? ==> r.error == CheckAccess(d.fabricState, h, q.namespaceName, q.auth).error
    ensures r.Ok? ==>
              var rows := FS.ListResources(d.fabricState, q.namespaceName);
              && |r.value| == |rows|
              && forall i :: 0 <= i < |r.value| ==>
                   && r.value[i].metadata.namespace == q.namespaceName
                   && r.value[i].metadata.name == rows[i].name
                   && r.value[i].metadata.uuid == rows[i].uuid
                   && r.value[i].metadata.kind == rows[i].kind
                   && r.value[i].spec == [] && r.value[i].status == []
  {
    var _ :- CheckAccess(d.fabricState, h, q.namespaceName, q.auth);
    var rows := FS.ListResources(d.fabricState, q.namespaceName);
    Ok(seq(|rows|, i requires 0 <= i < |rows| => ToItem(q.namespaceName, rows[i])))
  }

  /** The balance of the queried namespace: per account, its summed debits
      and credits, each cast back to `u64`. */
  function ReadBalance(d: Domain, h: Hasher, q: ReadBalanceQuery): (r: Result<ReadBalanceOutput>)
    ensures r.Ok? <==> CheckAccess(d.fabricState, h, q.namespaceName, q.auth).Ok?
    ensures r.Err? ==> r.error == CheckAccess(d.fabricState, h, q.namespaceName, q.auth).error
    ensures r.Ok? ==> r.value.accounts == CastBalances(FS.ReadBalance(d.fabricState, q.namespaceName))
  {
    var _ :- CheckAccess(d.fabricState, h, q.namespaceName, q.auth);
    Ok(ReadBalanceOutput(CastBalances(FS.ReadBalance(d.fabricState, q.namespaceName))))
  }

  /** The `as u64` casts of the balance row: the account id and both sums.
      An id is listed exactly when its `i64` reading is a ledger account,
      so no account is lost or merged with another. */
  function CastBalances(b: map<I64, FS.Totals>): (r: map<U64, AccountBalance>)
    ensures forall a: U64 :: a in r <==> U64ToI64(a) in b
    ensures forall a :: a in b ==>
              && I64ToU64(a) in r
              && r[I64ToU64(a)] == AccountBalance(WrapU64(b[a].debit), WrapU64(b[a].credit))
  {
    var r := map a | a in b :: I64ToU64(a) := AccountBalance(WrapU64(b[a].debit), WrapU64(b[a].credit));
    assert forall a: U64 :: a in r <==> U64ToI64(a) in b by {
      forall a: U64 ensures a in r <==> U64ToI64(a) in b {
        CastRoundTrip(U64ToI64(a), a);
        if a in r {
          var a' :| a' in b && I64ToU64(a') == a;
          CastRoundTrip(a', a);
        }
      }
    }
    r
  }

  // -------------------------------------------------------- event handlers

  /** Re-checks that the name is free (a duplicate delivery fails and leaves
      the store as it was), then inserts it. */
  function OnNamespaceMinted(s: FS.FabricState, evt: NamespaceMintedV1): (r: Applied)
    ensures r.result.Err? <==> FS.NamespaceExists(s, evt.name)
    ensures r.result.Err? ==> r.result.error == NamespaceUnavailable && r.state == s
    ensures r.result.Ok? ==>
              && FS.NamespaceExists(r.state, evt.name)
              && (forall n :: n != evt.name ==> (FS.NamespaceExists(r.state, n) <==> FS.NamespaceExists(s, n)))
              && r.state.apiKeys == s.apiKeys && r.state.resources == s.resources && r.state.accounting == s.accounting
  {
    match AssertAvailableNamespace(s, evt.name)
    case Err(e) => Applied(Err(e), s)
    case Ok(_) => Applied(Ok(()), FS.InsertNamespace(s, evt.name))
  }

  /** Stores the credential; it becomes visible to its namespace's key query only. */
  function OnApiKeyRegistered(s: FS.FabricState, evt: ApiKeyRegisteredV1): (r: Applied)
    ensures r.result.Ok?
    ensures r.state.namespaces == s.namespaces && r.state.resources == s.resources && r.state.accounting == s.accounting
    ensures forall m :: FS.GetAllApiKeysForNamespace(r.state, m)
              == if m == evt.namespace then FS.GetAllApiKeysForNamespace(s, m) + [FS.ApiKey(evt.digest, evt.salt)]
                 else FS.GetAllApiKeysForNamespace(s, m)
  {
    var s' := FS.InsertApiKey(s, evt.namespace, evt.digest, evt.salt);
    assert forall m :: FS.GetAllApiKeysForNamespace(s', m)
              == if m == evt.namespace then FS.GetAllApiKeysForNamespace(s, m) + [FS.ApiKey(evt.digest, evt.salt)]
                 else FS.GetAllApiKeysForNamespace(s, m) by {
      forall m ensures FS.GetAllApiKeysForNamespace(s', m)
              == if m == evt.namespace then FS.GetAllApiKeysForNamespace(s, m) + [FS.ApiKey(evt.digest, evt.salt)]
                 else FS.GetAllApiKeysForNamespace(s, m) {
        FS.InsertApiKeyQuery(s, evt.namespace, evt.digest, evt.salt, m);
      }
    }
    Applied(Ok(()), s')
  }

  /** Stores the resource; it becomes visible, without its manifest, to its
      namespace's listing only. */
  function OnResourceCreated(s: FS.FabricState, evt: ResourceCreatedV1): (r: Applied)
    ensures r.result.Ok?
    ensures r.state.namespaces == s.namespaces && r.state.apiKeys == s.apiKeys && r.state.accounting == s.accounting
    ensures forall m :: FS.ListResources(r.state, m)
              == if m == evt.metadata.namespace
                 then FS.ListResources(s, m) + [FS.ListResourceProj(evt.metadata.name, evt.metadata.uuid, evt.metadata.kind)]
                 else FS.ListResources(s, m)
  {
    var md := evt.metadata;
    var s' := FS.InsertResource(s, md.namespace, md.kind, md.uuid, md.name, evt.manifest);
    assert forall m :: FS.ListResources(s', m)
              == if m == md.namespace then FS.ListResources(s, m) + [FS.ListResourceProj(md.name, md.uuid, md.kind)]
                 else FS.ListResources(s, m) by {
      forall m ensures FS.ListResources(s', m)
              == if m == md.namespace then FS.ListResources(s, m) + [FS.ListResourceProj(md.name, md.uuid, md.kind)]
                 else FS.ListResources(s, m) {
        FS.InsertResourceQuery(s, md.namespace, md.kind, md.uuid, md.name, evt.manifest, m);
      }
    }
    Applied(Ok(()), s')
  }

  /** The two legs of a usage transaction. */
  function UsageDeltas(units: U64): (ds: seq<FS.AccountDelta>)
    ensures FS.Balanced(ds)
    ensures forall a, side :: FS.DeltaAccountTotal(ds, a, side) == UsageLegs(units, a, side)
  {
    FS.TwoLegTotals(FS.AccountDelta(USAGE_ACCOUNT, Some(U64ToI64(units)), None),
                    FS.AccountDelta(POOL_ACCOUNT, None, Some(U64ToI64(units))));
    [FS.AccountDelta(USAGE_ACCOUNT, Some(U64ToI64(units)), None),
     FS.AccountDelta(POOL_ACCOUNT, None, Some(U64ToI64(units)))]
  }

  /** The two legs of a payment transaction. */
  function PaymentDeltas(units: U64): (ds: seq<FS.AccountDelta>)
    ensures FS.Balanced(ds)
    ensures forall a, side :: FS.DeltaAccountTotal(ds, a, side) == PaymentLegs(units, a, side)
  {
    FS.TwoLegTotals(FS.AccountDelta(POOL_ACCOUNT, Some(U64ToI64(units)), None),
                    FS.AccountDelta(SETTLEMENT_ACCOUNT, None, Some(U64ToI64(units))));
    [FS.AccountDelta(POOL_ACCOUNT, Some(U64ToI64(units)), None),
     FS.AccountDelta(SETTLEMENT_ACCOUNT, None, Some(U64ToI64(units)))]
  }

  /** What a usage of `units` adds to one side of one account of its own
      namespace: a debit of account 1 and a credit of account 2. */
  function UsageLegs(units: U64, account: I64, side: FS.Side): int {
    if (account == USAGE_ACCOUNT && side == FS.Debit) || (account == POOL_ACCOUNT && side == FS.Credit)
    then U64ToI64(units) else 0
  }

  /** What a payment of `units` adds to one side of one account of its own
      namespace: a debit of account 2 and a credit of account 3. */
  function PaymentLegs(units: U64, account: I64, side: FS.Side): int {
    if (account == POOL_ACCOUNT && side == FS.Debit) || (account == SETTLEMENT_ACCOUNT && side == FS.Credit)
    then U64ToI64(units) else 0
  }

  /** What a usage of `units` in `ns` adds to one side of one account of `m`. */
  function UsageEffect(ns: string, units: U64, m: string, account: I64, side: FS.Side): int {
    if m == ns then UsageLegs(units, account, side) else 0
  }

  /** What a payment of `units` in `ns` adds to one side of one account of `m`. */
  function PaymentEffect(ns: string, units: U64, m: string, account: I64, side: FS.Side): int {
    if m == ns then PaymentLegs(units, account, side) else 0
  }

  /** Inserts one balanced two-row transaction attributed to the resource:
      account 1 is debited and account 2 credited by `units`; no other
      balance moves. */
  function OnResourceUsage(s: FS.FabricState, evt: ResourceUsageV1): (r: Applied)
    ensures r.result.Ok?
    ensures r.state.namespaces == s.namespaces && r.state.apiKeys == s.apiKeys && r.state.resources == s.resources
    ensures s.accounting <= r.state.accounting && |r.state.accounting| == |s.accounting| + 2
    ensures forall i :: |s.accounting| <= i < |r.state.accounting| ==>
              var row := r.state.accounting[i];
              && row.namespace == evt.namespace && row.cluster == evt.cluster && row.entry == evt.entry
              && row.epoch == U64ToI64(evt.epoch) && row.resource == Some(evt.resource)
    ensures forall m, a, side :: FS.AccountTotal(r.state.accounting, m, a, side)
              == FS.AccountTotal(s.accounting, m, a, side) + UsageEffect(evt.namespace, evt.units, m, a, side)
  {
    var ds := UsageDeltas(evt.units);
    FS.InsertAccountingEffect(s, U64ToI64(evt.epoch), evt.entry, evt.cluster, evt.namespace, Some(evt.resource), ds);
    Applied(Ok(()), FS.InsertAccounting(s, U64ToI64(evt.epoch), evt.entry, evt.cluster, evt.namespace, Some(evt.resource), ds))
  }

  /** Inserts one balanced two-row transaction attributed to no resource:
      account 2 is debited and account 3 credited by `units`; no other
      balance moves. */
  function OnUsagePayment(s: FS.FabricState, evt: UsagePaymentV1): (r: Applied)
    ensures r.result.Ok?
    ensures r.state.namespaces == s.namespaces && r.state.apiKeys == s.apiKeys && r.state.resources == s.resources
    ensures s.accounting <= r.state.accounting && |r.state.accounting| == |s.accounting| + 2
    ensures forall i :: |s.accounting| <= i < |r.state.accounting| ==>
              var row := r.state.accounting[i];
              && row.namespace == evt.namespace && row.cluster == evt.cluster && row.entry == evt.entry
              && row.epoch == U64ToI64(evt.epoch) && row.resource == None
    ensures forall m, a, side :: FS.AccountTotal(r.state.accounting, m, a, side)
              == FS.AccountTotal(s.accounting, m, a, side) + PaymentEffect(evt.namespace, evt.units, m, a, side)
  {
    var ds := PaymentDeltas(evt.units);
    FS.InsertAccountingEffect(s, U64ToI64(evt.epoch), evt.entry, evt.cluster, evt.namespace, None, ds);
    Applied(Ok(()), FS.InsertAccounting(s, U64ToI64(evt.epoch), evt.entry, evt.cluster, evt.namespace, None, ds))
  }

  /** Routes an event to its handler. Each variant touches only its own
      table: a mint adds the name, a registration appends one key row, a
      creation appends one resource row, and usage and payments append one
      two-row ledger transaction. Only a repeated mint fails, and then
      nothing changes. */
  function Apply(s: FS.FabricState, event: Event): (r: Applied)
    ensures r.result.Err? <==> event.NamespaceMinted? && FS.NamespaceExists(s, event.minted.name)
    ensures r.result.Err? ==> r.result.error == NamespaceUnavailable && r.state == s
    ensures event.NamespaceMinted? && r.result.Ok? ==> r.state.namespaces == s.namespaces + {event.minted.name}
    ensures !event.NamespaceMinted? ==> r.state.namespaces == s.namespaces
    ensures event.ApiKeyRegistered? ==>
              r.state.apiKeys == s.apiKeys + [FS.ApiKeyRow(event.registered.namespace,
                                                           FS.ApiKey(event.registered.digest, event.registered.salt))]
    ensures !event.ApiKeyRegistered? ==> r.state.apiKeys == s.apiKeys
    ensures event.ResourceCreated? ==>
              var md := event.created.metadata;
              r.state.resources == s.resources + [FS.ResourceRow(md.namespace, md.kind, md.uuid, md.name, event.created.manifest)]
    ensures !event.ResourceCreated? ==> r.state.resources == s.resources
    ensures event.ResourceUsage? || event.UsagePayment? ==>
              s.accounting <= r.state.accounting && |r.state.accounting| == |s.accounting| + 2
    ensures !(event.ResourceUsage? || event.UsagePayment?) ==> r.state.accounting == s.accounting
  {
    match event
    case NamespaceMinted(evt) => OnNamespaceMinted(s, evt)
    case ApiKeyRegistered(evt) => OnApiKeyRegistered(s, evt)
    case ResourceCreated(evt) => OnResourceCreated(s, evt)
    case ResourceUsage(evt) => OnResourceUsage(s, evt)
    case UsagePayment(evt) => OnUsagePayment(s, evt)
  }

  /** `handle`: the event's handler runs on the store. Only the store
      changes, and only a repeated `NamespaceMintedV1` can fail. */
  function Handle(d: Domain, event: Event): (r: Reply<()>)
    ensures r.domain.config == d.config && r.domain.eventDispatch == d.eventDispatch
    ensures r.result.Err? <==> event.NamespaceMinted? && FS.NamespaceExists(d.fabricState, event.minted.name)
    ensures r.result.Err? ==> r.domain == d
    ensures event.NamespaceMinted? ==>
              r.result == OnNamespaceMinted(d.fabricState, event.minted).result
              && r.domain.fabricState == OnNamespaceMinted(d.fabricState, event.minted).state
    ensures event.ApiKeyRegistered? ==> r.domain.fabricState == OnApiKeyRegistered(d.fabricState, event.registered).state
    ensures event.ResourceCreated? ==> r.domain.fabricState == OnResourceCreated(d.fabricState, event.created).state
    ensures event.ResourceUsage? ==> r.domain.fabricState == OnResourceUsage(d.fabricState, event.usage).state
    ensures event.UsagePayment? ==> r.domain.fabricState == OnUsagePayment(d.fabricState, event.payment).state
  {
    var applied := Apply(d.fabricState, event);
    Reply(applied.result, d.(fabricState := applied.state))
  }

  /** Every handler keeps the ledger balanced: each namespace's rows carry as
      much debit as credit. */
  lemma HandlePreservesLedgerBalance(d: Domain, event: Event)
    requires FS.LedgerBalanced(d.fabricState)
    ensures FS.LedgerBalanced(Handle(d, event).domain.fabricState)
  {
    var s := d.fabricState;
    match event
    case ResourceUsage(evt) =>
      FS.InsertBalancedPreservesLedger(s, U64ToI64(evt.epoch), evt.entry, evt.cluster, evt.namespace,
                                       Some(evt.resource), UsageDeltas(evt.units));
    case UsagePayment(evt) =>
      FS.InsertBalancedPreservesLedger(s, U64ToI64(evt.epoch), evt.entry, evt.cluster, evt.namespace,
                                       None, PaymentDeltas(evt.units));
    case _ =>
  }

  /** Minting the same name twice: the first delivery succeeds, the second
      fails and leaves the store unchanged. */
  lemma MintTwice(s: FS.FabricState, e1: NamespaceMintedV1, e2: NamespaceMintedV1)
    requires !FS.NamespaceExists(s, e1.name) && e2.name == e1.name
    ensures OnNamespaceMinted(s, e1).result.Ok?
    ensures var s1 := OnNamespaceMinted(s, e1).state;
            OnNamespaceMinted(s1, e2) == Applied(Err(NamespaceUnavailable), s1)
  {
  }
}
