/** Properties that span several commands and events: the credential life
    cycle, the round trip from `create_resource` to `list_resources`, and the
    ledger after a usage and a payment, up to the end-to-end flow of the
    domain's own test. A projection driver that applies each submitted event
    as soon as it is queued is modelled by `SubmitAndHandle`. */
module Scenario {
  import opened Base
  import opened Events
  import FS = FabricState
  import ED = EventDispatch
  import D = Domain

  /** An event submitted to the queue and applied to the store in the same step. */
  function SubmitAndHandle(d: D.Domain, e: Event): (d': D.Domain)
    ensures d'.config == d.config
    ensures d'.eventDispatch.entries == d.eventDispatch.entries + [e]
    ensures d'.fabricState == D.Handle(d, e).domain.fabricState
  {
    D.Handle(d.(eventDispatch := ED.SubmitEvent(d.eventDispatch, e).dispatch), e).domain
  }

  /** The guards read only the namespace and credential tables. */
  lemma CheckAccessFrame(s: FS.FabricState, s': FS.FabricState, h: Hasher, ns: string, credential: D.Credential)
    requires s.namespaces == s'.namespaces && s.apiKeys == s'.apiKeys
    ensures D.CheckAccess(s, h, ns, credential) == D.CheckAccess(s', h, ns, credential)
  {
    assert FS.GetAllApiKeysForNamespace(s, ns) == FS.GetAllApiKeysForNamespace(s', ns);
  }

  /** A namespace whose only key was registered for `pwd` rejects a different
      password. This rests on the hasher telling the two passwords apart
      under the fixed salt, which Argon2 is assumed, not proved, to do. */
  lemma WrongPasswordRejected(d: D.Domain, h: Hasher, pwd: Bytes, wrong: Bytes, cmd: D.CreateResourceCmd, uuid: Uuid)
    requires h(pwd, D.SALT).Some? && h(wrong, D.SALT).Some?
    requires h(wrong, D.SALT) != h(pwd, D.SALT)
    requires FS.NamespaceExists(d.fabricState, cmd.namespace)
    requires FS.GetAllApiKeysForNamespace(d.fabricState, cmd.namespace) == [FS.ApiKey(h(pwd, D.SALT).value, D.SALT)]
    requires cmd.auth == D.ApiKeyV1(wrong)
    ensures D.CreateResource(d, h, cmd, uuid) == D.Reply(Err(InvalidApiKey), d)
  {
    var keys := FS.GetAllApiKeysForNamespace(d.fabricState, cmd.namespace);
    assert !D.Matches(h, wrong, keys[0]);
  }

  /** Registering a key and applying its event makes the same secret an
      accepted credential for that namespace, whatever keys it held before,
      provided the hasher does not fail. */
  lemma RegisteredKeyIsAccepted(d: D.Domain, h: Hasher, cmd: D.RegisterApiKeyCmd)
    requires NeverFails(h)
    requires D.RegisterApiKey(d, h, cmd).result.Ok?
    ensures var r := D.RegisterApiKey(d, h, cmd);
            var e := ApiKeyRegistered(ApiKeyRegisteredV1(cmd.namespace, h(cmd.secret, D.SALT).value, D.SALT));
            D.CheckAccess(D.Handle(r.domain, e).domain.fabricState, h, cmd.namespace, D.ApiKeyV1(cmd.secret)).Ok?
  {
    var r := D.RegisterApiKey(d, h, cmd);
    var e := ApiKeyRegisteredV1(cmd.namespace, h(cmd.secret, D.SALT).value, D.SALT);
    var s' := D.Handle(r.domain, ApiKeyRegistered(e)).domain.fabricState;
    var keys' := FS.GetAllApiKeysForNamespace(s', cmd.namespace);
    var k := FS.ApiKey(e.digest, e.salt);
    assert keys' == FS.GetAllApiKeysForNamespace(d.fabricState, cmd.namespace) + [k];
    assert k in keys' && D.Matches(h, cmd.secret, k);
  }

  /** The uuid returned by `create_resource` is listed, with the command's
      name and kind, once the emitted event has been applied. */
  lemma CreatedResourceIsListed(d: D.Domain, h: Hasher, cmd: D.CreateResourceCmd, uuid: Uuid)
    requires D.CheckAccess(d.fabricState, h, cmd.namespace, cmd.auth).Ok?
    ensures var r := D.CreateResource(d, h, cmd, uuid);
            && r.result.Ok?
            && var e := r.domain.eventDispatch.entries[|r.domain.eventDispatch.entries| - 1];
               var l := D.ListResources(D.Handle(r.domain, e).domain, h, D.ListResourcesQuery(cmd.auth, cmd.name, cmd.namespace));
               && l.Ok?
               && exists item :: item in l.value && item.metadata.uuid == r.result.value.resourceUuid
                                 && item.metadata.name == cmd.name && item.metadata.kind == cmd.kind
                                 && item.metadata.namespace == cmd.namespace
  {
    var r := D.CreateResource(d, h, cmd, uuid);
    var entries := r.domain.eventDispatch.entries;
    var e := entries[|entries| - 1];
    var d' := D.Handle(r.domain, e).domain;
    CheckAccessFrame(d.fabricState, d'.fabricState, h, cmd.namespace, cmd.auth);
    var q := D.ListResourcesQuery(cmd.auth, cmd.name, cmd.namespace);
    var l := D.ListResources(d', h, q);
    var rows := FS.ListResources(d'.fabricState, cmd.namespace);
    assert rows == FS.ListResources(d.fabricState, cmd.namespace) + [FS.ListResourceProj(cmd.name, uuid, cmd.kind)];
    var item := l.value[|rows| - 1];
    assert item in l.value;
  }

  /** A usage adds accounts 1 and 2 to its namespace's account set. */
  lemma UsageAccounts(s: FS.FabricState, usage: ResourceUsageV1)
    ensures FS.AccountsOf(D.OnResourceUsage(s, usage).state.accounting, usage.namespace)
            == FS.AccountsOf(s.accounting, usage.namespace) + {1, 2}
  {
    var ud := D.UsageDeltas(usage.units);
    FS.InsertAccountingAccounts(s, U64ToI64(usage.epoch), usage.entry, usage.cluster, usage.namespace,
                                Some(usage.resource), ud, usage.namespace);
    assert FS.DeltaAccounts(ud) == {1, 2} by {
      assert ud[0].account == 1 && ud[1].account == 2;
    }
  }

  /** A payment adds accounts 2 and 3 to its namespace's account set. */
  lemma PaymentAccounts(s: FS.FabricState, payment: UsagePaymentV1)
    ensures FS.AccountsOf(D.OnUsagePayment(s, payment).state.accounting, payment.namespace)
            == FS.AccountsOf(s.accounting, payment.namespace) + {2, 3}
  {
    var pd := D.PaymentDeltas(payment.units);
    FS.InsertAccountingAccounts(s, U64ToI64(payment.epoch), payment.entry, payment.cluster, payment.namespace,
                                None, pd, payment.namespace);
    assert FS.DeltaAccounts(pd) == {2, 3} by {
      assert pd[0].account == 2 && pd[1].account == 3;
    }
  }

  /** The accounts of `ns` after a usage and a payment in a namespace that had no ledger rows. */
  lemma UsageThenPaymentAccounts(s: FS.FabricState, usage: ResourceUsageV1, payment: UsagePaymentV1)
    requires usage.namespace == payment.namespace
    requires forall i :: 0 <= i < |s.accounting| ==> s.accounting[i].namespace != usage.namespace
    ensures FS.AccountsOf(D.OnUsagePayment(D.OnResourceUsage(s, usage).state, payment).state.accounting, usage.namespace)
            == {1, 2, 3}
  {
    var s1 := D.OnResourceUsage(s, usage).state;
    assert FS.AccountsOf(s.accounting, usage.namespace) == {};
    UsageAccounts(s, usage);
    PaymentAccounts(s1, payment);
  }

  /** One side of one account of `ns` after a usage and a payment in a namespace that had no ledger rows. */
  lemma UsageThenPaymentAccountTotal(s: FS.FabricState, usage: ResourceUsageV1, payment: UsagePaymentV1, a: I64, side: FS.Side)
    requires usage.namespace == payment.namespace
    requires forall i :: 0 <= i < |s.accounting| ==> s.accounting[i].namespace != usage.namespace
    ensures FS.AccountTotal(D.OnUsagePayment(D.OnResourceUsage(s, usage).state, payment).state.accounting, usage.namespace, a, side)
            == D.UsageEffect(usage.namespace, usage.units, usage.namespace, a, side)
               + D.PaymentEffect(usage.namespace, payment.units, usage.namespace, a, side)
  {
    FS.NoRowsNoTotals(s.accounting, usage.namespace, a, side);
  }

  /** A usage of `u` then a payment of `p` in a namespace that had no ledger
      rows: account 1 is debited `u`, account 2 debited `p` and credited `u`,
      account 3 credited `p`. */
  lemma UsageThenPaymentTotals(s: FS.FabricState, usage: ResourceUsageV1, payment: UsagePaymentV1)
    requires usage.namespace == payment.namespace
    requires forall i :: 0 <= i < |s.accounting| ==> s.accounting[i].namespace != usage.namespace
    ensures var s2 := D.OnUsagePayment(D.OnResourceUsage(s, usage).state, payment).state;
            var u, p := U64ToI64(usage.units), U64ToI64(payment.units);
            FS.ReadBalance(s2, usage.namespace)
            == map[1 := FS.Totals(u, 0), 2 := FS.Totals(p, u), 3 := FS.Totals(0, p)]
  {
    var ns := usage.namespace;
    var s2 := D.OnUsagePayment(D.OnResourceUsage(s, usage).state, payment).state;
    var u, p := U64ToI64(usage.units), U64ToI64(payment.units);
    UsageThenPaymentAccounts(s, usage, payment);
    UsageThenPaymentAccountTotal(s, usage, payment, 1, FS.Debit);
    UsageThenPaymentAccountTotal(s, usage, payment, 1, FS.Credit);
    UsageThenPaymentAccountTotal(s, usage, payment, 2, FS.Debit);
    UsageThenPaymentAccountTotal(s, usage, payment, 2, FS.Credit);
    UsageThenPaymentAccountTotal(s, usage, payment, 3, FS.Debit);
    UsageThenPaymentAccountTotal(s, usage, payment, 3, FS.Credit);
    var b := FS.ReadBalance(s2, ns);
    assert b[1] == FS.Totals(u, 0) && b[2] == FS.Totals(p, u) && b[3] == FS.Totals(0, p);
    MapOfThree(b, FS.Totals(u, 0), FS.Totals(p, u), FS.Totals(0, p));
  }

  /** A map on the keys 1, 2 and 3 is determined by its three values. */
  lemma MapOfThree<V>(b: map<I64, V>, v1: V, v2: V, v3: V)
    requires b.Keys == {1, 2, 3}
    requires b[1] == v1 && b[2] == v2 && b[3] == v3
    ensures b == map[1 := v1, 2 := v2, 3 := v3]
  {
  }

  /** The same flow as seen by `read_balance`: after the `as u64` casts the
      caller reads back exactly the units of the two events. */
  lemma UsageThenPaymentBalance(d: D.Domain, h: Hasher, q: D.ReadBalanceQuery, usage: ResourceUsageV1, payment: UsagePaymentV1)
    requires usage.namespace == payment.namespace == q.namespaceName
    requires forall i :: 0 <= i < |d.fabricState.accounting| ==> d.fabricState.accounting[i].namespace != usage.namespace
    requires D.CheckAccess(d.fabricState, h, q.namespaceName, q.auth).Ok?
    ensures var d2 := SubmitAndHandle(SubmitAndHandle(d, ResourceUsage(usage)), UsagePayment(payment));
            D.ReadBalance(d2, h, q) == Ok(D.ReadBalanceOutput(map[
              1 := D.AccountBalance(usage.units, 0),
              2 := D.AccountBalance(payment.units, usage.units),
              3 := D.AccountBalance(0, payment.units)]))
  {
    var d1 := SubmitAndHandle(d, ResourceUsage(usage));
    var d2 := SubmitAndHandle(d1, UsagePayment(payment));
    assert d1.fabricState == D.OnResourceUsage(d.fabricState, usage).state;
    assert d2.fabricState == D.OnUsagePayment(d1.fabricState, payment).state;
    UsageThenPaymentTotals(d.fabricState, usage, payment);
    CheckAccessFrame(d.fabricState, d2.fabricState, h, q.namespaceName, q.auth);
    BalanceOfThree(d2, h, q, usage.units, payment.units);
  }

  /** `read_balance` over ledger totals of three accounts casts each back to
      the `u64` units they were booked from. */
  lemma BalanceOfThree(d: D.Domain, h: Hasher, q: D.ReadBalanceQuery, used: U64, paid: U64)
    requires D.CheckAccess(d.fabricState, h, q.namespaceName, q.auth).Ok?
    requires var u, p := U64ToI64(used), U64ToI64(paid);
             FS.ReadBalance(d.fabricState, q.namespaceName)
             == map[1 := FS.Totals(u, 0), 2 := FS.Totals(p, u), 3 := FS.Totals(0, p)]
    ensures D.ReadBalance(d, h, q) == Ok(D.ReadBalanceOutput(map[
              1 := D.AccountBalance(used, 0),
              2 := D.AccountBalance(paid, used),
              3 := D.AccountBalance(0, paid)]))
  {
    CastThree(used, paid);
  }

  /** The casts of three accounts' totals booked from `u64` units. */
  lemma CastThree(used: U64, paid: U64)
    ensures var u, p := U64ToI64(used), U64ToI64(paid);
            D.CastBalances(map[1 := FS.Totals(u, 0), 2 := FS.Totals(p, u), 3 := FS.Totals(0, p)])
            == map[1 := D.AccountBalance(used, 0), 2 := D.AccountBalance(paid, used), 3 := D.AccountBalance(0, paid)]
  {
    var u, p := U64ToI64(used), U64ToI64(paid);
    WrapOfCast(used);
    WrapOfCast(paid);
    CastOfThree(FS.Totals(u, 0), FS.Totals(p, u), FS.Totals(0, p));
  }

  /** Accounts 1, 2 and 3 keep their ids through the cast. */
  lemma CastOfThree(t1: FS.Totals, t2: FS.Totals, t3: FS.Totals)
    ensures D.CastBalances(map[1 := t1, 2 := t2, 3 := t3])
            == map[1 := D.AccountBalance(WrapU64(t1.debit), WrapU64(t1.credit)),
                   2 := D.AccountBalance(WrapU64(t2.debit), WrapU64(t2.credit)),
                   3 := D.AccountBalance(WrapU64(t3.debit), WrapU64(t3.credit))]
  {
    var b := map[1 := t1, 2 := t2, 3 := t3];
    CastOfThreeKeys(t1, t2, t3);
    CastKeepsAccount(b, 1);
    CastKeepsAccount(b, 2);
    CastKeepsAccount(b, 3);
    MapOfThree(D.CastBalances(b), D.AccountBalance(WrapU64(t1.debit), WrapU64(t1.credit)),
               D.AccountBalance(WrapU64(t2.debit), WrapU64(t2.credit)),
               D.AccountBalance(WrapU64(t3.debit), WrapU64(t3.credit)));
  }

  /** With non-negative account ids, the cast keeps exactly the same ids. */
  lemma CastKeepsIds(b: map<I64, FS.Totals>)
    requires forall a :: a in b ==> 0 <= a
    ensures forall a: U64 :: a in D.CastBalances(b) <==> a in b
  {
    forall a: U64 ensures a in D.CastBalances(b) <==> a in b {
      if a >= TWO_63 {
        assert U64ToI64(a) < 0;
      }
    }
  }

  /** The cast of three accounts has exactly their three ids. */
  lemma CastOfThreeKeys(t1: FS.Totals, t2: FS.Totals, t3: FS.Totals)
    ensures D.CastBalances(map[1 := t1, 2 := t2, 3 := t3]).Keys == {1, 2, 3}
  {
    var b := map[1 := t1, 2 := t2, 3 := t3];
    assert b.Keys == {1, 2, 3};
    CastKeepsIds(b);
  }

  /** A non-negative account id keeps its balance through the cast. */
  lemma CastKeepsAccount(b: map<I64, FS.Totals>, a: I64)
    requires a in b && 0 <= a
    ensures a in D.CastBalances(b)
    ensures D.CastBalances(b)[a] == D.AccountBalance(WrapU64(b[a].debit), WrapU64(b[a].credit))
  {
  }

  /** Summing a single `u64` booked as `i64` and casting back gives the units. */
  lemma WrapOfCast(x: U64)
    ensures WrapU64(U64ToI64(x)) == x
  {
  }

  /** The domain's end-to-end test, for any names, password, uuid and units:
      a namespace is minted; a key is registered under an owner signature;
      the key then authorises `create_resource`, whose uuid is the one the
      caller supplied; a usage and a payment follow; `read_balance`, with
      the key, reports the units of both. The test's own values are
      namespace "ns1", password "mybadpassword", usage 500 and payment 400. */
  lemma HappyPath(h: Hasher, cfg: D.Config, ns: string, rootKey: string, signature: string, timestamp: U64,
                  pwd: Bytes, name: string, kind: string, spec: Bytes, uuid: Uuid,
                  entry: Bytes, epoch: U64, cluster: Bytes, used: U64, paid: U64)
    requires h(pwd, D.SALT).Some?
    ensures
      var d0 := D.Domain(cfg, ED.Ephemeral(), FS.Ephemeral());
      var d1 := SubmitAndHandle(d0, NamespaceMinted(NamespaceMintedV1(ns, rootKey)));
      var r2 := D.RegisterApiKey(d1, h, D.RegisterApiKeyCmd(D.OwnerSignatureV1(signature, timestamp), ns, pwd));
      var d2 := D.Handle(r2.domain, ApiKeyRegistered(ApiKeyRegisteredV1(ns, h(pwd, D.SALT).value, D.SALT))).domain;
      var r3 := D.CreateResource(d2, h, D.CreateResourceCmd(D.ApiKeyV1(pwd), ns, name, kind, spec), uuid);
      && r2.result.Ok?
      && r3.result.Ok? && r3.result.value.resourceUuid == uuid
      && var created := ResourceCreated(ResourceCreatedV1(ResourceMetadataV1(ns, kind, name, uuid), spec));
         var d3 := D.Handle(r3.domain, created).domain;
         var d4 := SubmitAndHandle(d3, ResourceUsage(ResourceUsageV1(entry, epoch, ns, uuid, cluster, used)));
         var d5 := SubmitAndHandle(d4, UsagePayment(UsagePaymentV1(entry, epoch, ns, cluster, paid)));
         D.ReadBalance(d5, h, D.ReadBalanceQuery(D.ApiKeyV1(pwd), ns)) == Ok(D.ReadBalanceOutput(map[
           1 := D.AccountBalance(used, 0),
           2 := D.AccountBalance(paid, used),
           3 := D.AccountBalance(0, paid)]))
  {
    var d0 := D.Domain(cfg, ED.Ephemeral(), FS.Ephemeral());
    var d1 := SubmitAndHandle(d0, NamespaceMinted(NamespaceMintedV1(ns, rootKey)));
    assert FS.NamespaceExists(d1.fabricState, ns);
    assert d1.fabricState.apiKeys == [] && d1.fabricState.resources == [] && d1.fabricState.accounting == [];
    var r2 := D.RegisterApiKey(d1, h, D.RegisterApiKeyCmd(D.OwnerSignatureV1(signature, timestamp), ns, pwd));
    var key := FS.ApiKey(h(pwd, D.SALT).value, D.SALT);
    var d2 := D.Handle(r2.domain, ApiKeyRegistered(ApiKeyRegisteredV1(ns, key.digest, key.salt))).domain;
    assert FS.GetAllApiKeysForNamespace(d2.fabricState, ns) == FS.GetAllApiKeysForNamespace(d1.fabricState, ns) + [key];
    assert FS.GetAllApiKeysForNamespace(d1.fabricState, ns) == [];
    assert D.Matches(h, pwd, key);
    var cmd := D.CreateResourceCmd(D.ApiKeyV1(pwd), ns, name, kind, spec);
    assert D.CheckAccess(d2.fabricState, h, ns, cmd.auth).Ok?;
    var r3 := D.CreateResource(d2, h, cmd, uuid);
    var created := ResourceCreated(ResourceCreatedV1(ResourceMetadataV1(ns, kind, name, uuid), spec));
    var d3 := D.Handle(r3.domain, created).domain;
    assert d3.fabricState.accounting == [];
    CheckAccessFrame(d2.fabricState, d3.fabricState, h, ns, cmd.auth);
    var q := D.ReadBalanceQuery(D.ApiKeyV1(pwd), ns);
    UsageThenPaymentBalance(d3, h, q, ResourceUsageV1(entry, epoch, ns, uuid, cluster, used),
                            UsagePaymentV1(entry, epoch, ns, cluster, paid));
  }
}
