/** The projection store. The source keeps it in SQLite; here each table is
    an in-memory collection: namespaces as a set (only membership is ever
    queried), every other table as the sequence of rows in insertion order.
    Queries return rows in insertion order, but their contracts are stated
    so that they hold for any order (as multisets or memberships). */
module FabricState {
  import opened Base

  datatype ApiKey = ApiKey(digest: Bytes, salt: Bytes)

  datatype ApiKeyRow = ApiKeyRow(namespace: string, key: ApiKey)

  datatype ResourceRow = ResourceRow(namespace: string, kind: string, uuid: Bytes, name: string, manifest: Bytes)

  /** What `list_resources` selects from a resource row: no namespace, no manifest. */
  datatype ListResourceProj = ListResourceProj(name: string, uuid: Bytes, kind: string)

  datatype AccountDelta = AccountDelta(account: I64, debit: Option<I64>, credit: Option<I64>)

  /** One accounting row; the rows sharing `(epoch, entry)` form a ledger transaction. */
  datatype AccountingRow = AccountingRow(
    epoch: I64, entry: Bytes, cluster: Bytes, namespace: string, resource: Option<Bytes>, delta: AccountDelta)

  datatype FabricState = FabricState(
    namespaces: set<string>,
    apiKeys: seq<ApiKeyRow>,
    resources: seq<ResourceRow>,
    accounting: seq<AccountingRow>)

  function Ephemeral(): (s: FabricState)
    ensures forall n :: !NamespaceExists(s, n)
    ensures forall ns :: |GetAllApiKeysForNamespace(s, ns)| == 0
    ensures forall ns :: |ListResources(s, ns)| == 0
    ensures |s.accounting| == 0
  {
    FabricState({}, [], [], [])
  }

  predicate NamespaceExists(s: FabricState, name: string) {
    name in s.namespaces
  }

  /** Inserting a namespace makes it exist and leaves every other name and
      every other table as it was. */
  function InsertNamespace(s: FabricState, name: string): (s': FabricState)
    ensures NamespaceExists(s', name)
    ensures forall n :: n != name ==> (NamespaceExists(s', n) <==> NamespaceExists(s, n))
    ensures s'.apiKeys == s.apiKeys && s'.resources == s.resources && s'.accounting == s.accounting
  {
    s.(namespaces := s.namespaces + {name})
  }

  function InsertNamespaces(s: FabricState, names: seq<string>): FabricState
    decreases |names|
  {
    if names == [] then s else InsertNamespaces(InsertNamespace(s, names[0]), names[1..])
  }

  /** Starting from any store, after inserting `names`, a name exists exactly
      when it existed before or is one of `names`: existence of one name does
      not depend on the others. */
  lemma {:induction false} NamespaceExistsIffInserted(s: FabricState, names: seq<string>, n: string)
    ensures NamespaceExists(InsertNamespaces(s, names), n) <==> NamespaceExists(s, n) || n in names
    decreases |names|
  {
    if names != [] {
      NamespaceExistsIffInserted(InsertNamespace(s, names[0]), names[1..], n);
      assert names == [names[0]] + names[1..];
    }
  }

  /** In a fresh store, a name exists exactly when it was inserted. */
  lemma NamespacePersistence(names: seq<string>, n: string)
    ensures NamespaceExists(InsertNamespaces(Ephemeral(), names), n) <==> n in names
  {
    NamespaceExistsIffInserted(Ephemeral(), names, n);
  }

  /** Adds one credential row; no uniqueness on digest or salt, nothing else
      changes and no earlier row is touched. */
  function InsertApiKey(s: FabricState, ns: string, digest: Bytes, salt: Bytes): (s': FabricState)
    ensures s'.namespaces == s.namespaces && s'.resources == s.resources && s'.accounting == s.accounting
    ensures |s'.apiKeys| == |s.apiKeys| + 1 && s.apiKeys <= s'.apiKeys
    ensures s'.apiKeys[|s.apiKeys|] == ApiKeyRow(ns, ApiKey(digest, salt))
  {
    s.(apiKeys := s.apiKeys + [ApiKeyRow(ns, ApiKey(digest, salt))])
  }

  /** The `(digest, salt)` pairs stored under `ns`, in insertion order. */
  function KeysOf(rows: seq<ApiKeyRow>, ns: string): seq<ApiKey>
    decreases |rows|
  {
    if rows == [] then []
    else
      var last := rows[|rows| - 1];
      if last.namespace == ns then KeysOf(rows[..|rows| - 1], ns) + [last.key] else KeysOf(rows[..|rows| - 1], ns)
  }

  /** Each pair is returned exactly as often as it was stored under `ns`;
      rows of other namespaces are excluded. */
  lemma {:induction false} KeysOfCounts(rows: seq<ApiKeyRow>, ns: string, k: ApiKey)
    ensures multiset(KeysOf(rows, ns))[k] == multiset(rows)[ApiKeyRow(ns, k)]
    decreases |rows|
  {
    if rows != [] {
      var init := rows[..|rows| - 1];
      assert rows == init + [rows[|rows| - 1]];
      KeysOfCounts(init, ns, k);
    }
  }

  /** One `(digest, salt)` per row stored under `ns`, no more and no fewer. */
  function GetAllApiKeysForNamespace(s: FabricState, ns: string): (r: seq<ApiKey>)
    ensures forall k :: multiset(r)[k] == multiset(s.apiKeys)[ApiKeyRow(ns, k)]
  {
    var r := KeysOf(s.apiKeys, ns);
    forall k ensures multiset(r)[k] == multiset(s.apiKeys)[ApiKeyRow(ns, k)] {
      KeysOfCounts(s.apiKeys, ns, k);
    }
    r
  }

  /** A new credential shows up in its own namespace's query and in no other. */
  lemma InsertApiKeyQuery(s: FabricState, ns: string, digest: Bytes, salt: Bytes, m: string)
    ensures GetAllApiKeysForNamespace(InsertApiKey(s, ns, digest, salt), m)
         == if m == ns then GetAllApiKeysForNamespace(s, m) + [ApiKey(digest, salt)]
            else GetAllApiKeysForNamespace(s, m)
  {
    var rows := InsertApiKey(s, ns, digest, salt).apiKeys;
    assert rows[..|rows| - 1] == s.apiKeys;
  }

  /** Three inserts, two under `n1` and one under `n2`, as seen by a query for `n1`. */
  lemma ThreeKeysFirstNamespace(n1: string, n2: string, k1: ApiKey, k2: ApiKey, k3: ApiKey)
    requires n1 != n2
    ensures var s1 := InsertApiKey(Ephemeral(), n1, k1.digest, k1.salt);
            var s2 := InsertApiKey(s1, n1, k2.digest, k2.salt);
            var s3 := InsertApiKey(s2, n2, k3.digest, k3.salt);
            GetAllApiKeysForNamespace(s3, n1) == [k1, k2]
  {
    var s0 := Ephemeral();
    var s1 := InsertApiKey(s0, n1, k1.digest, k1.salt);
    var s2 := InsertApiKey(s1, n1, k2.digest, k2.salt);
    var s3 := InsertApiKey(s2, n2, k3.digest, k3.salt);
    InsertApiKeyQuery(s0, n1, k1.digest, k1.salt, n1);
    InsertApiKeyQuery(s1, n1, k2.digest, k2.salt, n1);
    InsertApiKeyQuery(s2, n2, k3.digest, k3.salt, n1);
    var e := GetAllApiKeysForNamespace(s0, n1);
    assert e == [];
    assert GetAllApiKeysForNamespace(s3, n1) == e + [k1] + [k2];
  }

  /** The same three inserts, as seen by a query for `n2`. */
  lemma ThreeKeysSecondNamespace(n1: string, n2: string, k1: ApiKey, k2: ApiKey, k3: ApiKey)
    requires n1 != n2
    ensures var s1 := InsertApiKey(Ephemeral(), n1, k1.digest, k1.salt);
            var s2 := InsertApiKey(s1, n1, k2.digest, k2.salt);
            var s3 := InsertApiKey(s2, n2, k3.digest, k3.salt);
            GetAllApiKeysForNamespace(s3, n2) == [k3]
  {
    var s0 := Ephemeral();
    var s1 := InsertApiKey(s0, n1, k1.digest, k1.salt);
    var s2 := InsertApiKey(s1, n1, k2.digest, k2.salt);
    var s3 := InsertApiKey(s2, n2, k3.digest, k3.salt);
    InsertApiKeyQuery(s0, n1, k1.digest, k1.salt, n2);
    InsertApiKeyQuery(s1, n1, k2.digest, k2.salt, n2);
    InsertApiKeyQuery(s2, n2, k3.digest, k3.salt, n2);
    var e := GetAllApiKeysForNamespace(s0, n2);
    assert e == [];
    assert GetAllApiKeysForNamespace(s3, n2) == e + [k3];
  }

  /** The store's own test, for any two distinct namespaces: two keys in the
      first, one in the second; each query sees exactly its own namespace's
      keys, both of them in the case of the first, in whatever order. */
  lemma ApiKeysPersistence(n1: string, n2: string, k1: ApiKey, k2: ApiKey, k3: ApiKey)
    requires n1 != n2
    ensures var s1 := InsertApiKey(Ephemeral(), n1, k1.digest, k1.salt);
            var s2 := InsertApiKey(s1, n1, k2.digest, k2.salt);
            var s3 := InsertApiKey(s2, n2, k3.digest, k3.salt);
            && multiset(GetAllApiKeysForNamespace(s3, n1)) == multiset{k1, k2}
            && multiset(GetAllApiKeysForNamespace(s3, n2)) == multiset{k3}
  {
    ThreeKeysFirstNamespace(n1, n2, k1, k2, k3);
    ThreeKeysSecondNamespace(n1, n2, k1, k2, k3);
  }

  /** Adds one resource row; nothing else changes and no earlier row is touched. */
  function InsertResource(s: FabricState, ns: string, kind: string, uuid: Bytes, name: string, manifest: Bytes)
    : (s': FabricState)
    ensures s'.namespaces == s.namespaces && s'.apiKeys == s.apiKeys && s'.accounting == s.accounting
    ensures |s'.resources| == |s.resources| + 1 && s.resources <= s'.resources
    ensures s'.resources[|s.resources|] == ResourceRow(ns, kind, uuid, name, manifest)
  {
    s.(resources := s.resources + [ResourceRow(ns, kind, uuid, name, manifest)])
  }

  function Project(row: ResourceRow): ListResourceProj {
    ListResourceProj(row.name, row.uuid, row.kind)
  }

  /** `(name, uuid, kind)` of exactly the rows stored under `ns`. */
  function ProjectionsOf(rows: seq<ResourceRow>, ns: string): (r: seq<ListResourceProj>)
    ensures forall i :: 0 <= i < |rows| && rows[i].namespace == ns ==> Project(rows[i]) in r
    ensures forall p :: p in r ==> exists i :: 0 <= i < |rows| && rows[i].namespace == ns && Project(rows[i]) == p
    ensures |r| <= |rows|
    decreases |rows|
  {
    if rows == [] then []
    else
      var init := rows[..|rows| - 1];
      var last := rows[|rows| - 1];
      var r := if last.namespace == ns then ProjectionsOf(init, ns) + [Project(last)] else ProjectionsOf(init, ns);
      assert forall i :: 0 <= i < |init| ==> init[i] == rows[i];
      r
  }

  /** How many rows stored under `ns` project to `p`. */
  function RowsProjectingTo(rows: seq<ResourceRow>, ns: string, p: ListResourceProj): nat
    decreases |rows|
  {
    if rows == [] then 0
    else (if rows[0].namespace == ns && Project(rows[0]) == p then 1 else 0)
         + RowsProjectingTo(rows[1..], ns, p)
  }

  lemma {:induction false} RowsProjectingToAppend(rows: seq<ResourceRow>, row: ResourceRow, ns: string, p: ListResourceProj)
    ensures RowsProjectingTo(rows + [row], ns, p)
         == RowsProjectingTo(rows, ns, p) + (if row.namespace == ns && Project(row) == p then 1 else 0)
    decreases |rows|
  {
    if rows != [] {
      assert (rows + [row])[1..] == rows[1..] + [row];
      RowsProjectingToAppend(rows[1..], row, ns, p);
    }
  }

  /** The listing has one item per row of `ns`: each projection occurs
      exactly as often as rows of `ns` project to it, duplicates included. */
  lemma {:induction false} ProjectionsOfCounts(rows: seq<ResourceRow>, ns: string, p: ListResourceProj)
    ensures multiset(ProjectionsOf(rows, ns))[p] == RowsProjectingTo(rows, ns, p)
    decreases |rows|
  {
    if rows != [] {
      var init := rows[..|rows| - 1];
      assert rows == init + [rows[|rows| - 1]];
      ProjectionsOfCounts(init, ns, p);
      RowsProjectingToAppend(init, rows[|rows| - 1], ns, p);
    }
  }

  /** `list_resources`: every row of `ns`, projected, once each. */
  function ListResources(s: FabricState, ns: string): (r: seq<ListResourceProj>)
    ensures forall p :: multiset(r)[p] == RowsProjectingTo(s.resources, ns, p)
  {
    var r := ProjectionsOf(s.resources, ns);
    forall p ensures multiset(r)[p] == RowsProjectingTo(s.resources, ns, p) {
      ProjectionsOfCounts(s.resources, ns, p);
    }
    r
  }

  /** A new resource shows up, without its manifest, in its own namespace's
      listing and in no other. */
  lemma InsertResourceQuery(s: FabricState, ns: string, kind: string, uuid: Bytes, name: string, manifest: Bytes, m: string)
    ensures ListResources(InsertResource(s, ns, kind, uuid, name, manifest), m)
         == if m == ns then ListResources(s, m) + [ListResourceProj(name, uuid, kind)]
            else ListResources(s, m)
  {
    var rows := InsertResource(s, ns, kind, uuid, name, manifest).resources;
    assert rows[..|rows| - 1] == s.resources;
  }

  /** The rows of one ledger transaction, one per delta, all sharing its tags. */
  function TransactionRows(epoch: I64, entry: Bytes, cluster: Bytes, ns: string, resource: Option<Bytes>,
                           deltas: seq<AccountDelta>): (rows: seq<AccountingRow>)
    ensures |rows| == |deltas|
    ensures forall i :: 0 <= i < |rows| ==> rows[i].namespace == ns && rows[i].delta == deltas[i]
    ensures forall i :: 0 <= i < |rows| ==> rows[i].epoch == epoch && rows[i].entry == entry
    ensures forall i :: 0 <= i < |rows| ==> rows[i].cluster == cluster && rows[i].resource == resource
  {
    seq(|deltas|, i requires 0 <= i < |deltas| => AccountingRow(epoch, entry, cluster, ns, resource, deltas[i]))
  }

  /** Inserts all rows of one ledger transaction at once; earlier rows stay. */
  function InsertAccounting(s: FabricState, epoch: I64, entry: Bytes, cluster: Bytes, ns: string,
                            resource: Option<Bytes>, deltas: seq<AccountDelta>): (s': FabricState)
    ensures s'.namespaces == s.namespaces && s'.apiKeys == s.apiKeys && s'.resources == s.resources
    ensures s.accounting <= s'.accounting
    ensures s'.accounting[|s.accounting|..] == TransactionRows(epoch, entry, cluster, ns, resource, deltas)
  {
    s.(accounting := s.accounting + TransactionRows(epoch, entry, cluster, ns, resource, deltas))
  }

  datatype Side = Debit | Credit

  /** A missing debit or credit counts as zero. */
  function Amount(d: AccountDelta, side: Side): int {
    var v := if side == Debit then d.debit else d.credit;
    if v.Some? then v.value else 0
  }

  /** Sum of one side of `account` over the rows of `ns`. */
  function AccountTotal(rows: seq<AccountingRow>, ns: string, account: I64, side: Side): int
    decreases |rows|
  {
    if rows == [] then 0
    else
      var last := rows[|rows| - 1];
      AccountTotal(rows[..|rows| - 1], ns, account, side)
        + (if last.namespace == ns && last.delta.account == account then Amount(last.delta, side) else 0)
  }

  /** Sum of one side over all rows of `ns`, whatever the account. */
  function NamespaceTotal(rows: seq<AccountingRow>, ns: string, side: Side): int
    decreases |rows|
  {
    if rows == [] then 0
    else
      var last := rows[|rows| - 1];
      NamespaceTotal(rows[..|rows| - 1], ns, side) + (if last.namespace == ns then Amount(last.delta, side) else 0)
  }

  /** Sum of one side over the deltas of a transaction. */
  function DeltaTotal(deltas: seq<AccountDelta>, side: Side): int
    decreases |deltas|
  {
    if deltas == [] then 0 else DeltaTotal(deltas[..|deltas| - 1], side) + Amount(deltas[|deltas| - 1], side)
  }

  /** Double-entry balance of one transaction. */
  predicate Balanced(deltas: seq<AccountDelta>) {
    DeltaTotal(deltas, Debit) == DeltaTotal(deltas, Credit)
  }

  /** Every namespace's rows carry as much debit as credit. */
  ghost predicate LedgerBalanced(s: FabricState) {
    forall ns :: NamespaceTotal(s.accounting, ns, Debit) == NamespaceTotal(s.accounting, ns, Credit)
  }

  lemma {:induction false} AccountTotalAppend(a: seq<AccountingRow>, b: seq<AccountingRow>, ns: string, account: I64, side: Side)
    ensures AccountTotal(a + b, ns, account, side) == AccountTotal(a, ns, account, side) + AccountTotal(b, ns, account, side)
    decreases |b|
  {
    if b != [] {
      var b' := b[..|b| - 1];
      assert (a + b)[..|a + b| - 1] == a + b';
      AccountTotalAppend(a, b', ns, account, side);
    } else {
      assert a + b == a;
    }
  }

  lemma {:induction false} NamespaceTotalAppend(a: seq<AccountingRow>, b: seq<AccountingRow>, ns: string, side: Side)
    ensures NamespaceTotal(a + b, ns, side) == NamespaceTotal(a, ns, side) + NamespaceTotal(b, ns, side)
    decreases |b|
  {
    if b != [] {
      var b' := b[..|b| - 1];
      assert (a + b)[..|a + b| - 1] == a + b';
      NamespaceTotalAppend(a, b', ns, side);
    } else {
      assert a + b == a;
    }
  }

  /** A transaction's rows contribute to their namespace exactly the
      transaction's own totals, and nothing to any other namespace. */
  lemma {:induction false} TransactionNamespaceTotal(epoch: I64, entry: Bytes, cluster: Bytes, ns: string,
                                                     resource: Option<Bytes>, deltas: seq<AccountDelta>, m: string, side: Side)
    ensures NamespaceTotal(TransactionRows(epoch, entry, cluster, ns, resource, deltas), m, side)
         == if m == ns then DeltaTotal(deltas, side) else 0
    decreases |deltas|
  {
    if deltas != [] {
      var rows := TransactionRows(epoch, entry, cluster, ns, resource, deltas);
      var d' := deltas[..|deltas| - 1];
      assert rows[..|rows| - 1] == TransactionRows(epoch, entry, cluster, ns, resource, d');
      TransactionNamespaceTotal(epoch, entry, cluster, ns, resource, d', m, side);
    }
  }

  /** Sum of one side of `account` over the deltas of a transaction. */
  function DeltaAccountTotal(deltas: seq<AccountDelta>, account: I64, side: Side): int
    decreases |deltas|
  {
    if deltas == [] then 0
    else
      var last := deltas[|deltas| - 1];
      DeltaAccountTotal(deltas[..|deltas| - 1], account, side) + (if last.account == account then Amount(last, side) else 0)
  }

  lemma {:induction false} TransactionAccountTotal(epoch: I64, entry: Bytes, cluster: Bytes, ns: string,
                                                   resource: Option<Bytes>, deltas: seq<AccountDelta>,
                                                   m: string, account: I64, side: Side)
    ensures AccountTotal(TransactionRows(epoch, entry, cluster, ns, resource, deltas), m, account, side)
         == if m == ns then DeltaAccountTotal(deltas, account, side) else 0
    decreases |deltas|
  {
    if deltas != [] {
      var rows := TransactionRows(epoch, entry, cluster, ns, resource, deltas);
      var d' := deltas[..|deltas| - 1];
      assert rows[..|rows| - 1] == TransactionRows(epoch, entry, cluster, ns, resource, d');
      TransactionAccountTotal(epoch, entry, cluster, ns, resource, d', m, account, side);
    }
  }

  /** Inserting a transaction moves exactly the balances its deltas name, in
      its own namespace, and no other. */
  lemma InsertAccountingEffect(s: FabricState, epoch: I64, entry: Bytes, cluster: Bytes, ns: string,
                               resource: Option<Bytes>, deltas: seq<AccountDelta>)
    ensures forall m, account, side ::
              AccountTotal(InsertAccounting(s, epoch, entry, cluster, ns, resource, deltas).accounting, m, account, side)
              == AccountTotal(s.accounting, m, account, side) + (if m == ns then DeltaAccountTotal(deltas, account, side) else 0)
  {
    var rows := TransactionRows(epoch, entry, cluster, ns, resource, deltas);
    forall m, account, side
      ensures AccountTotal(s.accounting + rows, m, account, side)
              == AccountTotal(s.accounting, m, account, side) + (if m == ns then DeltaAccountTotal(deltas, account, side) else 0)
    {
      AccountTotalAppend(s.accounting, rows, m, account, side);
      TransactionAccountTotal(epoch, entry, cluster, ns, resource, deltas, m, account, side);
    }
  }

  /** The totals of a two-leg transaction, leg by leg. */
  lemma TwoLegTotals(d1: AccountDelta, d2: AccountDelta)
    ensures forall side :: DeltaTotal([d1, d2], side) == Amount(d1, side) + Amount(d2, side)
    ensures forall account, side :: DeltaAccountTotal([d1, d2], account, side)
              == (if d1.account == account then Amount(d1, side) else 0) + (if d2.account == account then Amount(d2, side) else 0)
  {
    assert [d1, d2][..1] == [d1];
    assert [d1][..0] == [];
    forall side ensures DeltaTotal([d1, d2], side) == Amount(d1, side) + Amount(d2, side) {
      assert DeltaTotal([d1], side) == Amount(d1, side);
    }
    forall account, side
      ensures DeltaAccountTotal([d1, d2], account, side)
              == (if d1.account == account then Amount(d1, side) else 0) + (if d2.account == account then Amount(d2, side) else 0)
    {
      assert DeltaAccountTotal([d1], account, side) == (if d1.account == account then Amount(d1, side) else 0);
    }
  }

  /** Inserting a balanced transaction keeps the whole ledger balanced. */
  lemma InsertBalancedPreservesLedger(s: FabricState, epoch: I64, entry: Bytes, cluster: Bytes, ns: string,
                                      resource: Option<Bytes>, deltas: seq<AccountDelta>)
    requires LedgerBalanced(s)
    requires Balanced(deltas)
    ensures LedgerBalanced(InsertAccounting(s, epoch, entry, cluster, ns, resource, deltas))
  {
    var rows := TransactionRows(epoch, entry, cluster, ns, resource, deltas);
    var s' := InsertAccounting(s, epoch, entry, cluster, ns, resource, deltas);
    forall m
      ensures NamespaceTotal(s'.accounting, m, Debit) == NamespaceTotal(s'.accounting, m, Credit)
    {
      NamespaceTotalAppend(s.accounting, rows, m, Debit);
      NamespaceTotalAppend(s.accounting, rows, m, Credit);
      TransactionNamespaceTotal(epoch, entry, cluster, ns, resource, deltas, m, Debit);
      TransactionNamespaceTotal(epoch, entry, cluster, ns, resource, deltas, m, Credit);
    }
  }

  /** Balances do not depend on the order rows were inserted in: any
      reordering of the same rows gives the same totals. */
  lemma {:induction false} AccountTotalOrderIndependent(a: seq<AccountingRow>, b: seq<AccountingRow>, ns: string,
                                                        account: I64, side: Side)
    requires multiset(a) == multiset(b)
    ensures AccountTotal(a, ns, account, side) == AccountTotal(b, ns, account, side)
    decreases |a|
  {
    if a == [] {
      assert |multiset(b)| == 0;
    } else {
      var x := a[|a| - 1];
      var a' := a[..|a| - 1];
      assert a == a' + [x];
      assert x in multiset(b);
      var k :| 0 <= k < |b| && b[k] == x;
      var b1, b2 := b[..k], b[k + 1..];
      assert b == b1 + [x] + b2;
      RemoveFromPermutation(a', x, b1, b2);
      AccountTotalOrderIndependent(a', b1 + b2, ns, account, side);
      AccountTotalAppend(b1, b2, ns, account, side);
      AccountTotalAppend(b1 + [x], b2, ns, account, side);
      AccountTotalAppend(b1, [x], ns, account, side);
      AccountTotalAppend(a', [x], ns, account, side);
      assert AccountTotal([x], ns, account, side) == AccountTotal([], ns, account, side)
        + (if x.namespace == ns && x.delta.account == account then Amount(x.delta, side) else 0);
    }
  }

  /** Taking the same element out of two permutations of each other leaves
      permutations of each other. */
  lemma RemoveFromPermutation<T>(a: seq<T>, x: T, b1: seq<T>, b2: seq<T>)
    requires multiset(a + [x]) == multiset(b1 + [x] + b2)
    ensures multiset(a) == multiset(b1 + b2)
  {
    calc {
      multiset(a);
      multiset(a + [x]) - multiset{x};
      multiset(b1 + [x] + b2) - multiset{x};
      { assert multiset(b1 + [x] + b2) == multiset(b1) + multiset{x} + multiset(b2); }
      multiset(b1) + multiset(b2);
      multiset(b1 + b2);
    }
  }

  /** The accounts a transaction's deltas name. */
  function DeltaAccounts(deltas: seq<AccountDelta>): set<I64> {
    set i | 0 <= i < |deltas| :: deltas[i].account
  }

  /** The accounts of two runs of rows put together. */
  lemma AccountsOfAppend(a: seq<AccountingRow>, b: seq<AccountingRow>, m: string)
    ensures AccountsOf(a + b, m) == AccountsOf(a, m) + AccountsOf(b, m)
  {
    var rows := a + b;
    forall x | x in AccountsOf(rows, m) ensures x in AccountsOf(a, m) + AccountsOf(b, m) {
      var i :| 0 <= i < |rows| && rows[i].namespace == m && rows[i].delta.account == x;
      if i >= |a| {
        assert b[i - |a|] == rows[i];
      }
    }
    forall x | x in AccountsOf(a, m) ensures x in AccountsOf(rows, m) {
      var i :| 0 <= i < |a| && a[i].namespace == m && a[i].delta.account == x;
      assert rows[i] == a[i];
    }
    forall x | x in AccountsOf(b, m) ensures x in AccountsOf(rows, m) {
      var j :| 0 <= j < |b| && b[j].namespace == m && b[j].delta.account == x;
      assert rows[|a| + j] == b[j];
    }
  }

  /** A transaction's rows name exactly its deltas' accounts, all in its own namespace. */
  lemma TransactionAccounts(epoch: I64, entry: Bytes, cluster: Bytes, ns: string, resource: Option<Bytes>,
                            deltas: seq<AccountDelta>, m: string)
    ensures AccountsOf(TransactionRows(epoch, entry, cluster, ns, resource, deltas), m)
         == if m == ns then DeltaAccounts(deltas) else {}
  {
    var rows := TransactionRows(epoch, entry, cluster, ns, resource, deltas);
    if m == ns {
      forall x | x in DeltaAccounts(deltas) ensures x in AccountsOf(rows, m) {
        var j :| 0 <= j < |deltas| && deltas[j].account == x;
        assert rows[j].delta == deltas[j];
      }
    }
  }

  /** Inserting a transaction adds its accounts to its own namespace's
      account set and to no other. */
  lemma InsertAccountingAccounts(s: FabricState, epoch: I64, entry: Bytes, cluster: Bytes, ns: string,
                                 resource: Option<Bytes>, deltas: seq<AccountDelta>, m: string)
    ensures AccountsOf(InsertAccounting(s, epoch, entry, cluster, ns, resource, deltas).accounting, m)
         == AccountsOf(s.accounting, m) + (if m == ns then DeltaAccounts(deltas) else {})
  {
    var tr := TransactionRows(epoch, entry, cluster, ns, resource, deltas);
    assert InsertAccounting(s, epoch, entry, cluster, ns, resource, deltas).accounting == s.accounting + tr;
    AccountsOfAppend(s.accounting, tr, m);
    TransactionAccounts(epoch, entry, cluster, ns, resource, deltas, m);
  }

  /** A namespace without rows has zero totals everywhere. */
  lemma {:induction false} NoRowsNoTotals(rows: seq<AccountingRow>, ns: string, account: I64, side: Side)
    requires forall i :: 0 <= i < |rows| ==> rows[i].namespace != ns
    ensures AccountTotal(rows, ns, account, side) == 0
    decreases |rows|
  {
    if rows != [] {
      NoRowsNoTotals(rows[..|rows| - 1], ns, account, side);
    }
  }

  datatype Totals = Totals(debit: int, credit: int)

  /** The accounts that have at least one row in `ns`. */
  function AccountsOf(rows: seq<AccountingRow>, ns: string): set<I64> {
    set i | 0 <= i < |rows| && rows[i].namespace == ns :: rows[i].delta.account
  }

  /** The derived balance view: per account of `ns`, its summed debits and credits. */
  function ReadBalance(s: FabricState, ns: string): (b: map<I64, Totals>)
    ensures forall a :: a in b ==> exists i :: 0 <= i < |s.accounting| && s.accounting[i].namespace == ns
                                             && s.accounting[i].delta.account == a
    ensures forall i :: 0 <= i < |s.accounting| && s.accounting[i].namespace == ns ==> s.accounting[i].delta.account in b
  {
    map a | a in AccountsOf(s.accounting, ns)
      :: Totals(AccountTotal(s.accounting, ns, a, Debit), AccountTotal(s.accounting, ns, a, Credit))
  }
}
