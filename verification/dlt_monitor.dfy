/** The chain follower that turns DCU payments into ledger facts: which
    transactions of an applied block pay in DCU, and how each becomes a
    `UsagePaymentV1`. The tip-follower client and the subscription loop are
    outside the model; a tip event is a value. */
module DltMonitor {
  import opened Base
  import opened Events
  import FS = FabricState
  import D = Domain

  /** The policy part of a native-asset bundle carried by an output. */
  datatype Multiasset = Multiasset(policyId: string)

  datatype TxOutput = TxOutput(coin: U64, assets: seq<Multiasset>)

  /** One transaction-metadata entry: its label (`tag`) and a value read as a
      namespace name. */
  datatype Metadata = Metadata(tag: U64, value: string)

  datatype AuxData = AuxData(metadata: seq<Metadata>)

  datatype Tx = Tx(hash: Bytes, outputs: seq<TxOutput>, auxiliary: Option<AuxData>)

  datatype BlockBody = BlockBody(tx: seq<Tx>)

  datatype Block = Block(body: Option<BlockBody>)

  datatype TipEvent = Apply(applied: Block) | Undo(undone: Block) | Reset

  datatype Config = Config(u5cEndpoint: string, dcuPolicy: string)

  /** The metadata label under which a payment names its namespace. */
  const NAMESPACE_LABEL: U64 := 1791

  /** Every payment is booked in this epoch for now. */
  const PAYMENT_EPOCH: U64 := 1

  // ------------------------------------------------------------ the filter

  /** Some asset bundle of the list is under `policy`. */
  function AnyAssetOf(assets: seq<Multiasset>, policy: string): (b: bool)
    ensures b <==> exists j :: 0 <= j < |assets| && assets[j].policyId == policy
  {
    if |assets| == 0 then false
    else assets[0].policyId == policy || AnyAssetOf(assets[1..], policy)
  }

  /** The flattened scan over every output's assets. */
  function AnyOutputOf(outputs: seq<TxOutput>, policy: string): (b: bool)
    ensures b <==> exists i :: 0 <= i < |outputs| && AnyAssetOf(outputs[i].assets, policy)
  {
    if |outputs| == 0 then false
    else AnyAssetOf(outputs[0].assets, policy) || AnyOutputOf(outputs[1..], policy)
  }

  /** A transaction pays in DCU exactly when one of its outputs carries an
      asset under the configured policy. */
  function IsDcuPayment(tx: Tx, config: Config): (b: bool)
    ensures b <==> exists i, j :: 0 <= i < |tx.outputs| && 0 <= j < |tx.outputs[i].assets|
                                 && tx.outputs[i].assets[j].policyId == config.dcuPolicy
  {
    AnyOutputOf(tx.outputs, config.dcuPolicy)
  }

  /** No outputs, or outputs without assets, is never a DCU payment. */
  lemma NoAssetsNoPayment(tx: Tx, config: Config)
    requires forall i :: 0 <= i < |tx.outputs| ==> |tx.outputs[i].assets| == 0
    ensures !IsDcuPayment(tx, config)
  {
  }

  /** A DCU payment has a first output, so the units can be read. */
  lemma DcuPaymentHasOutputs(tx: Tx, config: Config)
    requires IsDcuPayment(tx, config)
    ensures |tx.outputs| > 0
  {
  }

  /** `a` is `b` with some elements dropped and the rest in their order. */
  predicate IsSubsequence<T(==)>(a: seq<T>, b: seq<T>)
    decreases |b|
  {
    || a == []
    || (b != [] && ((a[0] == b[0] && IsSubsequence(a[1..], b[1..])) || IsSubsequence(a, b[1..])))
  }

  /** The transactions of a block that are kept, in block order. */
  function DcuPayments(txs: seq<Tx>, config: Config): (r: seq<Tx>)
    ensures |r| <= |txs|
    ensures IsSubsequence(r, txs)
    ensures forall k :: 0 <= k < |r| ==> IsDcuPayment(r[k], config)
    ensures forall k :: 0 <= k < |r| ==> r[k] in txs
  {
    if |txs| == 0 then []
    else
      var rest := DcuPayments(txs[1..], config);
      if IsDcuPayment(txs[0], config) then [txs[0]] + rest else rest
  }

  /** The filter keeps every DCU payment as often as it occurs and drops
      everything else. */
  lemma {:induction false} DcuPaymentsCounts(txs: seq<Tx>, config: Config, tx: Tx)
    ensures multiset(DcuPayments(txs, config))[tx] == if IsDcuPayment(tx, config) then multiset(txs)[tx] else 0
  {
    if |txs| > 0 {
      var rest := DcuPayments(txs[1..], config);
      DcuPaymentsCounts(txs[1..], config, tx);
      assert txs == [txs[0]] + txs[1..];
      assert multiset(txs) == multiset{txs[0]} + multiset(txs[1..]);
      if IsDcuPayment(txs[0], config) {
        assert multiset(DcuPayments(txs, config)) == multiset{txs[0]} + multiset(rest);
      } else {
        assert DcuPayments(txs, config) == rest;
      }
    }
  }

  /** The filter applied to a tip event. An applied block without a body,
      and the `Undo` and `Reset` events, are not handled and end the monitor
      (`None`). */
  function ApplyTxs(event: TipEvent, config: Config): (r: Option<seq<Tx>>)
    ensures r.Some? <==> event.Apply? && event.applied.body.Some?
    ensures r.Some? ==> r.value == DcuPayments(event.applied.body.value.tx, config)
  {
    match event
    case Apply(block) =>
      if block.body.None? then None else Some(DcuPayments(block.body.value.tx, config))
    case Undo(_) => None
    case Reset => None
  }

  // ----------------------------------------------------------- the mapping

  /** The first metadata entry under label `tag`, scanning in order. */
  function FindLabel(metadata: seq<Metadata>, tag: U64): (r: Option<Metadata>)
    ensures r.None? <==> forall i :: 0 <= i < |metadata| ==> metadata[i].tag != tag
    ensures r.Some? ==> exists i :: 0 <= i < |metadata| && metadata[i] == r.value
                                    && forall j :: 0 <= j < i ==> metadata[j].tag != tag
    ensures r.Some? ==> r.value.tag == tag
  {
    if |metadata| == 0 then None
    else if metadata[0].tag == tag then Some(metadata[0])
    else
      var r := FindLabel(metadata[1..], tag);
      assert r.Some? ==> exists i :: 0 <= i < |metadata| && metadata[i] == r.value
                                     && forall j :: 0 <= j < i ==> metadata[j].tag != tag by {
        if r.Some? {
          var i :| 0 <= i < |metadata[1..]| && metadata[1..][i] == r.value
                   && forall j :: 0 <= j < i ==> metadata[1..][j].tag != tag;
          assert metadata[i + 1] == r.value;
          assert forall j :: 0 <= j < i + 1 ==> metadata[j].tag != tag by {
            forall j | 0 <= j < i + 1 ensures metadata[j].tag != tag {
              if j > 0 {
                assert metadata[j] == metadata[1..][j - 1];
              }
            }
          }
        }
      }
      r
  }

  /** The payment a kept transaction stands for: its hash is the entry, the
      epoch is fixed, the namespace is named by metadata label 1791 and the
      units are the first output's coin. Each of the three unwraps panics
      when its part is missing (`None`). The payment variant this code builds
      has no cluster, so the cluster is supplied by the caller. */
  function ToUsagePayment(tx: Tx, cluster: Bytes): (r: Option<UsagePaymentV1>)
    ensures r.Some? <==>
              && tx.auxiliary.Some?
              && (exists i :: 0 <= i < |tx.auxiliary.value.metadata| && tx.auxiliary.value.metadata[i].tag == NAMESPACE_LABEL)
              && |tx.outputs| > 0
    ensures r.Some? ==>
              && r.value.entry == tx.hash
              && r.value.epoch == PAYMENT_EPOCH
              && r.value.cluster == cluster
              && r.value.units == tx.outputs[0].coin
              && r.value.namespace == FindLabel(tx.auxiliary.value.metadata, NAMESPACE_LABEL).value.value
  {
    if tx.auxiliary.None? then None
    else
      var found := FindLabel(tx.auxiliary.value.metadata, NAMESPACE_LABEL);
      if found.None? || |tx.outputs| == 0 then None
      else Some(UsagePaymentV1(tx.hash, PAYMENT_EPOCH, found.value.value, cluster, tx.outputs[0].coin))
  }

  /** The namespace is the first entry under label 1791, not any later one. */
  lemma FirstLabelWins(hash: Bytes, outputs: seq<TxOutput>, ns1: string, ns2: string, cluster: Bytes)
    requires |outputs| > 0
    ensures var aux := AuxData([Metadata(NAMESPACE_LABEL, ns1), Metadata(NAMESPACE_LABEL, ns2)]);
            var r := ToUsagePayment(Tx(hash, outputs, Some(aux)), cluster);
            r.Some? && r.value.namespace == ns1
  {
  }

  /** Every kept transaction of an applied block maps to a payment, or the
      monitor panics on the first one that cannot. */
  function Payments(txs: seq<Tx>, cluster: Bytes): (r: Option<seq<UsagePaymentV1>>)
    ensures r.Some? <==> forall k :: 0 <= k < |txs| ==> ToUsagePayment(txs[k], cluster).Some?
    ensures r.Some? ==> |r.value| == |txs|
                        && forall k :: 0 <= k < |txs| ==> r.value[k] == ToUsagePayment(txs[k], cluster).value
  {
    if |txs| == 0 then Some([])
    else
      var first := ToUsagePayment(txs[0], cluster);
      var rest := Payments(txs[1..], cluster);
      if first.None? then None
      else if rest.None? then None
      else Some([first.value] + rest.value)
  }

  // --------------------------------------------------- handing to the domain

  /** The loop as written: `handle` is called under the lock but its future
      is never awaited, so each payment event is built and dropped and the
      domain does not change. */
  function HandlePaymentsAsWritten(d: D.Domain, payments: seq<UsagePaymentV1>): (d': D.Domain)
    ensures d'.fabricState.accounting == d.fabricState.accounting
  {
    d
  }

  /** The loop with `handle` awaited: each payment is applied in order. */
  function HandlePayments(d: D.Domain, payments: seq<UsagePaymentV1>): (d': D.Domain)
    ensures d'.config == d.config && d'.eventDispatch == d.eventDispatch
    ensures d'.fabricState.namespaces == d.fabricState.namespaces
    ensures d'.fabricState.apiKeys == d.fabricState.apiKeys
    ensures d'.fabricState.resources == d.fabricState.resources
    ensures d.fabricState.accounting <= d'.fabricState.accounting
    ensures |d'.fabricState.accounting| == |d.fabricState.accounting| + 2 * |payments|
    decreases |payments|
  {
    if |payments| == 0 then d
    else HandlePayments(D.Handle(d, UsagePayment(payments[0])).domain, payments[1..])
  }

  /** What a run of payments adds to one side of one account of `m`. */
  function PaymentsEffect(payments: seq<UsagePaymentV1>, m: string, account: I64, side: FS.Side): int
    decreases |payments|
  {
    if |payments| == 0 then 0
    else D.PaymentEffect(payments[0].namespace, payments[0].units, m, account, side)
         + PaymentsEffect(payments[1..], m, account, side)
  }

  /** Each awaited payment debits the pool account and credits the
      settlement account of its namespace by its units. */
  lemma {:induction false} HandlePaymentsTotals(d: D.Domain, payments: seq<UsagePaymentV1>, m: string, account: I64, side: FS.Side)
    ensures FS.AccountTotal(HandlePayments(d, payments).fabricState.accounting, m, account, side)
            == FS.AccountTotal(d.fabricState.accounting, m, account, side) + PaymentsEffect(payments, m, account, side)
    decreases |payments|
  {
    if |payments| > 0 {
      var d1 := D.Handle(d, UsagePayment(payments[0])).domain;
      HandlePaymentsTotals(d1, payments[1..], m, account, side);
    }
  }

  /** The discrepancy: one DCU payment of `units > 0`, applied as written,
      leaves the settlement account of its namespace uncredited, while the
      awaited call credits it by `units`. */
  lemma DroppedPaymentIsLost(d: D.Domain, p: UsagePaymentV1)
    requires 0 < p.units < TWO_63
    ensures FS.AccountTotal(HandlePaymentsAsWritten(d, [p]).fabricState.accounting, p.namespace, D.SETTLEMENT_ACCOUNT, FS.Credit)
            == FS.AccountTotal(d.fabricState.accounting, p.namespace, D.SETTLEMENT_ACCOUNT, FS.Credit)
    ensures FS.AccountTotal(HandlePayments(d, [p]).fabricState.accounting, p.namespace, D.SETTLEMENT_ACCOUNT, FS.Credit)
            == FS.AccountTotal(d.fabricState.accounting, p.namespace, D.SETTLEMENT_ACCOUNT, FS.Credit) + p.units
  {
    HandlePaymentsTotals(d, [p], p.namespace, D.SETTLEMENT_ACCOUNT, FS.Credit);
    assert [p][1..] == [];
  }

  /** The payments the awaited loop gets through before it panics: the
      longest prefix of `txs` whose transactions all map, in order. The
      transaction right after it, if any, is the one that does not map. */
  function MappedPrefix(txs: seq<Tx>, cluster: Bytes): (r: seq<UsagePaymentV1>)
    ensures |r| <= |txs|
    ensures forall k :: 0 <= k < |r| ==>
              ToUsagePayment(txs[k], cluster).Some? && r[k] == ToUsagePayment(txs[k], cluster).value
    ensures |r| < |txs| ==> ToUsagePayment(txs[|r|], cluster).None?
    decreases |txs|
  {
    if |txs| == 0 then []
    else
      match ToUsagePayment(txs[0], cluster)
      case None => []
      case Some(p) =>
        var rest := MappedPrefix(txs[1..], cluster);
        assert forall k :: 1 <= k < |rest| + 1 ==> txs[k] == txs[1..][k - 1];
        [p] + rest
  }

  /** When every transaction maps, the prefix the loop gets through is the
      whole mapped batch; otherwise it stops short of the end. */
  lemma MappedPrefixIsPayments(txs: seq<Tx>, cluster: Bytes)
    ensures Payments(txs, cluster).Some? <==> |MappedPrefix(txs, cluster)| == |txs|
    ensures Payments(txs, cluster).Some? ==> MappedPrefix(txs, cluster) == Payments(txs, cluster).value
  {
  }

  /** How far one tip event got: the domain after it, and whether the loop
      ran to the end (`false` when the task panicked part way). */
  datatype TipOutcome = TipOutcome(domain: D.Domain, completed: bool)

  /** One tip event end to end, with `handle` awaited. An event the monitor
      does not handle (an `Undo`, a `Reset`, a block without a body) panics
      before any payment; otherwise the kept transactions are handled one
      by one, and a transaction that cannot be mapped panics the task after
      the payments before it were applied. */
  function OnTipEvent(d: D.Domain, event: TipEvent, config: Config, cluster: Bytes): (r: TipOutcome)
    ensures r.completed <==>
              && ApplyTxs(event, config).Some?
              && Payments(ApplyTxs(event, config).value, cluster).Some?
    ensures ApplyTxs(event, config).None? ==> r.domain == d
    ensures ApplyTxs(event, config).Some? ==>
              r.domain == HandlePayments(d, MappedPrefix(ApplyTxs(event, config).value, cluster))
    ensures r.completed ==>
              |r.domain.fabricState.accounting| == |d.fabricState.accounting| + 2 * |ApplyTxs(event, config).value|
  {
    match ApplyTxs(event, config)
    case None => TipOutcome(d, false)
    case Some(txs) =>
      var prefix := MappedPrefix(txs, cluster);
      MappedPrefixIsPayments(txs, cluster);
      TipOutcome(HandlePayments(d, prefix), |prefix| == |txs|)
  }

  /** A panic part way through a block does not undo the payments already
      handled: with a mappable payment followed by an unmappable one, the
      first is recorded although the event is not completed. */
  lemma PrefixAppliedBeforePanic(d: D.Domain, event: TipEvent, config: Config, cluster: Bytes)
    requires ApplyTxs(event, config).Some?
    requires var txs := ApplyTxs(event, config).value;
             |txs| == 2 && ToUsagePayment(txs[0], cluster).Some? && ToUsagePayment(txs[1], cluster).None?
    ensures !OnTipEvent(d, event, config, cluster).completed
    ensures |OnTipEvent(d, event, config, cluster).domain.fabricState.accounting| == |d.fabricState.accounting| + 2
  {
  }
}
