/** The closed set of facts the domain emits and consumes, and the tagged
    union every consumer matches on exhaustively. */
module Events {
  import opened Base

  datatype NamespaceMintedV1 = NamespaceMintedV1(name: string, rootPublicKey: string)

  datatype ApiKeyRegisteredV1 = ApiKeyRegisteredV1(namespace: string, digest: Digest, salt: Bytes)

  datatype ResourceMetadataV1 = ResourceMetadataV1(namespace: string, kind: string, name: string, uuid: Bytes)

  datatype ResourceCreatedV1 = ResourceCreatedV1(metadata: ResourceMetadataV1, manifest: Bytes)

  /** Consumption of `units` by one resource during `epoch`. */
  datatype ResourceUsageV1 = ResourceUsageV1(
    entry: Bytes, epoch: U64, namespace: string, resource: Bytes, cluster: Bytes, units: U64)

  /** A payment of `units` into a namespace, not tied to a resource. */
  datatype UsagePaymentV1 = UsagePaymentV1(
    entry: Bytes, epoch: U64, namespace: string, cluster: Bytes, units: U64)

  datatype Event =
    | NamespaceMinted(minted: NamespaceMintedV1)
    | ApiKeyRegistered(registered: ApiKeyRegisteredV1)
    | ResourceCreated(created: ResourceCreatedV1)
    | ResourceUsage(usage: ResourceUsageV1)
    | UsagePayment(payment: UsagePaymentV1)
}
