/** The remote chain provider, seen from the caching layer: a fallible oracle.
    A `Provider` value fixes what each of the five RPC calls would answer during one
    operation; which calls an operation actually issues is returned as a log of `Call`s,
    so "served from the cache" is the statement that the log is empty. */
module RpcProvider {
  import opened Primitives

  /** A transport or RPC failure; its content is never inspected by the caches. */
  datatype ProviderError = TransportError(message: string)

  /** The header fields of an RPC block that the fork environment reads. */
  datatype Header = Header(
    number: Option<u64>,
    timestamp: u64,
    miner: Address,
    difficulty: U256,
    mixHash: Option<B256>,
    baseFeePerGas: Option<u128>,
    gasLimit: u128)

  datatype Block = Block(header: Header)

  /** What each provider request would return. */
  datatype Provider = Provider(
    codeAt: (Address, u64) -> Result<Bytes, ProviderError>,
    chainId: Result<u64, ProviderError>,
    blockByNumber: u64 -> Result<Option<Block>, ProviderError>,
    gasPrice: Result<u128, ProviderError>,
    blockNumber: Result<u64, ProviderError>)

  /** One request sent to the provider. */
  datatype Call =
    | GetCodeAt(address: Address, blockNumber: u64)
    | GetChainId
    | GetBlockByNumber(number: u64)
    | GetGasPrice
    | GetBlockNumber

  /** The effect of one cache operation: its result, the cache state after it, and the
      provider requests it issued, in order. */
  datatype Outcome<T, S> = Outcome(result: Result<T, ProviderError>, state: S, issued: seq<Call>)
}
