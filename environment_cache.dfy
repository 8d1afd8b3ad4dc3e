/** The environment cache of the fork backend: per fork URL, the chain id (fetched once),
    a settable latest block number, and per (URL, block) the block and its gas price, with
    reuse of a cached gas price when only the block is missing. A hit never calls the
    provider; a provider error leaves the cache as it was. */
module EnvironmentCaching {
  import opened Primitives
  import opened RpcProvider

  /** Cached data for one block: the block, if the provider returned one, and the gas price. */
  datatype BlockEnvironment = BlockEnvironment(block: Option<Block>, gasPrice: u128)

  type BlockKey = (string, u64)

  /** The three maps of the cache, all keyed by fork URL. */
  datatype CacheState = CacheState(
    chainIds: map<string, u64>,
    latestBlocks: map<string, u64>,
    blockEnvs: map<BlockKey, BlockEnvironment>)

  const EMPTY_STATE := CacheState(map[], map[], map[])

  // ---------------------------------------------------------------------------
  // The operations, one call each
  // ---------------------------------------------------------------------------

  /** `get_chain_id`: the cached id, or the provider's, which is then cached. */
  function ChainIdStep(s: CacheState, p: Provider, url: string): (o: Outcome<u64, CacheState>)
    ensures url in s.chainIds ==> o.result == Ok(s.chainIds[url]) && o.issued == []
    ensures url !in s.chainIds ==> o.result == p.chainId && o.issued == [GetChainId]
    ensures o.result.Err? ==> o.state == s
    ensures o.result.Ok? ==> o.state == s.(chainIds := s.chainIds[url := o.result.value])
  {
    if url in s.chainIds then
      Outcome(Ok(s.chainIds[url]), s, [])
    else
      match p.chainId
      case Err(e) => Outcome(Err(e), s, [GetChainId])
      case Ok(id) => Outcome(Ok(id), s.(chainIds := s.chainIds[url := id]), [GetChainId])
  }

  /** `get_block_env_by_number`. A cached entry with a block is returned as is. A cached
      entry without a block has only its block re-fetched and keeps its gas price. With no
      entry, block and gas price are both fetched (concurrently in the source; here one after
      the other, the block error winning when both fail) and stored together. */
  function BlockEnvStep(s: CacheState, p: Provider, url: string, n: u64): (o: Outcome<BlockEnvironment, CacheState>)
    ensures (url, n) in s.blockEnvs && s.blockEnvs[(url, n)].block.Some? ==>
      o.result == Ok(s.blockEnvs[(url, n)]) && o.issued == []
    ensures (url, n) in s.blockEnvs && s.blockEnvs[(url, n)].block.None? ==>
      && o.issued == [GetBlockByNumber(n)]
      && (o.result.Ok? <==> p.blockByNumber(n).Ok?)
      && (o.result.Ok? ==>
            o.result.value == BlockEnvironment(p.blockByNumber(n).value, s.blockEnvs[(url, n)].gasPrice))
    ensures (url, n) !in s.blockEnvs ==>
      && o.issued == [GetBlockByNumber(n), GetGasPrice]
      && (o.result.Ok? <==> p.blockByNumber(n).Ok? && p.gasPrice.Ok?)
      && (o.result.Ok? ==> o.result.value == BlockEnvironment(p.blockByNumber(n).value, p.gasPrice.value))
    ensures o.result.Err? ==> o.state == s
    ensures o.result.Ok? ==> o.state == s.(blockEnvs := s.blockEnvs[(url, n) := o.result.value])
  {
    var key := (url, n);
    if key in s.blockEnvs then
      var cached := s.blockEnvs[key];
      if cached.block.None? then
        match p.blockByNumber(n)
        case Err(e) => Outcome(Err(e), s, [GetBlockByNumber(n)])
        case Ok(block) =>
          var env := BlockEnvironment(block, cached.gasPrice);
          Outcome(Ok(env), s.(blockEnvs := s.blockEnvs[key := env]), [GetBlockByNumber(n)])
      else
        Outcome(Ok(cached), s, [])
    else
      var issued := [GetBlockByNumber(n), GetGasPrice];
      match p.blockByNumber(n)
      case Err(e) => Outcome(Err(e), s, issued)
      case Ok(block) =>
        match p.gasPrice
        case Err(e) => Outcome(Err(e), s, issued)
        case Ok(gasPrice) =>
          var env := BlockEnvironment(block, gasPrice);
          Outcome(Ok(env), s.(blockEnvs := s.blockEnvs[key := env]), issued)
  }

  /** `get_latest_block_number`: the pinned number, or the provider's head, which is then pinned. */
  function LatestBlockStep(s: CacheState, p: Provider, url: string): (o: Outcome<u64, CacheState>)
    ensures url in s.latestBlocks ==> o.result == Ok(s.latestBlocks[url]) && o.issued == []
    ensures url !in s.latestBlocks ==> o.result == p.blockNumber && o.issued == [GetBlockNumber]
    ensures o.result.Err? ==> o.state == s
    ensures o.result.Ok? ==> o.state == s.(latestBlocks := s.latestBlocks[url := o.result.value])
  {
    if url in s.latestBlocks then
      Outcome(Ok(s.latestBlocks[url]), s, [])
    else
      match p.blockNumber
      case Err(e) => Outcome(Err(e), s, [GetBlockNumber])
      case Ok(n) => Outcome(Ok(n), s.(latestBlocks := s.latestBlocks[url := n]), [GetBlockNumber])
  }

  /** `set_latest_block_number`: overwrite the URL's pin. */
  function SetLatestBlock(s: CacheState, url: string, n: u64): (s': CacheState)
    ensures url in s'.latestBlocks && s'.latestBlocks[url] == n
    ensures forall u :: u != url ==> (u in s'.latestBlocks <==> u in s.latestBlocks)
    ensures forall u :: u != url && u in s.latestBlocks ==> s'.latestBlocks[u] == s.latestBlocks[u]
    ensures s'.chainIds == s.chainIds && s'.blockEnvs == s.blockEnvs
  {
    s.(latestBlocks := s.latestBlocks[url := n])
  }

  /** `get_fork_info`: the chain id and the block environment, each exactly as its own
      operation would give it; it fails if either half fails. The two halves run
      concurrently in the source; here the chain id first, then the block environment,
      both always running, the chain-id error winning when both fail. */
  function ForkInfoStep(s: CacheState, p: Provider, url: string, n: u64): (o: Outcome<(u64, BlockEnvironment), CacheState>)
    ensures o.result.Ok? <==> ChainIdStep(s, p, url).result.Ok? && BlockEnvStep(s, p, url, n).result.Ok?
    ensures o.result.Ok? ==>
      o.result.value == (ChainIdStep(s, p, url).result.value, BlockEnvStep(s, p, url, n).result.value)
    ensures ChainIdStep(s, p, url).result.Err? ==> o.result == Err(ChainIdStep(s, p, url).result.error)
    ensures ChainIdStep(s, p, url).result.Ok? && BlockEnvStep(s, p, url, n).result.Err? ==>
      o.result == Err(BlockEnvStep(s, p, url, n).result.error)
    ensures o.issued == ChainIdStep(s, p, url).issued + BlockEnvStep(s, p, url, n).issued
    ensures o.state.latestBlocks == s.latestBlocks
    ensures o.state.chainIds == ChainIdStep(s, p, url).state.chainIds
    ensures o.state.blockEnvs == BlockEnvStep(s, p, url, n).state.blockEnvs
  {
    var c := ChainIdStep(s, p, url);
    var e := BlockEnvStep(c.state, p, url, n);
    assert BlockEnvStep(c.state, p, url, n).issued == BlockEnvStep(s, p, url, n).issued;
    var result :=
      match c.result
      case Err(err) => Err(err)
      case Ok(id) =>
        match e.result
        case Err(err) => Err(err)
        case Ok(env) => Ok((id, env));
    Outcome(result, e.state, c.issued + e.issued)
  }

  // ---------------------------------------------------------------------------
  // The cache object
  // ---------------------------------------------------------------------------

  class EnvironmentCache {
    var chainIdsByForkUrl: map<string, u64>
    var latestBlockMap: map<string, u64>
    var blockEnvMap: map<BlockKey, BlockEnvironment>

    function State(): CacheState
      reads this
    {
      CacheState(chainIdsByForkUrl, latestBlockMap, blockEnvMap)
    }

    constructor ()
      ensures State() == EMPTY_STATE
    {
      chainIdsByForkUrl := map[];
      latestBlockMap := map[];
      blockEnvMap := map[];
    }

    method GetChainId(p: Provider, url: string) returns (r: Result<u64, ProviderError>, ghost issued: seq<Call>)
      modifies this
      ensures var o := ChainIdStep(old(State()), p, url);
        r == o.result && State() == o.state && issued == o.issued
    {
      if url in chainIdsByForkUrl {
        return Ok(chainIdsByForkUrl[url]), [];
      }
      issued := [Call.GetChainId];
      var fetched := p.chainId;
      if fetched.Err? {
        return Err(fetched.error), issued;
      }
      chainIdsByForkUrl := chainIdsByForkUrl[url := fetched.value];
      r := Ok(fetched.value);
    }

    method GetBlockEnvByNumber(p: Provider, url: string, n: u64)
      returns (r: Result<BlockEnvironment, ProviderError>, ghost issued: seq<Call>)
      modifies this
      ensures var o := BlockEnvStep(old(State()), p, url, n);
        r == o.result && State() == o.state && issued == o.issued
    {
      var key := (url, n);
      if key in blockEnvMap {
        var cached := blockEnvMap[key];
        if cached.block.None? {
          issued := [GetBlockByNumber(n)];
          var block := p.blockByNumber(n);
          if block.Err? {
            return Err(block.error), issued;
          }
          var env := BlockEnvironment(block.value, cached.gasPrice);
          blockEnvMap := blockEnvMap[key := env];
          r := Ok(env);
        } else {
          r, issued := Ok(cached), [];
        }
      } else {
        issued := [GetBlockByNumber(n), GetGasPrice];
        var block := p.blockByNumber(n);
        var gasPrice := p.gasPrice;
        if block.Err? {
          return Err(block.error), issued;
        }
        if gasPrice.Err? {
          return Err(gasPrice.error), issued;
        }
        var env := BlockEnvironment(block.value, gasPrice.value);
        blockEnvMap := blockEnvMap[key := env];
        r := Ok(env);
      }
    }

    method GetLatestBlockNumber(p: Provider, url: string) returns (r: Result<u64, ProviderError>, ghost issued: seq<Call>)
      modifies this
      ensures var o := LatestBlockStep(old(State()), p, url);
        r == o.result && State() == o.state && issued == o.issued
    {
      if url in latestBlockMap {
        return Ok(latestBlockMap[url]), [];
      }
      issued := [GetBlockNumber];
      var head := p.blockNumber;
      if head.Err? {
        return Err(head.error), issued;
      }
      SetLatestBlockNumber(url, head.value);
      r := Ok(head.value);
    }

    method SetLatestBlockNumber(url: string, n: u64)
      modifies this
      ensures State() == SetLatestBlock(old(State()), url, n)
    {
      latestBlockMap := latestBlockMap[url := n];
    }

    method GetForkInfo(p: Provider, url: string, n: u64)
      returns (r: Result<(u64, BlockEnvironment), ProviderError>, ghost issued: seq<Call>)
      modifies this
      ensures var o := ForkInfoStep(old(State()), p, url, n);
        r == o.result && State() == o.state && issued == o.issued
    {
      var chainId, chainIssued := GetChainId(p, url);
      var blockEnv, envIssued := GetBlockEnvByNumber(p, url, n);
      issued := chainIssued + envIssued;
      if chainId.Err? {
        return Err(chainId.error), issued;
      }
      if blockEnv.Err? {
        return Err(blockEnv.error), issued;
      }
      r := Ok((chainId.value, blockEnv.value));
    }
  }

  // ---------------------------------------------------------------------------
  // Properties across calls
  // ---------------------------------------------------------------------------

  /** A provider whose every request fails, like the one for an unreachable URL. */
  function FailingProvider(e: ProviderError): Provider {
    Provider((a: Address, b: u64) => Err(e), Err(e), (n: u64) => Err(e), Err(e), Err(e))
  }

  /** Once a chain id is cached, a later call answers it with no request, whatever the provider. */
  lemma ChainIdMemoized(s: CacheState, p: Provider, q: Provider, url: string)
    requires ChainIdStep(s, p, url).result.Ok?
    ensures var o := ChainIdStep(s, p, url);
      var o2 := ChainIdStep(o.state, q, url);
      o2.result == o.result && o2.state == o.state && o2.issued == []
  {
  }

  /** The scenario of `test_get_chain_id`: a failing provider leaves nothing cached, a working
      one caches its id, and the failing one is then answered from the cache. */
  lemma ChainIdScenario(good: Provider, e: ProviderError, url: string)
    requires good.chainId == Ok(1)
    ensures var bad := FailingProvider(e);
      var o1 := ChainIdStep(EMPTY_STATE, bad, url);
      var o2 := ChainIdStep(o1.state, good, url);
      var o3 := ChainIdStep(o2.state, bad, url);
      && o1.result.Err? && o1.state == EMPTY_STATE
      && o2.result == Ok(1) && o2.state.chainIds == map[url := 1]
      && o3.result == Ok(1) && o3.issued == []
  {
  }

  /** A cached entry whose block is missing is completed by fetching only the block; the
      cached gas price is kept and the completed entry replaces it. */
  lemma BlockEnvPartialReuse(s: CacheState, p: Provider, url: string, n: u64, g: u128, block: Block)
    requires (url, n) in s.blockEnvs && s.blockEnvs[(url, n)] == BlockEnvironment(None, g)
    requires p.blockByNumber(n) == Ok(Some(block))
    ensures var o := BlockEnvStep(s, p, url, n);
      && o.result == Ok(BlockEnvironment(Some(block), g))
      && o.issued == [GetBlockByNumber(n)]
      && GetGasPrice !in o.issued
      && o.state.blockEnvs[(url, n)] == BlockEnvironment(Some(block), g)
  {
  }

  /** After a call that returned a block, the next call for that block is a hit with no
      request and the same answer. */
  lemma BlockEnvMemoized(s: CacheState, p: Provider, q: Provider, url: string, n: u64)
    requires BlockEnvStep(s, p, url, n).result.Ok? && BlockEnvStep(s, p, url, n).result.value.block.Some?
    ensures var o := BlockEnvStep(s, p, url, n);
      var o2 := BlockEnvStep(o.state, q, url, n);
      o2.result == o.result && o2.state == o.state && o2.issued == []
  {
  }

  /** The scenario of `test_get_block_env_by_number`: a failing provider leaves nothing cached,
      a working one caches the block environment, and the failing one is then answered from
      the cache. */
  lemma BlockEnvScenario(good: Provider, e: ProviderError, url: string, block: Block)
    requires good.blockByNumber(1_000_000) == Ok(Some(block)) && good.gasPrice.Ok?
    ensures var bad := FailingProvider(e);
      var o1 := BlockEnvStep(EMPTY_STATE, bad, url, 1_000_000);
      var o2 := BlockEnvStep(o1.state, good, url, 1_000_000);
      var o3 := BlockEnvStep(o2.state, bad, url, 1_000_000);
      && o1.result.Err? && o1.state == EMPTY_STATE
      && o2.result.Ok?
      && o3.result == o2.result && o3.issued == []
  {
  }

  /** The scenario of `test_latest_block_number`: a pin set after a fetch is what a later call
      returns, without a request. */
  lemma LatestBlockScenario(s: CacheState, p: Provider, url: string, n: u64)
    ensures var s2 := SetLatestBlock(LatestBlockStep(s, p, url).state, url, n);
      var o := LatestBlockStep(s2, p, url);
      o.result == Ok(n) && o.issued == [] && o.state == s2
  {
  }

  /** A miss pins the provider's head, so the next call returns it without a request. */
  lemma LatestBlockPinsOnMiss(s: CacheState, p: Provider, q: Provider, url: string)
    requires url !in s.latestBlocks && p.blockNumber.Ok?
    ensures var o := LatestBlockStep(s, p, url);
      var o2 := LatestBlockStep(o.state, q, url);
      o.issued == [GetBlockNumber] && o2.result == Ok(p.blockNumber.value) && o2.issued == []
  {
  }

  /** When both halves are cached, `get_fork_info` answers them without any request and
      changes nothing. */
  lemma ForkInfoCached(s: CacheState, p: Provider, url: string, n: u64)
    requires url in s.chainIds
    requires (url, n) in s.blockEnvs && s.blockEnvs[(url, n)].block.Some?
    ensures var o := ForkInfoStep(s, p, url, n);
      o.result == Ok((s.chainIds[url], s.blockEnvs[(url, n)])) && o.issued == [] && o.state == s
  {
  }

  /** The scenario of `test_get_fork_info`: fails with a failing provider, succeeds with a
      working one, then the failing one is answered from the cache with the same pair. */
  lemma ForkInfoScenario(good: Provider, e: ProviderError, url: string, block: Block)
    requires good.chainId == Ok(1)
    requires good.blockByNumber(1_000_000) == Ok(Some(block)) && good.gasPrice.Ok?
    ensures var bad := FailingProvider(e);
      var o1 := ForkInfoStep(EMPTY_STATE, bad, url, 1_000_000);
      var o2 := ForkInfoStep(o1.state, good, url, 1_000_000);
      var o3 := ForkInfoStep(o2.state, bad, url, 1_000_000);
      && o1.result.Err? && o1.state == EMPTY_STATE
      && o2.result.Ok? && o2.result.value.0 == 1
      && o3.result == o2.result && o3.issued == []
  {
  }

  // ---------------------------------------------------------------------------
  // What any sequence of operations keeps
  // ---------------------------------------------------------------------------

  datatype EnvOp =
    | ChainIdOp(url: string)
    | BlockEnvOp(url: string, n: u64)
    | LatestBlockOp(url: string)
    | SetLatestBlockOp(url: string, n: u64)
    | ForkInfoOp(url: string, n: u64)

  /** One operation: the state after it and the requests it made. */
  function ApplyOp(s: CacheState, p: Provider, op: EnvOp): (CacheState, seq<Call>) {
    match op
    case ChainIdOp(url) => var o := ChainIdStep(s, p, url); (o.state, o.issued)
    case BlockEnvOp(url, n) => var o := BlockEnvStep(s, p, url, n); (o.state, o.issued)
    case LatestBlockOp(url) => var o := LatestBlockStep(s, p, url); (o.state, o.issued)
    case SetLatestBlockOp(url, n) => (SetLatestBlock(s, url, n), [])
    case ForkInfoOp(url, n) => var o := ForkInfoStep(s, p, url, n); (o.state, o.issued)
  }

  /** A sequence of operations, each against its own provider: the final state and, for
      every operation in order, the requests it made. */
  function RunOps(s: CacheState, ops: seq<(Provider, EnvOp)>): (r: (CacheState, seq<seq<Call>>))
    ensures |r.1| == |ops|
    decreases |ops|
  {
    if ops == [] then (s, [])
    else
      var step := ApplyOp(s, ops[0].0, ops[0].1);
      var rest := RunOps(step.0, ops[1..]);
      (rest.0, [step.1] + rest.1)
  }

  /** What the cache never forgets or replaces: a chain id once cached, a block environment
      once it holds a block, and the gas price of any cached block entry. */
  ghost predicate Retains(s: CacheState, s': CacheState) {
    && (forall url :: url in s.chainIds ==> url in s'.chainIds && s'.chainIds[url] == s.chainIds[url])
    && (forall k :: k in s.blockEnvs ==> k in s'.blockEnvs && s'.blockEnvs[k].gasPrice == s.blockEnvs[k].gasPrice)
    && (forall k :: k in s.blockEnvs && s.blockEnvs[k].block.Some? ==> s'.blockEnvs[k] == s.blockEnvs[k])
  }

  /** The requests an operation does not make once state `s` holds what it would fetch: no
      chain-id request for a URL whose id is cached, no gas-price request for a (URL, block)
      that has an entry. */
  ghost predicate NoRefetch(s: CacheState, op: EnvOp, issued: seq<Call>) {
    && ((op.ChainIdOp? || op.ForkInfoOp?) && op.url in s.chainIds ==> GetChainId !in issued)
    && ((op.BlockEnvOp? || op.ForkInfoOp?) && (op.url, op.n) in s.blockEnvs ==> GetGasPrice !in issued)
  }

  lemma ApplyOpRetains(s: CacheState, p: Provider, op: EnvOp)
    ensures Retains(s, ApplyOp(s, p, op).0)
    ensures NoRefetch(s, op, ApplyOp(s, p, op).1)
  {
  }

  /** Across any sequence of operations and whatever the providers answer: a chain id is
      fetched at most until it is cached and then never requested again; a complete block
      environment is never replaced; a cached gas price is kept and never requested again. */
  lemma {:induction false} RunOpsRetains(s: CacheState, ops: seq<(Provider, EnvOp)>)
    ensures var r := RunOps(s, ops);
      && Retains(s, r.0)
      && forall i :: 0 <= i < |ops| ==> NoRefetch(s, ops[i].1, r.1[i])
    decreases |ops|
  {
    if ops != [] {
      var step := ApplyOp(s, ops[0].0, ops[0].1);
      ApplyOpRetains(s, ops[0].0, ops[0].1);
      RunOpsRetains(step.0, ops[1..]);
      var r := RunOps(s, ops);
      var rest := RunOps(step.0, ops[1..]);
      assert r.1 == [step.1] + rest.1;
      forall i | 0 <= i < |ops|
        ensures NoRefetch(s, ops[i].1, r.1[i])
      {
        if i > 0 {
          assert r.1[i] == rest.1[i - 1] && ops[i] == ops[1..][i - 1];
          assert NoRefetch(step.0, ops[i].1, r.1[i]);
        }
      }
    }
  }
}
