/** Assembly of the execution environment for a fork: pick the target block, get chain id
    and block environment through the environment cache, fail (with the non-archive-node
    diagnostic where it applies) when the provider has no such block, and build the
    configuration, block and transaction records from the header and the arguments. */
module ForkInit {
  import opened Primitives
  import opened RpcProvider
  import opened EnvironmentCaching

  /** The arguments of `environment`; the provider and the cache are passed separately. */
  datatype EnvironmentArgs = EnvironmentArgs(
    forkUrl: string,
    memoryLimit: u64,
    gasPrice: Option<u128>,
    overrideChainId: Option<u64>,
    pinBlock: Option<u64>,
    origin: Address,
    disableBlockGasLimit: bool)

  datatype CfgEnv = CfgEnv(
    chainId: u64,
    memoryLimit: u64,
    limitContractCodeSize: Option<nat>,
    disableEip3607: bool,
    disableBlockGasLimit: bool)

  datatype BlockEnv = BlockEnv(
    number: U256,
    timestamp: U256,
    coinbase: Address,
    difficulty: U256,
    prevrandao: Option<B256>,
    basefee: U256,
    gasLimit: U256)

  datatype TxEnv = TxEnv(caller: Address, gasPrice: U256, chainId: Option<u64>, gasLimit: u64)

  datatype Env = Env(cfg: CfgEnv, block: BlockEnv, tx: TxEnv)

  datatype InitError =
    | ProviderFailure(cause: ProviderError)
      /** No block for the number; carries the provider's head when that request succeeded. */
    | BlockNotFound(blockNumber: u64, latestBlock: Option<u64>)
      /** No pin and no latest block recorded for the URL (a panic in the source). */
    | LatestBlockNotSet
      /** The block header has no number (a panic in the source). */
    | BlockNumberNotFound

  /** `usize::MAX` on a 64-bit target. */
  const USIZE_MAX: nat := 0xFFFF_FFFF_FFFF_FFFF

  /** `CfgEnv::default()` for the fields the environment sets (revm's defaults). */
  const DEFAULT_CFG := CfgEnv(1, 0xFFFF_FFFF, None, false, false)

  /** The block to fork from: the pin if given, else the URL's recorded latest block. */
  function TargetBlock(args: EnvironmentArgs, latestBlocks: map<string, u64>): (r: Result<u64, InitError>)
    ensures args.pinBlock.Some? ==> r == Ok(args.pinBlock.value)
    ensures args.pinBlock.None? ==> (r.Ok? <==> args.forkUrl in latestBlocks)
    ensures args.pinBlock.None? && r.Ok? ==> r.value == latestBlocks[args.forkUrl]
    ensures r.Err? ==> r.error == LatestBlockNotSet
  {
    match args.pinBlock
    case Some(pin) => Ok(pin)
    case None =>
      if args.forkUrl in latestBlocks then Ok(latestBlocks[args.forkUrl]) else Err(LatestBlockNotSet)
  }

  /** The error for a block the provider returned no data for; it names the provider's head
      exactly when asking for the head succeeded. */
  function MissingBlockError(n: u64, head: Result<u64, ProviderError>): (e: InitError)
    ensures e.BlockNotFound? && e.blockNumber == n
    ensures e.latestBlock.Some? <==> head.Ok?
    ensures head.Ok? ==> e.latestBlock.value == head.value
  {
    match head
    case Ok(latest) => BlockNotFound(n, Some(latest))
    case Err(_) => BlockNotFound(n, None)
  }

  /** The non-archive-node warning: the provider had no block, yet its head is at or past it. */
  predicate NonArchiveWarning(n: u64, head: Result<u64, ProviderError>) {
    head.Ok? && n <= head.value
  }

  /** The configuration, by successive assignments on the default as in the source. */
  function BuildCfg(args: EnvironmentArgs, rpcChainId: u64): (cfg: CfgEnv)
    ensures cfg.chainId == args.overrideChainId.UnwrapOr(rpcChainId)
    ensures args.overrideChainId.Some? ==> cfg.chainId == args.overrideChainId.value
    ensures args.overrideChainId.None? ==> cfg.chainId == rpcChainId
    ensures cfg.memoryLimit == args.memoryLimit && cfg.disableBlockGasLimit == args.disableBlockGasLimit
    ensures cfg.limitContractCodeSize == Some(USIZE_MAX) && cfg.disableEip3607
  {
    var cfg := DEFAULT_CFG;
    var cfg := cfg.(chainId := args.overrideChainId.UnwrapOr(rpcChainId));
    var cfg := cfg.(memoryLimit := args.memoryLimit);
    var cfg := cfg.(limitContractCodeSize := Some(USIZE_MAX));
    var cfg := cfg.(disableEip3607 := true);
    cfg.(disableBlockGasLimit := args.disableBlockGasLimit)
  }

  /** The environment before the chain-specific hook. The header's fields are copied; an
      absent mix hash gives a zero prevrandao and an absent base fee a zero base fee; the
      transaction gas limit is the header's gas limit cast to 64 bits. */
  function BuildEnv(args: EnvironmentArgs, rpcChainId: u64, forkGasPrice: u128, block: Block): (r: Result<Env, InitError>)
    ensures r.Ok? <==> block.header.number.Some?
    ensures r.Err? ==> r.error == BlockNumberNotFound
    ensures r.Ok? ==>
      var env, h := r.value, block.header;
      && env.cfg == BuildCfg(args, rpcChainId)
      && env.block.number == h.number.value
      && env.block.timestamp == h.timestamp
      && env.block.coinbase == h.miner
      && env.block.difficulty == h.difficulty
      && env.block.prevrandao == Some(if h.mixHash.Some? then h.mixHash.value else 0)
      && env.block.basefee == (if h.baseFeePerGas.Some? then h.baseFeePerGas.value else 0)
      && env.block.gasLimit == h.gasLimit
      && env.tx.caller == args.origin
      && env.tx.gasPrice == (if args.gasPrice.Some? then args.gasPrice.value else forkGasPrice)
      && env.tx.chainId == Some(env.cfg.chainId)
      && env.tx.gasLimit == h.gasLimit % U64_MODULUS
  {
    var h := block.header;
    match h.number
    case None => Err(BlockNumberNotFound)
    case Some(number) =>
      var cfg := BuildCfg(args, rpcChainId);
      var blockEnv := BlockEnv(
        number, h.timestamp, h.miner, h.difficulty,
        Some(h.mixHash.UnwrapOr(0)), h.baseFeePerGas.UnwrapOr(0), h.gasLimit);
      var tx := TxEnv(
        args.origin, args.gasPrice.UnwrapOr(forkGasPrice),
        Some(args.overrideChainId.UnwrapOr(rpcChainId)), h.gasLimit % U64_MODULUS);
      Ok(Env(cfg, blockEnv, tx))
  }

  /** The result of `environment`, the environment cache after it, and the provider
      requests it issued. */
  datatype InitOutcome = InitOutcome(result: Result<(Env, Block), InitError>, state: CacheState, issued: seq<Call>)

  /** `environment`, with `hook` standing for the chain- and block-specific corrections
      applied to the finished record. */
  function EnvironmentStep(args: EnvironmentArgs, s: CacheState, p: Provider, hook: (Env, Block) -> Env): (o: InitOutcome)
    ensures TargetBlock(args, s.latestBlocks).Err? ==>
      o == InitOutcome(Err(LatestBlockNotSet), s, [])
    ensures TargetBlock(args, s.latestBlocks).Ok? ==>
      var info := ForkInfoStep(s, p, args.forkUrl, TargetBlock(args, s.latestBlocks).value);
      && o.state == info.state
      && (info.result.Err? ==> o.result == Err(ProviderFailure(info.result.error)) && o.issued == info.issued)
      && (info.result.Ok? && info.result.value.1.block.None? ==> o.issued == info.issued + [GetBlockNumber])
      && (info.result.Ok? && info.result.value.1.block.Some? ==> o.issued == info.issued)
  {
    match TargetBlock(args, s.latestBlocks)
    case Err(e) => InitOutcome(Err(e), s, [])
    case Ok(n) =>
      var info := ForkInfoStep(s, p, args.forkUrl, n);
      match info.result
      case Err(e) => InitOutcome(Err(ProviderFailure(e)), info.state, info.issued)
      case Ok((rpcChainId, blockEnv)) =>
        match blockEnv.block
        case None => InitOutcome(Err(MissingBlockError(n, p.blockNumber)), info.state, info.issued + [GetBlockNumber])
        case Some(block) =>
          match BuildEnv(args, rpcChainId, blockEnv.gasPrice, block)
          case Err(e) => InitOutcome(Err(e), info.state, info.issued)
          case Ok(env) => InitOutcome(Ok((hook(env, block), block)), info.state, info.issued)
  }

  /** Whether `environment` emits the non-archive-node warning. */
  ghost predicate WarningEmitted(args: EnvironmentArgs, s: CacheState, p: Provider) {
    && TargetBlock(args, s.latestBlocks).Ok?
    && var n := TargetBlock(args, s.latestBlocks).value;
       var info := ForkInfoStep(s, p, args.forkUrl, n);
       && info.result.Ok?
       && info.result.value.1.block.None?
       && NonArchiveWarning(n, p.blockNumber)
  }

  /** `environment` over a shared environment cache object. */
  method Environment(args: EnvironmentArgs, envCache: EnvironmentCache, p: Provider, hook: (Env, Block) -> Env)
    returns (r: Result<(Env, Block), InitError>, ghost warned: bool, ghost issued: seq<Call>)
    modifies envCache
    ensures var o := EnvironmentStep(args, old(envCache.State()), p, hook);
      r == o.result && envCache.State() == o.state && issued == o.issued
    ensures warned == WarningEmitted(args, old(envCache.State()), p)
  {
    warned, issued := false, [];
    var blockNumber: u64;
    if args.pinBlock.Some? {
      blockNumber := args.pinBlock.value;
    } else if args.forkUrl in envCache.latestBlockMap {
      blockNumber := envCache.latestBlockMap[args.forkUrl];
    } else {
      return Err(LatestBlockNotSet), warned, issued;
    }

    var info;
    info, issued := envCache.GetForkInfo(p, args.forkUrl, blockNumber);
    if info.Err? {
      return Err(ProviderFailure(info.error)), warned, issued;
    }
    var (rpcChainId, blockEnv) := info.value;

    if blockEnv.block.None? {
      issued := issued + [GetBlockNumber];
      var head := p.blockNumber;
      if head.Ok? {
        warned := blockNumber <= head.value;
        return Err(BlockNotFound(blockNumber, Some(head.value))), warned, issued;
      }
      return Err(BlockNotFound(blockNumber, None)), warned, issued;
    }
    var block := blockEnv.block.value;

    var cfg := DEFAULT_CFG;
    cfg := cfg.(chainId := args.overrideChainId.UnwrapOr(rpcChainId));
    cfg := cfg.(memoryLimit := args.memoryLimit);
    cfg := cfg.(limitContractCodeSize := Some(USIZE_MAX));
    cfg := cfg.(disableEip3607 := true);
    cfg := cfg.(disableBlockGasLimit := args.disableBlockGasLimit);

    var h := block.header;
    if h.number.None? {
      return Err(BlockNumberNotFound), warned, issued;
    }
    var env := Env(
      cfg,
      BlockEnv(h.number.value, h.timestamp, h.miner, h.difficulty,
               Some(h.mixHash.UnwrapOr(0)), h.baseFeePerGas.UnwrapOr(0), h.gasLimit),
      TxEnv(args.origin, args.gasPrice.UnwrapOr(blockEnv.gasPrice),
            Some(args.overrideChainId.UnwrapOr(rpcChainId)), h.gasLimit % U64_MODULUS));
    assert env == BuildEnv(args, rpcChainId, blockEnv.gasPrice, block).value;
    env := hook(env, block);
    r := Ok((env, block));
  }

  // ---------------------------------------------------------------------------
  // Properties of the assembly
  // ---------------------------------------------------------------------------

  /** Without a pin and without a recorded latest block the call fails before any request. */
  lemma EnvironmentRequiresLatestBlock(args: EnvironmentArgs, s: CacheState, p: Provider, hook: (Env, Block) -> Env)
    requires args.pinBlock.None? && args.forkUrl !in s.latestBlocks
    ensures EnvironmentStep(args, s, p, hook) == InitOutcome(Err(LatestBlockNotSet), s, [])
  {
  }

  /** A failure of `get_fork_info` is returned unchanged. */
  lemma EnvironmentPropagatesForkInfoError(args: EnvironmentArgs, s: CacheState, p: Provider, hook: (Env, Block) -> Env, n: u64)
    requires TargetBlock(args, s.latestBlocks) == Ok(n)
    requires ForkInfoStep(s, p, args.forkUrl, n).result.Err?
    ensures EnvironmentStep(args, s, p, hook).result ==
      Err(ProviderFailure(ForkInfoStep(s, p, args.forkUrl, n).result.error))
  {
  }

  /** A missing block always fails the call; the error names the head exactly when asking
      for it succeeded, and the warning is raised exactly when the head is at or past the
      block. */
  lemma EnvironmentMissingBlockFails(args: EnvironmentArgs, s: CacheState, p: Provider, hook: (Env, Block) -> Env, n: u64)
    requires TargetBlock(args, s.latestBlocks) == Ok(n)
    requires ForkInfoStep(s, p, args.forkUrl, n).result.Ok?
    requires ForkInfoStep(s, p, args.forkUrl, n).result.value.1.block.None?
    ensures var o := EnvironmentStep(args, s, p, hook);
      && o.result.Err? && o.result.error.BlockNotFound?
      && o.result.error.blockNumber == n
      && (o.result.error.latestBlock.Some? <==> p.blockNumber.Ok?)
      && (WarningEmitted(args, s, p) <==> p.blockNumber.Ok? && n <= p.blockNumber.value)
      && o.issued[|o.issued| - 1] == GetBlockNumber
  {
  }

  /** A successful call returns the fetched block together with the hook applied to the
      record built from that block's header, the fork's chain id and gas price. */
  lemma EnvironmentSuccess(args: EnvironmentArgs, s: CacheState, p: Provider, hook: (Env, Block) -> Env)
    requires EnvironmentStep(args, s, p, hook).result.Ok?
    ensures var o := EnvironmentStep(args, s, p, hook);
      var n := TargetBlock(args, s.latestBlocks).value;
      var info := ForkInfoStep(s, p, args.forkUrl, n);
      var (env, block) := o.result.value;
      && TargetBlock(args, s.latestBlocks).Ok?
      && info.result.Ok?
      && info.result.value.1.block == Some(block)
      && !WarningEmitted(args, s, p)
      && env == hook(BuildEnv(args, info.result.value.0, info.result.value.1.gasPrice, block).value, block)
  {
  }

  /** Conversely, once the block is fetched the outcome is decided by its header: with a
      number the call succeeds with the hook applied to the record built from it, and
      without one it fails with `BlockNumberNotFound`. */
  lemma EnvironmentFetchedBlock(
    args: EnvironmentArgs, s: CacheState, p: Provider, hook: (Env, Block) -> Env, n: u64, block: Block)
    requires TargetBlock(args, s.latestBlocks) == Ok(n)
    requires ForkInfoStep(s, p, args.forkUrl, n).result.Ok?
    requires ForkInfoStep(s, p, args.forkUrl, n).result.value.1.block == Some(block)
    ensures var o := EnvironmentStep(args, s, p, hook);
      var (id, env) := ForkInfoStep(s, p, args.forkUrl, n).result.value;
      && (block.header.number.Some? ==>
            o.result == Ok((hook(BuildEnv(args, id, env.gasPrice, block).value, block), block)))
      && (block.header.number.None? ==> o.result == Err(BlockNumberNotFound))
      && !WarningEmitted(args, s, p)
  {
  }

  /** End to end, for a pinned block the provider has: the record before the hook carries the
      header's number, timestamp, gas limit and base fee, the override gas price if given and
      otherwise the provider's, and the override chain id if given and otherwise the provider's. */
  lemma PinnedBlockEndToEnd(
    args: EnvironmentArgs, p: Provider, hook: (Env, Block) -> Env, n: u64, block: Block, chainId: u64, gasPrice: u128)
    requires args.pinBlock == Some(n)
    requires p.chainId == Ok(chainId) && p.gasPrice == Ok(gasPrice)
    requires p.blockByNumber(n) == Ok(Some(block)) && block.header.number.Some?
    ensures var o := EnvironmentStep(args, EMPTY_STATE, p, hook);
      var env := BuildEnv(args, chainId, gasPrice, block).value;
      && o.result == Ok((hook(env, block), block))
      && o.issued == [GetChainId, GetBlockByNumber(n), GetGasPrice]
      && env.block.number == block.header.number.value
      && env.block.timestamp == block.header.timestamp
      && env.block.gasLimit == block.header.gasLimit
      && env.block.basefee == block.header.baseFeePerGas.UnwrapOr(0)
      && env.tx.gasPrice == args.gasPrice.UnwrapOr(gasPrice)
      && env.cfg.chainId == args.overrideChainId.UnwrapOr(chainId)
      && env.tx.chainId == Some(env.cfg.chainId)
  {
  }
}
