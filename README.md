# Fork-state caching layer of the EVM backend, in Dafny

This project models the caching layer that the EVM backend uses when it forks state from a
remote RPC node:

- **Code cache** (`CodeCaching`). For each (address, chain) it keeps a history of two facts:
  the block where code was first seen, with that code, and the block where the account was last
  seen without code. `check_cache` answers "code at block N?" from those two facts alone.
  `get_code` asks the provider only on a miss and records the answer with `cache_code`.
- **Environment cache** (`EnvironmentCaching`). It has three maps keyed by fork URL:
  - the chain id, fetched once;
  - a pinned latest block number;
  - per block, a `BlockEnvironment`, which is an optional block plus a gas price. An entry
    without a block keeps its gas price, and only the block is fetched again.
- **Access descriptors** (`DataAccess`). These are the `Access`, `AccessType` and `StateLookup`
  sum types with structural equality. The module also has the default lookup and the conversion
  from a fork-creation request.
- **Fork environment assembly** (`ForkInit`). It picks the block, gets the chain id and block
  environment through the cache, and handles a missing block (including the non-archive-node
  warning). Then it builds the `Env` record from the header and the arguments.

The RPC provider is an oracle (`RpcProvider.Provider`). It is a value that fixes what each of
the five requests would return, successes and errors alike. Every cache operation also returns,
as a ghost value, the list of requests it actually made. So "served from the cache without a
fetch" is proved as "that list is empty".

Each operation is a pure function of the cache state and the provider: `GetCodeStep`,
`ChainIdStep`, `BlockEnvStep`, `LatestBlockStep`, `ForkInfoStep` and `EnvironmentStep`. Each
returns the result, the new state and the requests made. The source updates its caches in
place, so the caches are also classes (`CodeCache`, `EnvironmentCache`) with map fields. Their
methods follow the Rust control flow and are proved equal to the step functions. The lemmas
then state what holds across calls:
- the unit-test scenarios;
- memoisation;
- soundness of code answers against a deploy-once chain, over any sequence of queries;
- entries that no sequence of environment-cache operations ever replaces.

Where the system's design description and its code disagree, the model follows the code:
- `cache_code` overwrites its field unconditionally. The design describes a monotone merge that
  keeps the earliest code sighting and the latest code-less sighting. `GetCodeMissIsMonotone`
  proves that on the path `get_code` takes, the overwrite only ever moves the first code
  sighting earlier and the last code-less sighting later. So the two policies agree except
  under races.
- `get_latest_block_number` in `environment_cache.rs` fetches the provider's head on a miss and
  pins it. The design describes a plain read that reports a miss as absent.
- `init.rs:46` calls `get_latest_block_number(&fork_url)` with one argument, synchronously, and
  `expect`s an `Option`. That signature does not match the one defined in `environment_cache.rs`.
  The model reads the call as a plain read of the latest-block map. When the URL has no entry,
  the result is the error `LatestBlockNotSet`, which stands for the panic.

## Model

| member | source | states |
|---|---|---|
| CodeCaching.Record | crates/evm/core/src/backend/code_cache.rs:82-89 | non-empty code overwrites the first-code field with (block, code) and keeps the EOA field; empty code overwrites the EOA field with the block and keeps the code field |
| CodeCaching.CacheCodeIn | crates/evm/core/src/backend/code_cache.rs:78-93 | the entry for the key is created if absent and updated by `Record`; every other key keeps its history |
| CodeCaching.GetCodeStep | crates/evm/core/src/backend/code_cache.rs:31-47 | a hit returns the cached code with no request and no change; a miss makes exactly one code request and returns its answer; a success is recorded by `cache_code`; an error leaves the cache unchanged |
| CodeCaching.Lookup | crates/evm/core/src/backend/code_cache.rs:55-75 | with no history for the key, None; when code was first seen at or before the block, that code; otherwise, when the account was last seen without code at or after the block, empty code; otherwise None |
| CodeCaching.CodeCache.CheckCache | crates/evm/core/src/backend/code_cache.rs:55-75 | on the object's entries: the code when the code branch applies, otherwise empty code exactly when the EOA branch applies, otherwise None |
| CodeCaching.CodeCache.constructor | crates/evm/core/src/backend/code_cache.rs:22-26 | a new cache holds no history, and the invariant that every recorded code is non-empty holds |
| CodeCaching.CodeCache.CacheCode | crates/evm/core/src/backend/code_cache.rs:78-93 | the in-place update leaves the map equal to `CacheCodeIn` of the old map and keeps every recorded code non-empty |
| CodeCaching.CodeCache.GetCode | crates/evm/core/src/backend/code_cache.rs:31-47 | result, new map and requests made are those of `GetCodeStep` on the old map; every recorded code stays non-empty |
| CodeCaching.LookupWithoutHistory | crates/evm/core/src/backend/code_cache.rs:55-75 | with no history for the key, `check_cache` answers None |
| CodeCaching.LookupAfterFirstCode | crates/evm/core/src/backend/code_cache.rs:59-65 | code first seen at b0 is the answer for every block at or after b0 |
| CodeCaching.LookupBeforeFirstCode | crates/evm/core/src/backend/code_cache.rs:59-71 | before b0, with no EOA sighting at or after the block, the answer is None |
| CodeCaching.LookupBeforeLastEoa | crates/evm/core/src/backend/code_cache.rs:67-71 | an EOA sighting at e answers empty code for every block at or before e, unless the code branch applies |
| CodeCaching.LookupCodeBranchFirst | crates/evm/core/src/backend/code_cache.rs:59-71 | when both facts cover the block, the code is returned |
| CodeCaching.LookupAnswersIff | crates/evm/core/src/backend/code_cache.rs:55-75 | there is an answer if and only if one of the two branches applies |
| CodeCaching.CheckCodeCacheScenario | crates/evm/core/src/backend/code_cache.rs:96-123 | code at 1000 answers 1000 and 1001 but not 999; a later EOA sighting at 990 answers 990 and 989 but not 991 |
| CodeCaching.CacheCodeScenario | crates/evm/core/src/backend/code_cache.rs:125-146 | each `cache_code` writes only its own field |
| CodeCaching.GetCodeKeepsWellFormed | crates/evm/core/src/backend/code_cache.rs:83-87 | only non-empty code is ever stored as the first code sighting |
| CodeCaching.GetCodeMemoizes | crates/evm/core/src/backend/code_cache.rs:38-46 | after a successful `get_code`, the same query is answered from the cache, with the same bytes, whatever the provider |
| CodeCaching.GetCodeCodeLater | crates/evm/core/src/backend/code_cache.rs:38-46 | non-empty code returned for b1 is returned without a request for every b2 at or after b1 |
| CodeCaching.GetCodeEmptyEarlier | crates/evm/core/src/backend/code_cache.rs:38-46 | empty code returned for b2 is returned without a request for every b1 at or before b2 |
| CodeCaching.GetCodeMissIsMonotone | crates/evm/core/src/backend/code_cache.rs:38-46 | on a miss, the overwrite moves the first code sighting only earlier and the last EOA sighting only later |
| CodeCaching.CheckHistorySound | crates/evm/core/src/backend/code_cache.rs:49-75 | a history whose facts are true of a deploy-once chain answers only the chain's code at that block |
| CodeCaching.RecordAgrees | crates/evm/core/src/backend/code_cache.rs:78-93 | recording a true observation keeps the history true of the chain |
| CodeCaching.EvictionKeepsAgreement | crates/evm/core/src/backend/code_cache.rs:20-26 | dropping an entry (capacity eviction) keeps the cache sound and turns the key into a miss at every block |
| CodeCaching.GetCodeSound | crates/evm/core/src/backend/code_cache.rs:31-47 | against a truthful provider, every answer is the chain's code and the cache stays sound |
| CodeCaching.RunQueries | crates/evm/core/src/backend/code_cache.rs:31-47 | a run of `get_code` calls gives one answer per query |
| CodeCaching.RunQueriesSound | crates/evm/core/src/backend/code_cache.rs:31-75 | over any sequence of queries against truthful providers, every successful answer is the chain's code at the queried block |
| EnvironmentCaching.ChainIdStep | crates/evm/core/src/backend/environment_cache.rs:48-59 | a cached id is returned with no request; a miss makes one chain-id request; an error caches nothing; a success is stored under the URL and nothing else changes |
| EnvironmentCaching.BlockEnvStep | crates/evm/core/src/backend/environment_cache.rs:62-91 | an entry with a block is returned with no request; an entry without a block has only its block fetched and keeps its gas price; a full miss fetches block and gas price and fails if either fails; success replaces the entry; an error changes nothing |
| EnvironmentCaching.LatestBlockStep | crates/evm/core/src/backend/environment_cache.rs:94-107 | a pinned number is returned with no request; a miss fetches the head and pins it; an error changes nothing |
| EnvironmentCaching.SetLatestBlock | crates/evm/core/src/backend/environment_cache.rs:110-112 | the URL's pin is overwritten; every other URL and the other maps are unchanged |
| EnvironmentCaching.ForkInfoStep | crates/evm/core/src/backend/environment_cache.rs:115-125 | the result is exactly the pair of the two halves' results and fails if either fails; requests and map changes are those of the two halves |
| EnvironmentCaching.EnvironmentCache.constructor | crates/evm/core/src/backend/environment_cache.rs:27-35 | a new cache has three empty maps |
| EnvironmentCaching.EnvironmentCache.GetChainId | crates/evm/core/src/backend/environment_cache.rs:48-59 | result, new maps and requests made are those of `ChainIdStep` |
| EnvironmentCaching.EnvironmentCache.GetBlockEnvByNumber | crates/evm/core/src/backend/environment_cache.rs:62-91 | result, new maps and requests made are those of `BlockEnvStep` |
| EnvironmentCaching.EnvironmentCache.GetLatestBlockNumber | crates/evm/core/src/backend/environment_cache.rs:94-107 | result, new maps and requests made are those of `LatestBlockStep` |
| EnvironmentCaching.EnvironmentCache.SetLatestBlockNumber | crates/evm/core/src/backend/environment_cache.rs:110-112 | the maps become those of `SetLatestBlock` |
| EnvironmentCaching.EnvironmentCache.GetForkInfo | crates/evm/core/src/backend/environment_cache.rs:115-125 | result, new maps and requests made are those of `ForkInfoStep` |
| EnvironmentCaching.ChainIdMemoized | crates/evm/core/src/backend/environment_cache.rs:53-58 | after a successful call, the next call for the URL returns the same id with no request, whatever the provider |
| EnvironmentCaching.ChainIdScenario | crates/evm/core/src/backend/environment_cache.rs:136-153 | a failing provider caches nothing; a working one caches id 1; the failing one then gets 1 from the cache |
| EnvironmentCaching.BlockEnvPartialReuse | crates/evm/core/src/backend/environment_cache.rs:70-77 | an entry with no block and gas price g becomes {fetched block, g}; the gas price is not requested |
| EnvironmentCaching.BlockEnvMemoized | crates/evm/core/src/backend/environment_cache.rs:68-80 | after a call that returned a block, the next call returns the same entry with no request |
| EnvironmentCaching.BlockEnvScenario | crates/evm/core/src/backend/environment_cache.rs:155-184 | a failing provider caches nothing; after a working one, the failing one gets the same entry from the cache |
| EnvironmentCaching.LatestBlockScenario | crates/evm/core/src/backend/environment_cache.rs:186-200 | a pin set after a fetch is what the next call returns, with no request |
| EnvironmentCaching.LatestBlockPinsOnMiss | crates/evm/core/src/backend/environment_cache.rs:101-105 | a miss pins the provider's head, which the next call returns with no request |
| EnvironmentCaching.ForkInfoCached | crates/evm/core/src/backend/environment_cache.rs:115-125 | when both halves are cached, the pair is returned with no request and no change |
| EnvironmentCaching.ForkInfoScenario | crates/evm/core/src/backend/environment_cache.rs:202-224 | fails with a failing provider; after a working one, the failing one gets the same pair from the cache |
| EnvironmentCaching.ApplyOpRetains | crates/evm/core/src/backend/environment_cache.rs:46-126 | no single operation changes a cached chain id, a block entry that has a block, or the gas price of a cached entry; an operation on a URL whose chain id is cached makes no chain-id request, and one on a (URL, block) with an entry makes no gas-price request |
| EnvironmentCaching.RunOpsRetains | crates/evm/core/src/backend/environment_cache.rs:46-126 | over any sequence of operations against any providers, whatever the initial state cached stays cached as above, and no operation in the sequence requests a chain id or a gas price that the initial state held |
| DataAccess.DefaultStateLookup | crates/evm/core/src/backend/data_access.rs:38-42 | the default lookup is `RollN(0)`, the latest block |
| DataAccess.StateLookupFrom | crates/evm/core/src/backend/data_access.rs:44-48 | a fork request with block b gives `RollAt(b)`; one without a block gives the default |
| DataAccess.StateLookupFromInjective | crates/evm/core/src/backend/data_access.rs:44-48 | two fork requests give the same lookup if and only if they name the same fork block; a fork pinned at block 0 is not the default (latest-block) lookup |
| DataAccess.CreateForkScenarios | crates/evm/core/src/backend/data_access.rs:80-111 | a request with no block gives `RollN(0)`; a request with block 1 gives `RollAt(1)` |
| DataAccess.AccessEqualityIsStructural | crates/evm/core/src/backend/data_access.rs:6-14 | two accesses are equal if and only if type, chain and lookup are equal |
| DataAccess.RelativeNeverEqualsAbsolute | crates/evm/core/src/backend/data_access.rs:29-35 | `RollN(n)` never equals `RollAt(m)` |
| DataAccess.AccessTypeVariantsDistinct | crates/evm/core/src/backend/data_access.rs:16-27 | access types of different variants are never equal |
| DataAccess.RecordingIsIdempotent | crates/evm/core/src/backend/data_access.rs:5-14 | inserting an access already in a set leaves the set unchanged; recording one access twice gives a set of one |
| ForkInit.TargetBlock | crates/evm/core/src/fork/init.rs:43-47 | the pin if given; otherwise the URL's latest block; without either, `LatestBlockNotSet` |
| ForkInit.MissingBlockError | crates/evm/core/src/fork/init.rs:52-68 | the error names the block, and it names the head if and only if the head request succeeded |
| ForkInit.BuildCfg | crates/evm/core/src/fork/init.rs:70-78 | chain id is the override, else the RPC id; memory limit and block-gas-limit switch come from the arguments; code size limit is `usize::MAX`; EIP-3607 is disabled |
| ForkInit.BuildEnv | crates/evm/core/src/fork/init.rs:80-99 | the header's number, timestamp, miner, difficulty and gas limit are copied; prevrandao is the mix hash or zero; base fee is the header's or zero; the caller is the origin; gas price is the override or the fork's; the tx chain id equals the cfg chain id; the tx gas limit is the header gas limit cast to 64 bits; a header without a number fails |
| ForkInit.EnvironmentStep | crates/evm/core/src/fork/init.rs:30-104 | an unset latest block fails before any request; otherwise the cache changes exactly as `get_fork_info` changes it; its errors propagate; a missing block adds one head request |
| ForkInit.Environment | crates/evm/core/src/fork/init.rs:30-104 | result, new cache and requests made are those of `EnvironmentStep`; the warning flag is set exactly when the block is missing, the head is known, and the block is at or below it |
| ForkInit.EnvironmentRequiresLatestBlock | crates/evm/core/src/fork/init.rs:43-47 | without a pin or a recorded latest block, the call fails with no request and no change |
| ForkInit.EnvironmentPropagatesForkInfoError | crates/evm/core/src/fork/init.rs:49-50 | an error from `get_fork_info` is returned unchanged |
| ForkInit.EnvironmentMissingBlockFails | crates/evm/core/src/fork/init.rs:52-68 | a missing block always fails with that block number; the head is named if and only if the head request succeeded; the warning fires if and only if the block is at or below the head; the last request is the head request |
| ForkInit.EnvironmentSuccess | crates/evm/core/src/fork/init.rs:49-103 | a success returns the fetched block and the hook applied to the record built from it, the fork's chain id and its gas price; no warning is emitted |
| ForkInit.EnvironmentFetchedBlock | crates/evm/core/src/fork/init.rs:49-103 | once the block is fetched, a header with a number makes the call succeed with the hook applied to the record built from it, the fork's chain id and gas price; a header without a number fails with `BlockNumberNotFound`; no warning either way |
| ForkInit.PinnedBlockEndToEnd | crates/evm/core/src/fork/init.rs:43-103 | for a pinned block the provider has, the record carries the header's number, timestamp, gas limit and base fee, the override or fetched gas price, and the override or fetched chain id, after exactly three requests |

## Left out

- The RPC transport and the provider's own behaviour. The provider is an oracle value, and the model never looks inside its errors.
- Concurrency and async. The `tokio::try_join!` calls in `get_block_env_by_number` and `get_fork_info` run their two halves one after the other, and both halves always run.
- EnvironmentCaching.BlockEnvStep: when both the block request and the gas-price request fail, the block's error is reported. In the source, whichever error `try_join!` sees first wins.
- EnvironmentCaching.ForkInfoStep: both halves always run to completion, so a failing call may still have cached the other half. When both fail, the chain-id error is reported. In the source, `try_join!` may drop the unfinished half.
- Races between concurrent writers of one key, including the non-atomic read-then-insert in `cache_code`.
- Capacity-based eviction (10,000 code histories, 500 block environments). The maps are unbounded. `EvictionKeepsAgreement` covers dropping an entry.
- `AccountCodeCache`, which is never used.
- `Backend`, `load_accesses` and `drain_accesses_and_collect`, which appear only in the tests of `data_access.rs`. Their code is not part of this model, so the replay of accesses is not modelled.
- `apply_chain_and_block_specific_env_changes`. It is a parameter `hook` applied to the finished record, and the field properties are stated for the record before the hook.
- The `error!` log line. It is a ghost flag `warned`. The error message text is the structured `BlockNotFound(number, latest)`.
- The two `expect` panics. They are the errors `LatestBlockNotSet` and `BlockNumberNotFound`.
- The fields of `CfgEnv`, `BlockEnv` and `TxEnv` that `environment` leaves at their defaults, and the block body (transactions).
- Byte-level header types. Addresses, hashes and 256-bit words are bounded integers, and `usize` is taken to be 64 bits wide.
- The fields of `CreateFork` other than `enable_caching`, `url` and the fork block number of its EVM options.
