/** Descriptors of the remote state reads the backend records: what was read, on which
    chain, and at which point in the chain. Equality is structural, which is what lets a
    set of recorded accesses collapse exact duplicates. */
module DataAccess {
  import opened Primitives

  datatype AccessType =
    | Storage(address: Address, slot: U256)
    | Basic(address: Address)
    | CodeByHash(hash: B256)
    | BlockHash(number: U256)

  /** A block relative to the latest one (`RollN`) or an absolute block number (`RollAt`). */
  datatype StateLookup =
    | RollN(offset: i64)
    | RollAt(number: u64)

  datatype Access = Access(accessType: AccessType, chain: Chain, stateLookup: StateLookup)

  /** The part of a fork-creation request the conversion reads: its optional block number. */
  datatype CreateFork = CreateFork(enableCaching: bool, url: string, forkBlockNumber: Option<u64>)

  /** `StateLookup::default()`: the latest block, zero blocks back. */
  function DefaultStateLookup(): (l: StateLookup)
    ensures l.RollN? && l.offset == 0
  {
    RollN(0)
  }

  /** `StateLookup::from(&CreateFork)`: the pinned block if the request names one, else the default. */
  function StateLookupFrom(createFork: CreateFork): (l: StateLookup)
    ensures createFork.forkBlockNumber.Some? ==> l == RollAt(createFork.forkBlockNumber.value)
    ensures createFork.forkBlockNumber.None? ==> l == DefaultStateLookup()
  {
    match createFork.forkBlockNumber
    case Some(b) => RollAt(b)
    case None => DefaultStateLookup()
  }

  /** Two fork requests record the same lookup exactly when they name the same fork block;
      in particular a fork pinned at block 0 is `RollAt(0)`, never the latest block. */
  lemma StateLookupFromInjective(a: CreateFork, b: CreateFork)
    ensures StateLookupFrom(a) == StateLookupFrom(b) <==> a.forkBlockNumber == b.forkBlockNumber
    ensures a.forkBlockNumber == Some(0) ==> StateLookupFrom(a) != DefaultStateLookup()
  {
  }

  /** `test_create_fork_latest` and `test_create_fork_at_block`: the lookup recorded for a new fork. */
  lemma CreateForkScenarios(url: string)
    ensures StateLookupFrom(CreateFork(false, url, None)) == RollN(0)
    ensures StateLookupFrom(CreateFork(false, url, Some(1))) == RollAt(1)
  {
  }

  /** Two accesses are equal exactly when their three fields are. */
  lemma AccessEqualityIsStructural(a: Access, b: Access)
    ensures a == b <==>
      a.accessType == b.accessType && a.chain == b.chain && a.stateLookup == b.stateLookup
  {
  }

  /** A relative and an absolute lookup are never equal, even when they name the same block. */
  lemma RelativeNeverEqualsAbsolute(n: i64, m: u64)
    ensures RollN(n) != RollAt(m)
  {
  }

  /** Accesses of different kinds are never equal, whatever their payloads. */
  lemma AccessTypeVariantsDistinct(t: AccessType, u: AccessType)
    requires t.Storage? != u.Storage? || t.Basic? != u.Basic? || t.CodeByHash? != u.CodeByHash?
    ensures t != u
  {
  }

  /** Recording an access already in the set leaves the set as it was; recording the same
      access twice into an empty set gives a set of one. */
  lemma RecordingIsIdempotent(recorded: set<Access>, a: Access)
    ensures a in recorded ==> recorded + {a} == recorded
    ensures |({} + {a}) + {a}| == 1
  {
  }
}
