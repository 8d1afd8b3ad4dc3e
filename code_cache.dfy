/** The per-(address, chain) code cache of the fork backend.
    For every account it keeps the block at which code was first observed (with that code)
    and the block at which the account was last observed without code. Because deployed
    code neither appears before its deployment nor disappears afterwards, these two facts
    answer "code at block N?" for every N at or after the first code sighting and for every
    N at or before the last code-less sighting, without asking the provider. */
module CodeCaching {
  import opened Primitives
  import opened RpcProvider

  datatype CodeDetected = CodeDetected(blockNumber: u64, code: Bytes)

  datatype CodeHistory = CodeHistory(
    codeFirstDetectedAt: Option<CodeDetected>,
    eoaLastDetectedAt: Option<u64>)

  /** `CodeHistory::default()`: nothing known. */
  const EMPTY_HISTORY := CodeHistory(None, None)

  type Key = (Address, Chain)

  type Entries = map<Key, CodeHistory>

  // ---------------------------------------------------------------------------
  // check_cache
  // ---------------------------------------------------------------------------

  /** The code branch of the lookup applies: code was recorded at or before block `b`. */
  predicate CodeSeenBy(h: CodeHistory, b: u64) {
    h.codeFirstDetectedAt.Some? && h.codeFirstDetectedAt.value.blockNumber <= b
  }

  /** The EOA branch of the lookup applies: no code was recorded at block `b` or later. */
  predicate EoaSeenFrom(h: CodeHistory, b: u64) {
    h.eoaLastDetectedAt.Some? && b <= h.eoaLastDetectedAt.value
  }

  /** The answer one history gives for block `b`; the code branch is tried first. */
  function CheckHistory(h: CodeHistory, b: u64): Option<Bytes> {
    if CodeSeenBy(h, b) then Some(h.codeFirstDetectedAt.value.code)
    else if EoaSeenFrom(h, b) then Some([])
    else None
  }

  /** `check_cache`: the answer the whole cache gives for `k` at block `b`. */
  function Lookup(m: Entries, k: Key, b: u64): (r: Option<Bytes>)
    ensures k !in m ==> r == None
    ensures k in m && CodeSeenBy(m[k], b) ==> r == Some(m[k].codeFirstDetectedAt.value.code)
    ensures k in m && !CodeSeenBy(m[k], b) && EoaSeenFrom(m[k], b) ==> r == Some([])
    ensures k in m && !CodeSeenBy(m[k], b) && !EoaSeenFrom(m[k], b) ==> r == None
  {
    if k in m then CheckHistory(m[k], b) else None
  }

  // ---------------------------------------------------------------------------
  // cache_code
  // ---------------------------------------------------------------------------

  function HistoryOf(m: Entries, k: Key): CodeHistory {
    if k in m then m[k] else EMPTY_HISTORY
  }

  /** The update `cache_code` applies to one history: an unconditional overwrite of the
      field that the observation is about. */
  function Record(h: CodeHistory, b: u64, code: Bytes): (h': CodeHistory)
    ensures |code| > 0 ==>
      h'.codeFirstDetectedAt == Some(CodeDetected(b, code)) && h'.eoaLastDetectedAt == h.eoaLastDetectedAt
    ensures |code| == 0 ==>
      h'.eoaLastDetectedAt == Some(b) && h'.codeFirstDetectedAt == h.codeFirstDetectedAt
  {
    if |code| == 0 then h.(eoaLastDetectedAt := Some(b))
    else h.(codeFirstDetectedAt := Some(CodeDetected(b, code)))
  }

  /** The cache after `cache_code(address, chain, b, code)`: the entry is created if
      absent, updated by `Record`, and no other key is touched. */
  function CacheCodeIn(m: Entries, k: Key, b: u64, code: Bytes): (m': Entries)
    ensures m'.Keys == m.Keys + {k}
    ensures m'[k] == Record(HistoryOf(m, k), b, code)
    ensures forall k' :: k' in m && k' != k ==> m'[k'] == m[k']
  {
    m[k := Record(HistoryOf(m, k), b, code)]
  }

  // ---------------------------------------------------------------------------
  // get_code
  // ---------------------------------------------------------------------------

  /** `get_code`: answer from the cache when it can; otherwise ask the provider for the
      code at `b`, record what came back and return it. A provider error is returned
      and nothing is recorded. */
  function GetCodeStep(m: Entries, p: Provider, address: Address, chain: Chain, b: u64): (o: Outcome<Bytes, Entries>)
    ensures Lookup(m, (address, chain), b).Some? ==>
      o.result == Ok(Lookup(m, (address, chain), b).value) && o.state == m && o.issued == []
    ensures Lookup(m, (address, chain), b).None? ==>
      o.result == p.codeAt(address, b) && o.issued == [GetCodeAt(address, b)]
    ensures Lookup(m, (address, chain), b).None? && o.result.Ok? ==>
      o.state == CacheCodeIn(m, (address, chain), b, o.result.value)
    ensures o.result.Err? ==> o.state == m
  {
    match Lookup(m, (address, chain), b)
    case Some(code) => Outcome(Ok(code), m, [])
    case None =>
      match p.codeAt(address, b)
      case Err(e) => Outcome(Err(e), m, [GetCodeAt(address, b)])
      case Ok(code) => Outcome(Ok(code), CacheCodeIn(m, (address, chain), b, code), [GetCodeAt(address, b)])
  }

  /** The cache as an object: one map the operations read and overwrite in place. */
  class CodeCache {
    var entries: Entries

    /** The class invariant: every recorded code is non-empty. */
    ghost predicate Valid()
      reads this
    {
      WellFormed(entries)
    }

    constructor ()
      ensures entries == map[] && Valid()
    {
      entries := map[];
    }

    /** `check_cache` on the current entries: the code when the code branch applies, else
        empty code when the EOA branch applies, else no answer. */
    function CheckCache(address: Address, chain: Chain, b: u64): (r: Option<Bytes>)
      reads this
      ensures (address, chain) !in entries ==> r == None
      ensures (address, chain) in entries && CodeSeenBy(entries[(address, chain)], b) ==>
        r == Some(entries[(address, chain)].codeFirstDetectedAt.value.code)
      ensures (address, chain) in entries && !CodeSeenBy(entries[(address, chain)], b) ==>
        (r.Some? <==> EoaSeenFrom(entries[(address, chain)], b)) && (r.Some? ==> r.value == [])
    {
      Lookup(entries, (address, chain), b)
    }

    method CacheCode(address: Address, chain: Chain, b: u64, code: Bytes)
      requires Valid()
      modifies this
      ensures entries == CacheCodeIn(old(entries), (address, chain), b, code)
      ensures Valid()
    {
      var history := if (address, chain) in entries then entries[(address, chain)] else EMPTY_HISTORY;
      if |code| == 0 {
        history := history.(eoaLastDetectedAt := Some(b));
      } else {
        history := history.(codeFirstDetectedAt := Some(CodeDetected(b, code)));
      }
      entries := entries[(address, chain) := history];
    }

    method GetCode(p: Provider, address: Address, chain: Chain, b: u64)
      returns (r: Result<Bytes, ProviderError>, ghost issued: seq<Call>)
      requires Valid()
      modifies this
      ensures var o := GetCodeStep(old(entries), p, address, chain, b);
        r == o.result && entries == o.state && issued == o.issued
      ensures Valid()
    {
      var cached := CheckCache(address, chain, b);
      if cached.Some? {
        return Ok(cached.value), [];
      }
      issued := [GetCodeAt(address, b)];
      var fetched := p.codeAt(address, b);
      if fetched.Err? {
        return Err(fetched.error), issued;
      }
      CacheCode(address, chain, b, fetched.value);
      r := Ok(fetched.value);
    }
  }

  // ---------------------------------------------------------------------------
  // What the lookup rule decides
  // ---------------------------------------------------------------------------

  /** Without a history for the key there is no answer. */
  lemma LookupWithoutHistory(m: Entries, k: Key, b: u64)
    requires k !in m
    ensures Lookup(m, k, b) == None
  {
  }

  /** Code first seen at `b0` answers for every block at or after `b0`. */
  lemma LookupAfterFirstCode(m: Entries, k: Key, b0: u64, code: Bytes, b: u64)
    requires k in m && m[k].codeFirstDetectedAt == Some(CodeDetected(b0, code))
    requires b0 <= b
    ensures Lookup(m, k, b) == Some(code)
  {
  }

  /** Before the first code sighting, and with no code-less sighting at or after the block,
      the cache does not know. */
  lemma LookupBeforeFirstCode(m: Entries, k: Key, b0: u64, code: Bytes, b: u64)
    requires k in m && m[k].codeFirstDetectedAt == Some(CodeDetected(b0, code))
    requires b < b0 && !EoaSeenFrom(m[k], b)
    ensures Lookup(m, k, b) == None
  {
  }

  /** A code-less sighting at `e` answers "no code" for every block at or before `e`,
      unless the code branch already applies. */
  lemma LookupBeforeLastEoa(m: Entries, k: Key, e: u64, b: u64)
    requires k in m && m[k].eoaLastDetectedAt == Some(e)
    requires b <= e && !CodeSeenBy(m[k], b)
    ensures Lookup(m, k, b) == Some([])
  {
  }

  /** When both facts cover the block, the code wins. */
  lemma LookupCodeBranchFirst(m: Entries, k: Key, b: u64)
    requires k in m && CodeSeenBy(m[k], b) && EoaSeenFrom(m[k], b)
    ensures Lookup(m, k, b) == Some(m[k].codeFirstDetectedAt.value.code)
  {
  }

  /** The lookup answers exactly when one of its two branches applies. */
  lemma LookupAnswersIff(m: Entries, k: Key, b: u64)
    ensures Lookup(m, k, b).Some? <==> k in m && (CodeSeenBy(m[k], b) || EoaSeenFrom(m[k], b))
  {
  }

  /** The scenario of `test_check_code_cache`: code [1, 2, 3] at 1000, then no code at 990. */
  lemma CheckCodeCacheScenario(address: Address, chain: Chain)
    ensures var k := (address, chain);
      var m0: Entries := map[];
      var m1 := CacheCodeIn(m0, k, 1000, [1, 2, 3]);
      var m2 := CacheCodeIn(m1, k, 990, []);
      && Lookup(m0, k, 1000) == None
      && Lookup(m1, k, 1000) == Some([1, 2, 3])
      && Lookup(m1, k, 1001) == Some([1, 2, 3])
      && Lookup(m1, k, 999) == None
      && Lookup(m2, k, 990) == Some([])
      && Lookup(m2, k, 989) == Some([])
      && Lookup(m2, k, 991) == None
  {
  }

  /** The scenario of `test_cache_code`: each observation writes only its own field. */
  lemma CacheCodeScenario(address: Address, chain: Chain)
    ensures var k := (address, chain);
      var m1 := CacheCodeIn(map[], k, 1000, [1, 2, 3]);
      var m2 := CacheCodeIn(m1, k, 990, []);
      && m1[k].eoaLastDetectedAt == None
      && m1[k].codeFirstDetectedAt == Some(CodeDetected(1000, [1, 2, 3]))
      && m2[k].eoaLastDetectedAt == Some(990)
  {
  }

  // ---------------------------------------------------------------------------
  // What get_code guarantees for later calls
  // ---------------------------------------------------------------------------

  /** Every code ever recorded is non-empty (`cache_code` routes empty code to the EOA field). */
  ghost predicate WellFormed(m: Entries) {
    forall k :: k in m && m[k].codeFirstDetectedAt.Some? ==> |m[k].codeFirstDetectedAt.value.code| > 0
  }

  lemma GetCodeKeepsWellFormed(m: Entries, p: Provider, address: Address, chain: Chain, b: u64)
    requires WellFormed(m)
    ensures WellFormed(GetCodeStep(m, p, address, chain, b).state)
  {
  }

  /** Asking again for the same key and block after a successful `get_code` is served
      from the cache, with the same answer. */
  lemma GetCodeMemoizes(m: Entries, p: Provider, q: Provider, address: Address, chain: Chain, b: u64)
    requires GetCodeStep(m, p, address, chain, b).result.Ok?
    ensures var o := GetCodeStep(m, p, address, chain, b);
      var o2 := GetCodeStep(o.state, q, address, chain, b);
      o2.result == o.result && o2.state == o.state && o2.issued == []
  {
  }

  /** Non-empty code returned for block `b1` is returned, without a fetch, for every later block. */
  lemma GetCodeCodeLater(m: Entries, p: Provider, q: Provider, address: Address, chain: Chain, b1: u64, b2: u64)
    requires b1 <= b2
    requires var o := GetCodeStep(m, p, address, chain, b1); o.result.Ok? && |o.result.value| > 0
    ensures var o := GetCodeStep(m, p, address, chain, b1);
      var o2 := GetCodeStep(o.state, q, address, chain, b2);
      o2.result == o.result && o2.issued == []
  {
  }

  /** Empty code returned for block `b2` is returned, without a fetch, for every earlier block. */
  lemma GetCodeEmptyEarlier(m: Entries, p: Provider, q: Provider, address: Address, chain: Chain, b1: u64, b2: u64)
    requires WellFormed(m)
    requires b1 <= b2
    requires var o := GetCodeStep(m, p, address, chain, b2); o.result.Ok? && o.result.value == []
    ensures var o := GetCodeStep(m, p, address, chain, b2);
      var o2 := GetCodeStep(o.state, q, address, chain, b1);
      o2.result == Ok([]) && o2.issued == []
  {
  }

  /** On the path `get_code` takes, the unconditional overwrite of `cache_code` only ever
      moves the first code sighting earlier and the last code-less sighting later, so it
      agrees with a monotone merge of the two facts. */
  lemma GetCodeMissIsMonotone(m: Entries, p: Provider, address: Address, chain: Chain, b: u64)
    requires Lookup(m, (address, chain), b).None?
    ensures var k := (address, chain);
      var o := GetCodeStep(m, p, address, chain, b);
      var before := HistoryOf(m, k);
      var after := HistoryOf(o.state, k);
      && (before.codeFirstDetectedAt.Some? ==>
            after.codeFirstDetectedAt.Some?
            && after.codeFirstDetectedAt.value.blockNumber <= before.codeFirstDetectedAt.value.blockNumber)
      && (before.eoaLastDetectedAt.Some? ==>
            after.eoaLastDetectedAt.Some? && before.eoaLastDetectedAt.value <= after.eoaLastDetectedAt.value)
  {
  }

  // ---------------------------------------------------------------------------
  // Soundness against the chain
  // ---------------------------------------------------------------------------

  /** The code history of one account on the real chain, under the cache's assumption that
      code is deployed at most once and never removed. */
  datatype Deployment = NeverDeployed | DeployedAt(block: u64, code: Bytes)

  predicate ValidDeployment(d: Deployment) {
    d.DeployedAt? ==> |d.code| > 0
  }

  /** The code the chain holds for the account at block `b`. */
  function CodeAt(d: Deployment, b: u64): Bytes {
    if d.DeployedAt? && d.block <= b then d.code else []
  }

  /** Every fact a history holds is true of the chain. */
  predicate HistoryAgrees(h: CodeHistory, d: Deployment) {
    && (h.codeFirstDetectedAt.Some? ==>
          |h.codeFirstDetectedAt.value.code| > 0
          && CodeAt(d, h.codeFirstDetectedAt.value.blockNumber) == h.codeFirstDetectedAt.value.code)
    && (h.eoaLastDetectedAt.Some? ==> CodeAt(d, h.eoaLastDetectedAt.value) == [])
  }

  ghost predicate Agrees(m: Entries, truth: Key -> Deployment) {
    forall k :: k in m ==> HistoryAgrees(m[k], truth(k))
  }

  ghost predicate ValidChain(truth: Key -> Deployment) {
    forall k :: ValidDeployment(truth(k))
  }

  /** A provider for `chain` whose successful answers are true of the chain. */
  ghost predicate Truthful(p: Provider, chain: Chain, truth: Key -> Deployment) {
    forall a: Address, b: u64 :: p.codeAt(a, b).Ok? ==> p.codeAt(a, b).value == CodeAt(truth((a, chain)), b)
  }

  /** Whatever a history that agrees with the chain answers is what the chain holds. */
  lemma CheckHistorySound(h: CodeHistory, d: Deployment, b: u64)
    requires ValidDeployment(d) && HistoryAgrees(h, d)
    requires CheckHistory(h, b).Some?
    ensures CheckHistory(h, b).value == CodeAt(d, b)
  {
  }

  /** Recording a true observation keeps a history in agreement with the chain. */
  lemma RecordAgrees(h: CodeHistory, d: Deployment, b: u64)
    requires ValidDeployment(d) && HistoryAgrees(h, d)
    ensures HistoryAgrees(Record(h, b, CodeAt(d, b)), d)
  {
  }

  /** Capacity eviction drops an entry; what remains still agrees with the chain, and a later
      lookup for the evicted key, at any block, is a miss and a re-fetch, never a wrong answer. */
  lemma EvictionKeepsAgreement(m: Entries, truth: Key -> Deployment, k: Key)
    requires Agrees(m, truth)
    ensures Agrees(m - {k}, truth)
    ensures forall b: u64 :: Lookup(m - {k}, k, b) == None
  {
  }

  /** One `get_code` against a truthful provider: its answer is the chain's code, and the
      cache still agrees with the chain afterwards. */
  lemma GetCodeSound(m: Entries, truth: Key -> Deployment, p: Provider, address: Address, chain: Chain, b: u64)
    requires ValidChain(truth) && Agrees(m, truth) && Truthful(p, chain, truth)
    ensures var o := GetCodeStep(m, p, address, chain, b);
      && Agrees(o.state, truth)
      && (o.result.Ok? ==> o.result.value == CodeAt(truth((address, chain)), b))
  {
  }

  datatype CodeQuery = CodeQuery(address: Address, chain: Chain, blockNumber: u64)

  /** A sequence of `get_code` calls, each against the provider of its chain; returns the
      final cache and the answer to every query, in order. */
  function RunQueries(m: Entries, qs: seq<CodeQuery>, providers: Chain -> Provider): (r: (Entries, seq<Result<Bytes, ProviderError>>))
    ensures |r.1| == |qs|
    decreases |qs|
  {
    if qs == [] then (m, [])
    else
      var q := qs[0];
      var o := GetCodeStep(m, providers(q.chain), q.address, q.chain, q.blockNumber);
      var rest := RunQueries(o.state, qs[1..], providers);
      (rest.0, [o.result] + rest.1)
  }

  /** However the queries interleave across accounts, chains and blocks, every answer the
      cache gives (from memory or from a truthful provider) is the chain's code at that
      block, and the cache keeps agreeing with the chain. */
  lemma {:induction false} RunQueriesSound(m: Entries, truth: Key -> Deployment, qs: seq<CodeQuery>, providers: Chain -> Provider)
    requires ValidChain(truth) && Agrees(m, truth)
    requires forall c :: Truthful(providers(c), c, truth)
    ensures var r := RunQueries(m, qs, providers);
      && Agrees(r.0, truth)
      && forall i :: 0 <= i < |qs| && r.1[i].Ok? ==>
           r.1[i].value == CodeAt(truth((qs[i].address, qs[i].chain)), qs[i].blockNumber)
    decreases |qs|
  {
    if qs != [] {
      var q := qs[0];
      var o := GetCodeStep(m, providers(q.chain), q.address, q.chain, q.blockNumber);
      GetCodeSound(m, truth, providers(q.chain), q.address, q.chain, q.blockNumber);
      RunQueriesSound(o.state, truth, qs[1..], providers);
      var r := RunQueries(m, qs, providers);
      var rest := RunQueries(o.state, qs[1..], providers);
      assert r.1 == [o.result] + rest.1;
      forall i | 0 <= i < |qs| && r.1[i].Ok?
        ensures r.1[i].value == CodeAt(truth((qs[i].address, qs[i].chain)), qs[i].blockNumber)
      {
        if i > 0 {
          assert r.1[i] == rest.1[i - 1] && qs[i] == qs[1..][i - 1];
        }
      }
    }
  }
}
