/** Looking up blocks through the cache, and walking back along parent hashes. */
module ChainClient {
  import opened Wrappers
  import opened BlockCaching

  // The block behind each hash; a hash determines its block.
  type Chain = map<string, Block>

  // What the client makes of a chain_getBlock answer: for an unknown hash the answer holds no
  // block, and the fields read from it come out as zero values.
  function Served(chain: Chain, hash: string): Block {
    if hash in chain then chain[hash].(hash := hash) else Block(0, "", hash, [])
  }

  // How the world behaves during one ChainGetBlock.  None and false stand for failed requests.
  // Other goroutines use the same cache: `others` is what they have made of its contents by the
  // time the call looks at it, `meanwhile` by the time it puts the answer of the node there.
  datatype Call = Call(up: bool, header: Option<nat>, hashAt: Option<string>, answered: bool,
                       others: Option<seq<Block>>, meanwhile: Option<seq<Block>>)

  function At(calls: nat -> Call, i: nat): Call { calls(i) }

  datatype Unavailable = Unavailable

  ghost predicate Consistent(s: seq<Block>, chain: Chain) {
    forall b :: b in s ==> b == Served(chain, b.hash)
  }

  ghost predicate Good(s: seq<Block>, capacity: nat, chain: Chain) {
    CacheInv(s, capacity) && Consistent(s, chain)
  }

  // The others, too, only add what the node served them.
  ghost predicate Truthful(call: Call, capacity: nat, chain: Chain) {
    && (call.others.Some? ==> Good(call.others.value, capacity, chain))
    && (call.meanwhile.Some? ==> Good(call.meanwhile.value, capacity, chain))
  }

  /* ---------- what the lookups do to a cache holding `s` ---------- */

  function ByHash(s: seq<Block>, capacity: nat, chain: Chain, call: Call, hash: string)
    : (Result<Block, Unavailable>, seq<Block>)
  {
    match FindHash(s, hash)
    case Some(b) => (Success(b), s)
    case None =>
      var s' := Changed(call.meanwhile, s);
      if call.answered then (Success(Served(chain, hash)), Added(s', capacity, Served(chain, hash)))
      else (Failure(Unavailable), s')
  }

  // A failed header request is not reported: the empty hash is then looked up like any other.
  function LookupIn(s: seq<Block>, capacity: nat, chain: Chain, call: Call, hash: string)
    : (Result<Block, Unavailable>, seq<Block>)
  {
    if !call.up then (Failure(Unavailable), s)
    else if hash != "" || call.header.None? then ByHash(s, capacity, chain, call, hash)
    else match FindNumber(s, call.header.value)
      case Some(b) => (Success(b), s)
      case None =>
        if call.hashAt.None? then (Failure(Unavailable), s)
        else ByHash(s, capacity, chain, call, call.hashAt.value)
  }

  function Lookup(s: seq<Block>, capacity: nat, chain: Chain, call: Call, hash: string)
    : (Result<Block, Unavailable>, seq<Block>)
  {
    LookupIn(Changed(call.others, s), capacity, chain, call, hash)
  }

  // One step of the walk: the request failed, the block holds the extrinsic, or its parent is next.
  datatype Step = Lost | Found(block: Block) | Next(hash: string)

  function Stepped(s: seq<Block>, capacity: nat, chain: Chain, call: Call, hash: string, extrinsic: string)
    : (Step, seq<Block>)
  {
    var (got, s') := Lookup(s, capacity, chain, call, hash);
    if got.Failure? then (Lost, s')
    else if extrinsic in got.value.extrinsics then (Found(got.value), s')
    else (Next(got.value.parentHash), s')
  }

  // The walk when step `i` is next and the one before came out as `step`.
  function WalkFrom(step: Step, s: seq<Block>, capacity: nat, chain: Chain, calls: nat -> Call, i: nat,
                    extrinsic: string, depth: nat)
    : (Result<Option<Block>, Unavailable>, seq<Block>)
    decreases depth
  {
    match step
    case Lost => (Failure(Unavailable), s)
    case Found(b) => (Success(Some(b)), s)
    case Next(hash) =>
      if depth == 0 then (Success(None), s)
      else
        var (next, s') := Stepped(s, capacity, chain, At(calls, i), hash, extrinsic);
        WalkFrom(next, s', capacity, chain, calls, i + 1, extrinsic, depth - 1)
  }

  function CachedWalk(s: seq<Block>, capacity: nat, chain: Chain, calls: nat -> Call, i: nat,
                      hash: string, extrinsic: string, depth: nat)
    : (Result<Option<Block>, Unavailable>, seq<Block>)
  {
    WalkFrom(Next(hash), s, capacity, chain, calls, i, extrinsic, depth)
  }

  lemma WalkGoesOn(hash: string, s: seq<Block>, next: Step, s': seq<Block>, capacity: nat, chain: Chain,
                   calls: nat -> Call, i: nat, extrinsic: string, depth: nat)
    requires depth > 0 && Stepped(s, capacity, chain, At(calls, i), hash, extrinsic) == (next, s')
    ensures WalkFrom(Next(hash), s, capacity, chain, calls, i, extrinsic, depth) ==
            WalkFrom(next, s', capacity, chain, calls, i + 1, extrinsic, depth - 1)
  {
  }

  lemma WalkUnfolds(s: seq<Block>, capacity: nat, chain: Chain, calls: nat -> Call, i: nat,
                    hash: string, extrinsic: string, depth: nat)
    requires depth > 0
    ensures var (got, s') := Lookup(s, capacity, chain, At(calls, i), hash);
      CachedWalk(s, capacity, chain, calls, i, hash, extrinsic, depth) ==
        if got.Failure? then (Failure(Unavailable), s')
        else if extrinsic in got.value.extrinsics then (Success(Some(got.value)), s')
        else CachedWalk(s', capacity, chain, calls, i + 1, got.value.parentHash, extrinsic, depth - 1)
  {
    var (step, s') := Stepped(s, capacity, chain, At(calls, i), hash, extrinsic);
    assert WalkFrom(step, s', capacity, chain, calls, i + 1, extrinsic, depth - 1) ==
           WalkFrom(Next(hash), s, capacity, chain, calls, i, extrinsic, depth);
  }

  // min(limit, capacity), and no step at all for a negative limit.
  function Depth(limit: int, capacity: nat): nat {
    if limit > capacity then capacity else if limit < 0 then 0 else limit
  }

  class RpcClient {
    const blockCache: BlockCache

    constructor (blockCacheSize: nat)
      ensures fresh(blockCache) && fresh(blockCache.buf) && blockCache.Valid()
      ensures blockCache.contents == [] && blockCache.capacity == blockCacheSize
    {
      blockCache := new BlockCache(blockCacheSize);
    }

    method ChainGetBlock(chain: Chain, call: Call, hash: string) returns (r: Result<Block, Unavailable>)
      requires blockCache.Valid()
      modifies blockCache, blockCache.buf
      ensures blockCache.Valid() && (blockCache.buf == old(blockCache.buf) || fresh(blockCache.buf))
      ensures (r, blockCache.contents) == Lookup(old(blockCache.contents), blockCache.capacity, chain, call, hash)
    {
      var h := hash;
      blockCache.ChangedBy(call.others);
      if !call.up {
        return Failure(Unavailable);
      }
      if h == "" {
        if call.header.Some? {
          var hit := blockCache.Get(call.header.value);
          if hit.Some? {
            return Success(hit.value);
          }
          if call.hashAt.None? {
            return Failure(Unavailable);
          }
          h := call.hashAt.value;
        }
      }
      var cached := blockCache.GetByHash(h);
      if cached.Some? {
        return Success(cached.value);
      }
      blockCache.ChangedBy(call.meanwhile);
      if !call.answered {
        return Failure(Unavailable);
      }
      var b := Served(chain, h);
      blockCache.Add(b);
      return Success(b);
    }

    method FindExtrinsicsBlock(chain: Chain, calls: nat -> Call, blockHash: string, extrinsic: string, limit: int)
      returns (r: Result<Option<Block>, Unavailable>)
      requires blockCache.Valid()
      modifies blockCache, blockCache.buf
      ensures blockCache.Valid() && (blockCache.buf == old(blockCache.buf) || fresh(blockCache.buf))
      ensures (r, blockCache.contents) == CachedWalk(old(blockCache.contents), blockCache.capacity, chain, calls, 0,
                                                     blockHash, extrinsic, Depth(limit, blockCache.capacity))
      ensures limit <= 0 ==> r == Success(None) && blockCache.contents == old(blockCache.contents)
    {
      var maxDepth := limit;
      if limit > blockCache.capacity {
        maxDepth := blockCache.capacity;
      }
      r := WalkBack(chain, calls, blockHash, extrinsic, if maxDepth < 0 then 0 else maxDepth);
    }

    method WalkBack(chain: Chain, calls: nat -> Call, blockHash: string, extrinsic: string, maxDepth: nat)
      returns (r: Result<Option<Block>, Unavailable>)
      requires blockCache.Valid()
      modifies blockCache, blockCache.buf
      ensures blockCache.Valid() && (blockCache.buf == old(blockCache.buf) || fresh(blockCache.buf))
      ensures (r, blockCache.contents) == CachedWalk(old(blockCache.contents), blockCache.capacity, chain, calls, 0,
                                                     blockHash, extrinsic, maxDepth)
    {
      ghost var whole := CachedWalk(blockCache.contents, blockCache.capacity, chain, calls, 0, blockHash, extrinsic,
          maxDepth);
      var i, step := 0, Next(blockHash);
      while i < maxDepth && step.Next?
        invariant i <= maxDepth
        invariant blockCache.Valid() && (blockCache.buf == old(blockCache.buf) || fresh(blockCache.buf))
        invariant whole ==
            WalkFrom(step, blockCache.contents, blockCache.capacity, chain, calls, i, extrinsic, maxDepth - i)
      {
        ghost var s, c := blockCache.contents, blockCache.capacity;
        var next := TakeStep(chain, At(calls, i), step.hash, extrinsic);
        WalkGoesOn(step.hash, s, next, blockCache.contents, c, chain, calls, i, extrinsic, maxDepth - i);
        step, i := next, i + 1;
      }
      r := match step
        case Lost => Failure(Unavailable)
        case Found(b) => Success(Some(b))
        case Next(_) => Success(None);
    }

    // The body of the loop.
    method TakeStep(chain: Chain, call: Call, hash: string, extrinsic: string) returns (step: Step)
      requires blockCache.Valid()
      modifies blockCache, blockCache.buf
      ensures blockCache.Valid() && (blockCache.buf == old(blockCache.buf) || fresh(blockCache.buf))
      ensures (step, blockCache.contents) ==
          Stepped(old(blockCache.contents), blockCache.capacity, chain, call, hash, extrinsic)
    {
      var got := ChainGetBlock(chain, call, hash);
      if got.Failure? {
        return Lost;
      }
      var found := Holds(got.value, extrinsic);
      return if found then Found(got.value) else Next(got.value.parentHash);
    }
  }

  method Holds(b: Block, extrinsic: string) returns (found: bool)
    ensures found <==> extrinsic in b.extrinsics
  {
    for k := 0 to |b.extrinsics|
      invariant forall j :: 0 <= j < k ==> b.extrinsics[j] != extrinsic
    {
      if b.extrinsics[k] == extrinsic {
        return true;
      }
    }
    return false;
  }

  /* ---------- the walk without a cache, and agreement with it ---------- */

  // The first block along parent links from `hash` that holds the extrinsic.
  function Walk(chain: Chain, hash: string, extrinsic: string, depth: nat): Option<Block>
    decreases depth
  {
    if depth == 0 then None
    else if extrinsic in Served(chain, hash).extrinsics then Some(Served(chain, hash))
    else Walk(chain, Served(chain, hash).parentHash, extrinsic, depth - 1)
  }

  // The walk meets no empty hash, which would send the client back to the head of the chain.
  predicate NoEmptyHash(chain: Chain, hash: string, extrinsic: string, depth: nat)
    decreases depth
  {
    depth == 0 || (hash != "" && (extrinsic in Served(chain, hash).extrinsics
                                  || NoEmptyHash(chain, Served(chain, hash).parentHash, extrinsic, depth - 1)))
  }

  // Adding any blocks the node served is truthful.
  lemma AddAllKeepsGood(s: seq<Block>, capacity: nat, chain: Chain, bs: seq<Block>)
    requires Good(s, capacity, chain) && Consistent(bs, chain)
    ensures Good(AddAll(s, capacity, bs), capacity, chain)
  {
    AddAllInv(s, capacity, bs);
  }

  lemma ByHashKeepsGood(s: seq<Block>, capacity: nat, chain: Chain, call: Call, hash: string)
    requires Good(s, capacity, chain) && Truthful(call, capacity, chain)
    ensures var (r, s') := ByHash(s, capacity, chain, call, hash);
      Good(s', capacity, chain) && (r.Success? ==> r.value == Served(chain, hash))
  {
    HashFound(s, hash);
    AddKeepsInv(Changed(call.meanwhile, s), capacity, Served(chain, hash));
  }

  lemma LookupKeepsGood(s: seq<Block>, capacity: nat, chain: Chain, call: Call, hash: string)
    requires Good(s, capacity, chain) && Truthful(call, capacity, chain)
    ensures var (r, s') := Lookup(s, capacity, chain, call, hash);
      && Good(s', capacity, chain)
      && (r.Success? ==> r.value == Served(chain, r.value.hash) && (hash != "" ==> r.value.hash == hash))
  {
    var s0 := Changed(call.others, s);
    ByHashKeepsGood(s0, capacity, chain, call, hash);
    if call.header.Some? { FoundIffCached(s0, Block(call.header.value, "", "", [])); }
    if call.hashAt.Some? { ByHashKeepsGood(s0, capacity, chain, call, call.hashAt.value); }
  }

  // Whatever the cache holds, and whatever other goroutines make of it before and during every
  // lookup, the walk finds what the walk without a cache finds, unless a request fails.
  lemma {:induction false} WalkRefinesUncached(s: seq<Block>, capacity: nat, chain: Chain, calls: nat -> Call, i: nat,
                                               hash: string, extrinsic: string, depth: nat)
    requires Good(s, capacity, chain) && NoEmptyHash(chain, hash, extrinsic, depth)
    requires forall j :: Truthful(At(calls, j), capacity, chain)
    ensures var (r, s') := CachedWalk(s, capacity, chain, calls, i, hash, extrinsic, depth);
      && Good(s', capacity, chain)
      && (r.Success? ==> r.value == Walk(chain, hash, extrinsic, depth))
      && (r.Failure? ==> exists j :: i <= j < i + depth && !(At(calls, j).up && At(calls, j).answered))
    decreases depth
  {
    if depth > 0 {
      LookupKeepsGood(s, capacity, chain, At(calls, i), hash);
      WalkUnfolds(s, capacity, chain, calls, i, hash, extrinsic, depth);
      var (r, s') := Lookup(s, capacity, chain, At(calls, i), hash);
      if r.Success? && extrinsic !in r.value.extrinsics {
        WalkRefinesUncached(s', capacity, chain, calls, i + 1, r.value.parentHash, extrinsic, depth - 1);
      }
    }
  }

  /* ---------- what one lookup promises ---------- */

  // The block is served from the cache, whatever the node does; or the node is asked, and its
  // answer is cached if the cache takes it.
  ghost predicate Fetches(there: seq<Block>, capacity: nat, chain: Chain, call: Call, hash: string,
                          r: Result<Block, Unavailable>, now: seq<Block>)
  {
    if exists b :: b in there && b.hash == hash then
      r.Success? && r.value in there && r.value.hash == hash && now == there
    else
      var mid, b := Changed(call.meanwhile, there), Served(chain, hash);
      if !call.answered then r == Failure(Unavailable) && now == mid
      else
        && r == Success(b)
        && multiset(now) == multiset(Kept(mid, capacity)) + if Takes(mid, capacity, b) then multiset{b} else multiset{}
  }

  // A lookup by hash, and by number for the head.
  ghost predicate Says(s: seq<Block>, capacity: nat, chain: Chain, call: Call, hash: string,
                       r: Result<Block, Unavailable>, now: seq<Block>)
  {
    var there := Changed(call.others, s);
    if !call.up then r == Failure(Unavailable) && now == there
    else if hash != "" || call.header.None? then Fetches(there, capacity, chain, call, hash, r, now)
    else if exists b :: b in there && b.number == call.header.value then
      r.Success? && r.value in there && r.value.number == call.header.value && now == there
    else if call.hashAt.None? then r == Failure(Unavailable) && now == there
    else Fetches(there, capacity, chain, call, call.hashAt.value, r, now)
  }

  lemma ByHashFetches(s: seq<Block>, capacity: nat, chain: Chain, call: Call, hash: string)
    requires Good(s, capacity, chain) && Truthful(call, capacity, chain)
    ensures var (r, now) := ByHash(s, capacity, chain, call, hash);
      Fetches(s, capacity, chain, call, hash, r, now)
  {
    HashFound(s, hash);
    AddInsertsOneOrNothing(Changed(call.meanwhile, s), capacity, Served(chain, hash));
  }

  lemma LookupSays(s: seq<Block>, capacity: nat, chain: Chain, call: Call, hash: string)
    requires Good(s, capacity, chain) && Truthful(call, capacity, chain)
    ensures var (r, now) := Lookup(s, capacity, chain, call, hash);
      Says(s, capacity, chain, call, hash, r, now)
  {
    var there := Changed(call.others, s);
    ByHashFetches(there, capacity, chain, call, hash);
    if call.hashAt.Some? { ByHashFetches(there, capacity, chain, call, call.hashAt.value); }
    if call.header.Some? { NumberFound(there, call.header.value); }
  }

  lemma NumberFound(s: seq<Block>, n: nat)
    requires Descending(s)
    ensures match FindNumber(s, n)
      case Some(b) => b in s && b.number == n
      case None => forall b :: b in s ==> b.number != n
  {
    forall b | b in s ensures FindNumber(s, b.number) == Some(b) { FoundIffCached(s, b); }
    FoundIffCached(s, Block(n, "", "", []));
  }

  // A block that was fetched and taken is found again without the node.
  lemma SecondLookupNeedsNoNode(s: seq<Block>, capacity: nat, chain: Chain, first: Call, second: Call, hash: string)
    requires Good(s, capacity, chain) && Truthful(first, capacity, chain) && hash != ""
    requires first.up && first.answered && second.up && second.others.None?
    requires first.meanwhile.None? && Takes(Changed(first.others, s), capacity, Served(chain, hash))
    ensures var (_, now) := Lookup(s, capacity, chain, first, hash);
      Lookup(now, capacity, chain, second, hash) == (Success(Served(chain, hash)), now)
  {
    var there := Changed(first.others, s);
    var now := Lookup(s, capacity, chain, first, hash).1;
    LookupKeepsGood(s, capacity, chain, first, hash);
    HashFound(there, hash);
    TakenIsCached(there, capacity, Served(chain, hash));
    HashFound(now, hash);
  }

  // What the node calls the head: header number `n`, whose hash is `h`.
  predicate HeadIs(chain: Chain, call: Call, n: nat, h: string) {
    && call.up && call.header == Some(n) && call.hashAt == Some(h) && call.answered
    && h != "" && Served(chain, h).number == n
  }

  // For the head the cache is trusted by number.  It agrees with the node exactly if the block
  // cached under the number of the head, should there be one, is the node's: after a
  // reorganisation of the chain it need not be.
  lemma CachedHeadIffNotForked(s: seq<Block>, capacity: nat, chain: Chain, call: Call, n: nat, h: string)
    requires Good(s, capacity, chain) && Truthful(call, capacity, chain) && HeadIs(chain, call, n, h)
    ensures Lookup(s, capacity, chain, call, "").0.Success?
    ensures Lookup(s, capacity, chain, call, "").0.value.number == n
    ensures Lookup(s, capacity, chain, call, "").0.value == Served(chain, h)
            <==> (forall b :: b in Changed(call.others, s) && b.number == n ==> b.hash == h)
  {
    var s0 := Changed(call.others, s);
    HeadFrom(s0, capacity, chain, call, n, h);
    FoundIffCached(s0, Served(chain, h));
    if b :| b in s0 && b.number == n { FoundIffCached(s0, b); }
  }

  lemma HeadFrom(s: seq<Block>, capacity: nat, chain: Chain, call: Call, n: nat, h: string)
    requires Good(s, capacity, chain) && Truthful(call, capacity, chain) && HeadIs(chain, call, n, h)
    ensures LookupIn(s, capacity, chain, call, "").0 ==
      match FindNumber(s, n)
      case Some(b) => Success(b)
      case None => Success(Served(chain, h))
  {
    ByHashKeepsGood(s, capacity, chain, call, h);
  }

  lemma StaleHead() returns (s: seq<Block>, chain: Chain, call: Call)
    ensures Good(s, 1, chain) && Truthful(call, 1, chain) && HeadIs(chain, call, 7, "b")
    ensures Lookup(s, 1, chain, call, "").0.Success? && Lookup(s, 1, chain, call, "").0.value.hash == "a"
  {
    var a, b := Block(7, "p", "a", []), Block(7, "p", "b", []);
    s, chain, call := [a], map["a" := a, "b" := b], Call(true, Some(7), Some("b"), true, None, None);
  }

  /* ---------- which blocks the walk examines ---------- */

  function Ancestor(chain: Chain, hash: string, i: nat): Block
    decreases i
  {
    if i == 0 then Served(chain, hash) else Ancestor(chain, Served(chain, hash).parentHash, i - 1)
  }

  // Numbers drop by one along the first `depth` blocks.
  ghost predicate Linked(chain: Chain, hash: string, depth: nat) {
    forall i :: 0 <= i < depth ==> Ancestor(chain, hash, i).number == Served(chain, hash).number - i
  }

  lemma {:induction false} WalkFindsFirst(chain: Chain, hash: string, extrinsic: string, depth: nat) returns (k: nat)
    ensures k <= depth && forall j :: 0 <= j < k ==> extrinsic !in Ancestor(chain, hash, j).extrinsics
    ensures k < depth ==> extrinsic in Ancestor(chain, hash, k).extrinsics
    ensures Walk(chain, hash, extrinsic, depth) == if k < depth then Some(Ancestor(chain, hash, k)) else None
    decreases depth
  {
    if depth == 0 || extrinsic in Served(chain, hash).extrinsics {
      k := 0;
    } else {
      var parent := Served(chain, hash).parentHash;
      var k' := WalkFindsFirst(chain, parent, extrinsic, depth - 1);
      k := k' + 1;
      forall j | 0 <= j < k ensures extrinsic !in Ancestor(chain, hash, j).extrinsics {
        if j > 0 { assert Ancestor(chain, hash, j) == Ancestor(chain, parent, j - 1); }
      }
    }
  }

  // The block of the given number on the chain that ends in `head`.
  function AtNumber(chain: Chain, head: Block, n: nat): Block
    requires n <= head.number
  {
    Ancestor(chain, head.hash, head.number - n)
  }

  // Exact coverage: over a linked chain the walk examines the `depth` blocks numbered
  // head-depth+1..head, no more and no less, and returns the highest that holds the extrinsic.
  lemma WalkCoversInterval(chain: Chain, head: Block, extrinsic: string, depth: nat)
    requires head == Served(chain, head.hash) && Linked(chain, head.hash, depth)
    ensures match Walk(chain, head.hash, extrinsic, depth)
      case None =>
        forall n: nat :: head.number - depth < n <= head.number ==> extrinsic !in AtNumber(chain, head, n).extrinsics
      case Some(b) =>
        && head.number - depth < b.number <= head.number
        && b == AtNumber(chain, head, b.number) && extrinsic in b.extrinsics
        && forall n: nat :: b.number < n <= head.number ==> extrinsic !in AtNumber(chain, head, n).extrinsics
  {
    var k := WalkFindsFirst(chain, head.hash, extrinsic, depth);
    forall n: nat | head.number - k < n <= head.number ensures extrinsic !in AtNumber(chain, head, n).extrinsics {
      assert AtNumber(chain, head, n) == Ancestor(chain, head.hash, head.number - n);
    }
    if k < depth {
      assert Ancestor(chain, head.hash, k).number == head.number - k;
    }
  }
}
