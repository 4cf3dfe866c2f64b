/** What the consumer's loop guarantees, over every script of rounds. */
module ConsumerRuns {
  import opened Wrappers
  import opened BlockCaching
  import opened ChainClient
  import opened Consumers

  /* ---------- acknowledgement ---------- */

  // The message is acknowledged exactly once and last if the loop has ended, otherwise not.
  lemma {:induction false} AckedOnceAtTheEnd(s: seq<Block>, capacity: nat, chain: Chain, m: Message, resubmit: bool,
                                             rounds: seq<Round>, i: nat, done: seq<Effect>)
    requires i <= |rounds| && Ack !in done
    ensures var (v, effects, _) := Process(s, capacity, chain, m, resubmit, rounds, i, done);
      if v.Retry? then Ack !in effects
      else effects != [] && effects[|effects| - 1] == Ack && Ack !in effects[..|effects| - 1]
    decreases |rounds| - i
  {
    if i < |rounds| {
      var (v, s') := Judge(s, capacity, chain, m, resubmit, rounds[i]);
      if v.Retry? {
        AckedOnceAtTheEnd(s', capacity, chain, m, resubmit, rounds, i + 1, done + Effects(v));
      } else {
        var effects := done + Effects(v);
        assert forall k :: 0 <= k < |effects| - 1 ==> effects[k] in done || effects[k] == Resubmit;
      }
    }
  }

  // Whatever other goroutines add to the cache during the round, they got it from the node.
  ghost predicate Honest(round: Round, capacity: nat, chain: Chain) {
    Truthful(round.head, capacity, chain) && forall j :: Truthful(At(round.walk, j), capacity, chain)
  }

  // The loop ends in the first round whose verdict is not to retry, and that verdict was passed
  // with a cache consistent with the chain.  If the message is given up as refused, it was
  // resubmitted in that round and rejected.
  lemma {:induction false} EndsWithVerdict(s: seq<Block>, capacity: nat, chain: Chain, m: Message, resubmit: bool,
                                           rounds: seq<Round>, i: nat, done: seq<Effect>)
    returns (k: nat, at: seq<Block>)
    requires i <= |rounds| && Good(s, capacity, chain)
    requires forall j :: 0 <= j < |rounds| ==> Honest(rounds[j], capacity, chain)
    requires !Process(s, capacity, chain, m, resubmit, rounds, i, done).0.Retry?
    ensures i <= k < |rounds| && Good(at, capacity, chain)
    ensures Judge(at, capacity, chain, m, resubmit, rounds[k]).0 ==
        Process(s, capacity, chain, m, resubmit, rounds, i, done).0
    ensures Process(s, capacity, chain, m, resubmit, rounds, i, done).0.Refused? ==>
        resubmit && rounds[k].resubmit.Rejected?
    decreases |rounds| - i
  {
    var (v, s') := Judge(s, capacity, chain, m, resubmit, rounds[i]);
    if v.Retry? {
      JudgeKeepsGood(s, capacity, chain, m, resubmit, rounds[i]);
      k, at := EndsWithVerdict(s', capacity, chain, m, resubmit, rounds, i + 1, done + Effects(v));
    } else {
      k, at := i, s;
    }
  }

  lemma JudgeKeepsGood(s: seq<Block>, capacity: nat, chain: Chain, m: Message, resubmit: bool, round: Round)
    requires Good(s, capacity, chain) && Honest(round, capacity, chain)
    ensures Good(Judge(s, capacity, chain, m, resubmit, round).1, capacity, chain)
  {
    LookupKeepsGood(s, capacity, chain, round.head, "");
    var (head, s1) := Lookup(s, capacity, chain, round.head, "");
    if head.Success? {
      WalkKeepsGood(s1, capacity, chain, round.walk, 0, head.value.hash, m.payload,
                    Depth(AsInt64(SubU64(head.value.number, m.firstSeen)), capacity));
    }
  }

  lemma {:induction false} WalkKeepsGood(s: seq<Block>, capacity: nat, chain: Chain, calls: nat -> Call, i: nat,
                                         hash: string, extrinsic: string, depth: nat)
    requires Good(s, capacity, chain) && forall j :: Truthful(At(calls, j), capacity, chain)
    ensures Good(CachedWalk(s, capacity, chain, calls, i, hash, extrinsic, depth).1, capacity, chain)
    decreases depth
  {
    if depth > 0 {
      LookupKeepsGood(s, capacity, chain, At(calls, i), hash);
      WalkUnfolds(s, capacity, chain, calls, i, hash, extrinsic, depth);
      var (r, s') := Lookup(s, capacity, chain, At(calls, i), hash);
      if r.Success? && extrinsic !in r.value.extrinsics {
        WalkKeepsGood(s', capacity, chain, calls, i + 1, r.value.parentHash, extrinsic, depth - 1);
      }
    }
  }

  lemma {:induction false} WalkSucceeds(s: seq<Block>, capacity: nat, chain: Chain, calls: nat -> Call, i: nat,
                                        hash: string, extrinsic: string, depth: nat)
    requires forall j :: Responsive(At(calls, j))
    ensures CachedWalk(s, capacity, chain, calls, i, hash, extrinsic, depth).0.Success?
    decreases depth
  {
    if depth > 0 {
      WalkUnfolds(s, capacity, chain, calls, i, hash, extrinsic, depth);
      var (r, s') := Lookup(s, capacity, chain, At(calls, i), hash);
      assert Responsive(At(calls, i));
      if extrinsic !in r.value.extrinsics {
        WalkSucceeds(s', capacity, chain, calls, i + 1, r.value.parentHash, extrinsic, depth - 1);
      }
    }
  }

  predicate Responsive(call: Call) { call.up && call.header.Some? && call.hashAt.Some? && call.answered }

  /* ---------- expiry ---------- */

  // The head of the chain, as far as this round sees it.
  predicate Sees(s: seq<Block>, capacity: nat, chain: Chain, round: Round, head: Block) {
    Lookup(s, capacity, chain, round.head, "").0 == Success(head)
  }

  // A message expires past its lifetime, but also when the head lies before the block it was
  // first seen in, because the difference is taken in unsigned arithmetic; only a gap of nearly
  // 2^64 blocks would escape that.
  lemma ExpiredIff(s: seq<Block>, capacity: nat, chain: Chain, m: Message, resubmit: bool, round: Round, head: Block)
    requires m.Fits() && head.number < U64 && Sees(s, capacity, chain, round, head)
    ensures var lifetime := if m.lifetime == 0 then 1024 else m.lifetime;
      Judge(s, capacity, chain, m, resubmit, round).0 == Expired <==>
        || head.number > m.firstSeen + lifetime
        || (head.number < m.firstSeen && m.firstSeen - head.number + lifetime < 0x1_0000_0000_0000_0000)
  {
  }

  // In particular a node that lags behind the one the message was first seen on ends the
  // tracking of a message that has not expired.
  lemma LaggingNodeExpires(s: seq<Block>, capacity: nat, chain: Chain, m: Message, resubmit: bool, round: Round,
      head: Block)
    requires m.firstSeen < U64 / 2 && m.lifetime < U64 / 2 && Sees(s, capacity, chain, round, head)
    requires head.number < m.firstSeen
    ensures Judge(s, capacity, chain, m, resubmit, round).0 == Expired
  {
    ExpiredIff(s, capacity, chain, m, resubmit, round, head);
  }

  /* ---------- verdicts ---------- */

  // The head was seen within the lifetime of the message, and the search from there came out as
  // `found`.
  ghost predicate Searched(s: seq<Block>, capacity: nat, chain: Chain, m: Message, round: Round,
                           found: Result<Option<Block>, Unavailable>)
  {
    var (head, s1) := Lookup(s, capacity, chain, round.head, "");
    && head.Success?
    && SubU64(head.value.number, m.firstSeen) <= m.Lifetime()
    && CachedWalk(s1, capacity, chain, round.walk, 0, head.value.hash, m.payload,
                  Depth(AsInt64(SubU64(head.value.number, m.firstSeen)), capacity)).0 == found
  }

  // A round includes the message exactly if the search found it.  If the search found nothing,
  // the message is refused exactly if it was resubmitted and rejected; accepted or not, it is
  // otherwise tried again.
  lemma VerdictIff(s: seq<Block>, capacity: nat, chain: Chain, m: Message, resubmit: bool, round: Round, b: Block)
    ensures var v := Judge(s, capacity, chain, m, resubmit, round).0;
      && (v == Included(b) <==> Searched(s, capacity, chain, m, round, Success(Some(b))))
      && (v == Refused <==>
           Searched(s, capacity, chain, m, round, Success(None)) && resubmit && round.resubmit.Rejected?)
      && (v == Retry(true) <==>
           Searched(s, capacity, chain, m, round, Success(None)) && resubmit && round.resubmit.Accepted?)
      && (v == Retry(false) <==>
           || Lookup(s, capacity, chain, round.head, "").0.Failure?
           || Searched(s, capacity, chain, m, round, Failure(Unavailable))
           || (Searched(s, capacity, chain, m, round, Success(None)) && (!resubmit || round.resubmit.Unreachable?)))
  {
    var (head, s1) := Lookup(s, capacity, chain, round.head, "");
    if head.Success? {
      var found := CachedWalk(s1, capacity, chain, round.walk, 0, head.value.hash, m.payload,
                              Depth(AsInt64(SubU64(head.value.number, m.firstSeen)), capacity)).0;
      match found
      case Failure(Unavailable) =>
      case Success(None) =>
      case Success(Some(_)) =>
    }
  }

  /* ---------- search ---------- */

  lemma AgeIs(head: nat, firstSeen: nat)
    requires firstSeen <= head < U64 && head - firstSeen < U64 / 2
    ensures SubU64(head, firstSeen) == head - firstSeen == AsInt64(head - firstSeen)
  {
  }

  lemma SearchSucceeds(s: seq<Block>, capacity: nat, chain: Chain, calls: nat -> Call, hash: string, extrinsic: string,
                       depth: nat)
    requires Good(s, capacity, chain) && NoEmptyHash(chain, hash, extrinsic, depth)
    requires forall j :: Truthful(At(calls, j), capacity, chain)
    requires forall j :: Responsive(At(calls, j))
    ensures CachedWalk(s, capacity, chain, calls, 0, hash, extrinsic, depth).0 ==
        Success(Walk(chain, hash, extrinsic, depth))
  {
    WalkSucceeds(s, capacity, chain, calls, 0, hash, extrinsic, depth);
    WalkRefinesUncached(s, capacity, chain, calls, 0, hash, extrinsic, depth);
  }

  // With an up-to-date, responsive node a round in the lifetime of the message does what the
  // walk without a cache says.
  lemma JudgeSearches(s: seq<Block>, capacity: nat, chain: Chain, m: Message, resubmit: bool, round: Round, head: Block)
    requires Good(s, capacity, chain) && Honest(round, capacity, chain)
    requires m.Fits() && head.number < U64 && Sees(s, capacity, chain, round, head)
    requires m.firstSeen <= head.number <= m.firstSeen + m.Lifetime() && head.number - m.firstSeen < U64 / 2
    requires forall j :: Responsive(At(round.walk, j))
    requires NoEmptyHash(chain, head.hash, m.payload, Depth(head.number - m.firstSeen, capacity))
    ensures var v := Judge(s, capacity, chain, m, resubmit, round).0;
      match Walk(chain, head.hash, m.payload, Depth(head.number - m.firstSeen, capacity))
      case Some(b) => v == Included(b)
      case None =>
        v == if resubmit && round.resubmit.Rejected? then Refused else Retry(resubmit && round.resubmit.Accepted?)
    ensures head == Served(chain, head.hash)
  {
    LookupKeepsGood(s, capacity, chain, round.head, "");
    var s1, depth := Lookup(s, capacity, chain, round.head, "").1, Depth(head.number - m.firstSeen, capacity);
    SearchSucceeds(s1, capacity, chain, round.walk, head.hash, m.payload, depth);
    JudgeConcludes(s, s1, capacity, chain, m, resubmit, round, head, Success(Walk(chain, head.hash, m.payload, depth)));
  }

  lemma JudgeConcludes(s: seq<Block>, s1: seq<Block>, capacity: nat, chain: Chain, m: Message, resubmit: bool,
                       round: Round, head: Block, found: Result<Option<Block>, Unavailable>)
    requires Lookup(s, capacity, chain, round.head, "") == (Success(head), s1)
    requires m.firstSeen <= head.number <= m.firstSeen + m.Lifetime()
    requires head.number < U64 && head.number - m.firstSeen < U64 / 2
    requires CachedWalk(s1, capacity, chain, round.walk, 0, head.hash, m.payload,
                        Depth(head.number - m.firstSeen, capacity)).0 == found
    ensures Judge(s, capacity, chain, m, resubmit, round).0 == Conclude(found, resubmit, round.resubmit)
  {
    AgeIs(head.number, m.firstSeen);
  }

  // With an up-to-date, responsive node the extrinsic is found exactly if it is in one of the
  // blocks after firstSeen (after head - capacity, if that is later); the block reported is the
  // highest of them, so the reported gap lies between 1 and the lifetime.
  lemma FoundIffOnChain(s: seq<Block>, capacity: nat, chain: Chain, m: Message, resubmit: bool, round: Round,
      head: Block)
    requires Good(s, capacity, chain) && Honest(round, capacity, chain)
    requires m.Fits() && head.number < U64 && Sees(s, capacity, chain, round, head)
    requires m.firstSeen <= head.number <= m.firstSeen + m.Lifetime() && head.number - m.firstSeen < U64 / 2
    requires forall j :: Responsive(At(round.walk, j))
    requires var depth := Depth(head.number - m.firstSeen, capacity);
      NoEmptyHash(chain, head.hash, m.payload, depth) && Linked(chain, head.hash, depth)
    ensures var v := Judge(s, capacity, chain, m, resubmit, round).0;
      var low := if head.number - m.firstSeen <= capacity then m.firstSeen else head.number - capacity;
      && (v.Included? <==>
           exists n: nat :: low < n <= head.number && m.payload in AtNumber(chain, head, n).extrinsics)
      && (v.Included? ==>
           && 1 <= v.block.number - m.firstSeen <= m.Lifetime() && v.block.number <= head.number
           && v.block == AtNumber(chain, head, v.block.number) && m.payload in v.block.extrinsics
           && forall n: nat :: v.block.number < n <= head.number ==> m.payload !in AtNumber(chain, head, n).extrinsics)
  {
    JudgeSearches(s, capacity, chain, m, resubmit, round, head);
    WalkCoversInterval(chain, head, m.payload, Depth(head.number - m.firstSeen, capacity));
  }

  // Beyond the capacity of the cache blocks go unexamined.
  lemma MissedBeyondCapacity() returns (chain: Chain, m: Message, round: Round)
    ensures m.firstSeen == 5 && HeadIs(chain, round.head, 7, "b") && Linked(chain, "b", 2)
    ensures "a" in chain && chain["a"] == Ancestor(chain, "b", 1) && chain["a"].number == 6
    ensures chain["a"].extrinsics == [m.payload]
    ensures Judge([], 1, chain, m, false, round).0 == Retry(false)
    ensures Judge([], 2, chain, m, false, round).0 == Included(chain["a"])
  {
    var a, b := Block(6, "p", "a", ["x"]), Block(7, "a", "b", []);
    chain, m := map["a" := a, "b" := b], Message("x", 5, 100);
    var call := Call(true, Some(7), Some("b"), true, None, None);
    round := Round(call, _ => call, Unreachable);
    assert Lookup([], 1, chain, call, "") == (Success(b), [b]);
    assert Lookup([], 2, chain, call, "") == (Success(b), [b]);
    assert Ancestor(chain, "b", 1) == a;
    assert Lookup([b], 1, chain, call, "b") == (Success(b), [b]);
    assert Lookup([b], 2, chain, call, "b") == (Success(b), [b]);
    assert "a"[0] != "b"[0];
    assert FindHash([b], "a") == None;
    assert Lookup([b], 2, chain, call, "a").0 == Success(a);
    assert CachedWalk([b], 1, chain, round.walk, 0, "b", "x", 1).0 == Success(None);
    assert CachedWalk([b], 2, chain, round.walk, 0, "b", "x", 2).0 == Success(Some(a));
  }

  /* ---------- termination ---------- */

  // From round `i` on the node answers everything and its head is at `low` or above and rises
  // with every round.
  ghost predicate Advancing(capacity: nat, chain: Chain, rounds: seq<Round>, i: nat, low: nat)
    decreases |rounds| - i
  {
    i < |rounds| ==>
      var r := rounds[i];
      && Responsive(r.head) && HeadIs(chain, r.head, r.head.header.value, r.head.hashAt.value)
      && low <= r.head.header.value < U64
      && Honest(r, capacity, chain) && (forall j :: Responsive(At(r.walk, j))) && !r.resubmit.Unreachable?
      && Advancing(capacity, chain, rounds, i + 1, r.head.header.value + 1)
  }

  function Resubmissions(effects: seq<Effect>): nat { multiset(effects)[Resubmit] }

  // firstSeen + lifetime - head decreases with every round, so the loop ends within
  // lifetime + 1 rounds and resubmits at most that often.
  lemma {:induction false} TerminatesIfHeadAdvances(s: seq<Block>, capacity: nat, chain: Chain, m: Message,
                                                    resubmit: bool, rounds: seq<Round>, i: nat, done: seq<Effect>,
                                                    low: nat)
    requires i <= |rounds| && Good(s, capacity, chain) && m.Fits()
    requires Advancing(capacity, chain, rounds, i, low) && m.firstSeen <= low
    ensures var (v, effects, _) := Process(s, capacity, chain, m, resubmit, rounds, i, done);
      var budget := if low <= m.firstSeen + m.Lifetime() then m.firstSeen + m.Lifetime() + 1 - low else 0;
      && (|rounds| - i > budget ==> !v.Retry?)
      && Resubmissions(effects) <= Resubmissions(done) + budget
    decreases |rounds| - i
  {
    if i < |rounds| {
      var r := rounds[i];
      var n := r.head.header.value;
      CachedHeadIffNotForked(s, capacity, chain, r.head, n, r.head.hashAt.value);
      JudgeKeepsGood(s, capacity, chain, m, resubmit, r);
      var (v, s') := Judge(s, capacity, chain, m, resubmit, r);
      ExpiredIff(s, capacity, chain, m, resubmit, r, Lookup(s, capacity, chain, r.head, "").0.value);
      assert Resubmissions(done + Effects(v)) == Resubmissions(done) + Resubmissions(Effects(v));
      if v.Retry? {
        TerminatesIfHeadAdvances(s', capacity, chain, m, resubmit, rounds, i + 1, done + Effects(v), n + 1);
      }
    }
  }
}
