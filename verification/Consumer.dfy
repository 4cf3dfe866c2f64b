/** The consumer's retry loop: follow one extrinsic until it is on chain, has expired or is
    rejected.  The loop has no bound of its own, so it is run over scripts of rounds, each
    saying how the node behaves; every statement is for scripts of any length. */
module Consumers {
  import opened Wrappers
  import opened BlockCaching
  import opened ChainClient

  const U64 := 0x1_0000_0000_0000_0000
  const IMMORTAL_LIFETIME := 1024

  // Subtraction and conversion to int as 64-bit Go does them.
  function SubU64(a: nat, b: nat): nat { (a - b) % U64 }

  function AsInt64(x: nat): int { if x < U64 / 2 then x else x - U64 }

  datatype Message = Message(payload: string, firstSeen: nat, lifetime: nat) {
    function Lifetime(): nat { if lifetime == 0 then IMMORTAL_LIFETIME else lifetime }

    predicate Fits() { firstSeen < U64 && lifetime < U64 }
  }

  datatype Resubmission = Unreachable | Accepted | Rejected

  datatype Round = Round(head: Call, walk: nat -> Call, resubmit: Resubmission)

  datatype Verdict = Expired | Included(block: Block) | Refused | Retry(resubmitted: bool)

  datatype Effect = Resubmit | Ack

  // What a round with this verdict has to do, in order.
  function Effects(v: Verdict): seq<Effect> {
    match v
    case Retry(resubmitted) => if resubmitted then [Resubmit] else []
    case Refused => [Resubmit, Ack]
    case _ => [Ack]
  }

  // One round, started with a cache holding `s`.
  function Judge(s: seq<Block>, capacity: nat, chain: Chain, m: Message, resubmit: bool, round: Round)
    : (Verdict, seq<Block>)
  {
    var (head, s1) := Lookup(s, capacity, chain, round.head, "");
    if head.Failure? then (Retry(false), s1)
    else
      var age := SubU64(head.value.number, m.firstSeen);
      if age > m.Lifetime() then (Expired, s1)
      else
        var (found, s2) := CachedWalk(s1, capacity, chain, round.walk, 0, head.value.hash, m.payload,
            Depth(AsInt64(age), capacity));
        (Conclude(found, resubmit, round.resubmit), s2)
  }

  function Conclude(found: Result<Option<Block>, Unavailable>, resubmit: bool, answer: Resubmission): Verdict {
    match found
    case Failure(_) => Retry(false)
    case Success(Some(b)) => Included(b)
    case Success(None) =>
      if !resubmit || answer.Unreachable? then Retry(false) else if answer.Accepted? then Retry(true) else Refused
  }

  // The loop from round `i` on, `done` being what it has done before: how it ended (Retry if it
  // is still running), what it has done, and what is cached.
  function Process(s: seq<Block>, capacity: nat, chain: Chain, m: Message, resubmit: bool, rounds: seq<Round>,
                   i: nat, done: seq<Effect>)
    : (Verdict, seq<Effect>, seq<Block>)
    requires i <= |rounds|
    decreases |rounds| - i
  {
    if i == |rounds| then (Retry(false), done, s)
    else
      var (v, s') := Judge(s, capacity, chain, m, resubmit, rounds[i]);
      if v.Retry? then Process(s', capacity, chain, m, resubmit, rounds, i + 1, done + Effects(v))
      else (v, done + Effects(v), s')
  }

  class Consumer {
    var inProgress: int
    const tryResubmit: bool

    constructor (tryResubmit: bool)
      ensures inProgress == 0 && this.tryResubmit == tryResubmit
    {
      this.tryResubmit := tryResubmit;
      inProgress := 0;
    }

    method ProcessMessage(client: RpcClient, chain: Chain, message: Message, rounds: seq<Round>)
      returns (outcome: Verdict, effects: seq<Effect>)
      requires client.blockCache.Valid()
      modifies this, client.blockCache, client.blockCache.buf
      ensures client.blockCache.Valid()
      ensures (outcome, effects, client.blockCache.contents) ==
              Process(old(client.blockCache.contents), client.blockCache.capacity, chain, message, tryResubmit,
                  rounds, 0, [])
      ensures inProgress == old(inProgress) + if outcome.Retry? then 1 else 0
    {
      inProgress := inProgress + 1;
      var lifetime := if message.lifetime == 0 then IMMORTAL_LIFETIME else message.lifetime;
      outcome, effects := RetryLoop(client, chain, message, lifetime, rounds);
      if !outcome.Retry? {
        inProgress := inProgress - 1;
      }
    }

    method RetryLoop(client: RpcClient, chain: Chain, message: Message, lifetime: nat, rounds: seq<Round>)
      returns (outcome: Verdict, effects: seq<Effect>)
      requires client.blockCache.Valid() && lifetime == message.Lifetime()
      modifies client.blockCache, client.blockCache.buf
      ensures client.blockCache.Valid()
      ensures (outcome, effects, client.blockCache.contents) ==
              Process(old(client.blockCache.contents), client.blockCache.capacity, chain, message, tryResubmit,
                  rounds, 0, [])
    {
      effects := [];
      ghost var whole := Process(client.blockCache.contents, client.blockCache.capacity, chain, message, tryResubmit,
          rounds, 0, []);
      for i := 0 to |rounds|
        invariant client.blockCache.Valid()
        invariant client.blockCache.buf == old(client.blockCache.buf) || fresh(client.blockCache.buf)
        invariant whole == Process(client.blockCache.contents, client.blockCache.capacity, chain, message,
            tryResubmit, rounds, i, effects)
      {
        var did;
        outcome, did := JudgeRound(client, chain, message, lifetime, rounds[i]);
        effects := effects + did;
        if !outcome.Retry? {
          return;
        }
      }
      outcome := Retry(false);
    }

    // The body of the loop.  `did` is what it has done, recorded where it is done.
    method JudgeRound(client: RpcClient, chain: Chain, message: Message, lifetime: nat, round: Round)
      returns (verdict: Verdict, did: seq<Effect>)
      requires client.blockCache.Valid() && lifetime == message.Lifetime()
      modifies client.blockCache, client.blockCache.buf
      ensures client.blockCache.Valid()
      ensures client.blockCache.buf == old(client.blockCache.buf) || fresh(client.blockCache.buf)
      ensures (verdict, client.blockCache.contents) ==
              Judge(old(client.blockCache.contents), client.blockCache.capacity, chain, message, tryResubmit, round)
      ensures did == Effects(verdict)
      ensures Ack in did <==> !verdict.Retry?
      ensures Resubmit in did <==> verdict == Refused || verdict == Retry(true)
      ensures verdict == Refused ==> tryResubmit && round.resubmit.Rejected?
      ensures verdict == Retry(true) ==> tryResubmit && round.resubmit.Accepted?
    {
      did := [];
      var currentBlock := client.ChainGetBlock(chain, round.head, "");
      if currentBlock.Failure? {
        return Retry(false), did;
      }
      var age := SubU64(currentBlock.value.number, message.firstSeen);
      if age > lifetime {
        did := did + [Ack];
        return Expired, did;
      }
      var b := client.FindExtrinsicsBlock(chain, round.walk, currentBlock.value.hash, message.payload, AsInt64(age));
      if b.Failure? {
        return Retry(false), did;
      }
      if b.value.Some? {
        did := did + [Ack];
        return Included(b.value.value), did;
      }
      if tryResubmit {
        if round.resubmit.Unreachable? {
          return Retry(false), did;
        }
        did := did + [Resubmit];
        if round.resubmit.Rejected? {
          did := did + [Ack];
          return Refused, did;
        }
        return Retry(true), did;
      }
      return Retry(false), did;
    }
  }
}
