/** The code of `ProxiedConnection`: what a client goroutine and the poll goroutine do between
    two points at which others may act, and what whole calls achieve however they do.

    A method says which steps of `Failover` it takes; where the source gives up the processor it
    takes a list of steps others try there.  `trace` collects all steps, so whatever holds for
    every run of `Failover` holds here. */
module ProxiedConnections {
  import opened Wrappers
  import opened RpcFrames
  import opened Failover
  import opened FailoverSafety
  import opened FailoverRuns

  datatype Channel = Channel(slot: Option<Frame>, closed: bool)

  datatype Who = Goroutine(t: Ticket) | PollLoop

  predicate Mine(me: Who, ev: Event) {
    match me
    case Goroutine(t) => ev.Client? && ev.t == t
    case PollLoop => ev.Poller?
  }

  // The others try `evs`; what is not possible when its turn comes does not happen.
  function Others(s: State, me: Who, evs: seq<Event>): State
    decreases |evs|
  {
    if evs == [] then s
    else Others(if Enabled(s, evs[0]) && !Mine(me, evs[0]) then Apply(s, evs[0]) else s, me, evs[1..])
  }

  function Channels(s: State): seq<Channel> {
    seq(|s.calls|, c requires 0 <= c < |s.calls| => Channel(s.calls[c].ready, s.calls[c].closed))
  }

  datatype WriteResult = Sent | DuplicateId | NotWritten
  datatype ReadError = NotRegistered | GaveUp
  datatype Handling = Invalid | Deposited(to: Ticket) | Blocked(on: Ticket) | Panicked | Forwarded | ClientLost

  // One turn of the poll loop: what the read brings, and how the rest of the world behaves.
  datatype Turn = Turn(read: Option<Incoming>, idle: bool, writable: bool, dialled: bool, accepted: nat,
                       before: seq<Event>, meanwhile: seq<Event>, replay: nat -> seq<Event>)
  datatype PollEnd = StillReading | Cancelled | Returned | Waiting | Panic

  // The frame a turn reads.
  function FrameOf(turn: Turn): seq<Frame> {
    if turn.read.Some? && turn.read.value.Parsed? then [turn.read.value.frame] else []
  }

  function FramesOf(turns: seq<Turn>): seq<Frame> {
    if turns == [] then [] else FramesOf(turns[..|turns| - 1]) + FrameOf(turns[|turns| - 1])
  }

  // The frames the poll goroutine has read so far.
  function Read(s: State): seq<Frame> { seq(|s.handled|, k requires 0 <= k < |s.handled| => s.handled[k].frame) }

  // Whether a turn may have ended the loop: what was read is no frame, or the client could not be
  // written to; or the read failed by idleness, or no other upstream was found, or that one broke
  // before it had accepted as many requests as can be in flight.
  predicate MayEnd(turn: Turn) {
    match turn.read
    case Some(msg) => msg.Malformed? || !turn.writable
    case None => turn.idle || !turn.dialled || turn.accepted < MAX_BATCH
  }

  class ProxiedConnection {
    const deny: seq<string>
    var requests: map<int, Ticket>   // in-flight id -> payload, whose Ready channel has the same number
    var channels: seq<Channel>       // every Ready channel made so far
    var upstreamConn: Epoch
    var unrecoverable: bool
    var toClient: seq<Frame>         // what was written on clientConn
    var system: State                // the system around these fields
    ghost var trace: seq<Event>

    ghost predicate Valid()
      reads this
    {
      && Run(Initial(deny), trace, system) && requests == system.requests && channels == Channels(system)
      && upstreamConn == system.epoch && unrecoverable == system.unrecoverable && toClient == system.toClient
    }

    constructor (deny: seq<string>)
      ensures Valid() && system == Initial(deny) && this.deny == deny
    {
      this.deny := deny;
      requests, channels, upstreamConn, unrecoverable, toClient := map[], [], 0, false, [];
      system, trace := Initial(deny), [];
    }

    method Step(ev: Event)
      requires Run(Initial(deny), trace, system) && Enabled(system, ev)
      modifies this`system, this`trace
      ensures Run(Initial(deny), trace, system) && system == Apply(old(system), ev)
    {
      RunSnoc(Initial(deny), trace, system, ev);
      trace := trace + [ev];
      system := Apply(system, ev);
    }

    method Yield(me: Who, evs: seq<Event>)
      requires Valid()
      modifies this
      ensures Valid() && system == Others(old(system), me, evs)
    {
      trace := OthersRun(Initial(deny), trace, system, me, evs);
      system := Others(system, me, evs);
      requests, channels, upstreamConn := system.requests, Channels(system), system.epoch;
      unrecoverable, toClient := system.unrecoverable, system.toClient;
    }

    /* ---------- a client goroutine ---------- */

    // The part of UpstreamWrite under `pause`, and the way out for a duplicate id.
    method RegisterRequest(t: Ticket, id: int) returns (duplicate: bool)
      requires Valid() && t < |system.calls| && id == IdOf(system, t)
      requires system.calls[t].phase.Fresh? && !Local(system, system.calls[t]) && !system.poll.Replaying?
      modifies this
      ensures Valid() && (duplicate <==> id in old(requests))
      ensures requests == if duplicate then old(requests) - {id} else old(requests)[id := t]
      ensures duplicate ==> old(requests)[id] < |channels| && channels[old(requests)[id]].closed
      ensures Ready(old(system), t, if duplicate then Duplicate else Store)
      ensures system == Advance(old(system), t, if duplicate then Duplicate else Store)
    {
      duplicate := id in requests;
      if duplicate {
        ReachableInv(deny, trace, system);
        assert Registered(system, id, requests[id]);
        CloseDuplicate(t, id);
      } else {
        Step(Client(t, Store));
        requests := requests[id := t];
        assert channels == Channels(system);
      }
    }

    // Deletes the other request's entry and closes its channel.
    method CloseDuplicate(t: Ticket, id: int)
      requires Valid() && Ready(system, t, Duplicate) && id == IdOf(system, t)
      modifies this
      ensures Valid() && system == Advance(old(system), t, Duplicate)
      ensures requests == old(requests) - {id} && upstreamConn == old(upstreamConn)
      ensures old(requests)[id] < |channels| && channels[old(requests)[id]].closed
    {
      var owner := requests[id];
      Step(Client(t, Duplicate));
      requests := requests - {id};
      channels := channels[owner := channels[owner].(closed := true)];
      assert channels == Channels(system);
    }

    // UpstreamWrite.  The field upstreamConn is read after the lock has been released, and the
    // write may take place on a connection that is no longer the one in use.  Success means that
    // the request, as long as it is registered, is on the connection in use, or will be: that
    // connection is broken, or replaced, or the request is still to be replayed.
    method UpstreamWrite(t: Ticket, id: int, unlocked: seq<Event>, writing: seq<Event>, ok: bool)
      returns (r: WriteResult)
      requires Valid() && t < |system.calls| && id == IdOf(system, t)
      requires system.calls[t].phase.Fresh? && !Local(system, system.calls[t]) && !system.poll.Replaying?
      modifies this
      ensures Valid() && t < |system.calls| && IdOf(system, t) == id
      ensures r.DuplicateId? <==> id in old(requests)
      ensures r.DuplicateId? ==> id !in requests
      ensures r.Sent? <==> system.calls[t].phase.Written?
      ensures r.NotWritten? <==> id !in old(requests) && !ok && unrecoverable
      ensures r.NotWritten? ==> system.calls[t].phase.Erred?
      ensures ok && !r.DuplicateId? ==> exists e: Epoch :: e <= upstreamConn && Failover.Sent(e, t) in system.sent
      ensures r.Sent? && id in requests && requests[id] == t ==>
        || Failover.Sent(upstreamConn, t) in system.sent || upstreamConn in system.broken || system.poll.Swapped?
        || (system.poll.Replaying? && id in system.poll.todo && system.poll.todo[id] == t)
    {
      var duplicate := RegisterRequest(t, id);
      if duplicate {
        return DuplicateId;
      }
      OthersKeep(system, t, unlocked);
      Yield(Goroutine(t), unlocked);
      var conn := LoadUpstreamConn(t);
      OthersKeep(system, t, writing);
      Yield(Goroutine(t), writing);
      var failed := WriteRequest(t, conn, ok);
      if !failed && id in requests && requests[id] == t { WrittenMeansSafe(t, id); }
      r := if failed then NotWritten else WriteResult.Sent;
    }

    lemma WrittenMeansSafe(t: Ticket, id: int)
      requires Valid() && t < |system.calls| && system.calls[t].phase.Written? && id in requests && requests[id] == t
      ensures || Failover.Sent(upstreamConn, t) in system.sent || upstreamConn in system.broken || system.poll.Swapped?
              || (system.poll.Replaying? && id in system.poll.todo && system.poll.todo[id] == t)
    {
      ReachableInv(deny, trace, system);
      assert Safe(system, id);
    }

    method LoadUpstreamConn(t: Ticket) returns (conn: Epoch)
      requires Valid() && t < |system.calls| && system.calls[t].phase.Stored?
      modifies this`system, this`trace
      ensures Valid() && t < |system.calls| && IdOf(system, t) == old(IdOf(system, t))
      ensures conn == upstreamConn && system.calls[t].phase == Loaded(conn)
    {
      conn := upstreamConn;
      Step(Client(t, LoadConn));
      assert channels == Channels(system);
    }

    method WriteRequest(t: Ticket, conn: Epoch, ok: bool) returns (failed: bool)
      requires Valid() && t < |system.calls| && system.calls[t].phase == Loaded(conn)
      modifies this`system, this`trace
      ensures Valid() && t < |system.calls| && IdOf(system, t) == old(IdOf(system, t))
      ensures conn <= upstreamConn && if ok then Failover.Sent(conn, t) in system.sent else conn in system.broken
      ensures failed <==> !ok && unrecoverable
      ensures if failed then system.calls[t].phase.Erred? else system.calls[t].phase.Written?
    {
      ReachableInv(deny, trace, system);
      Step(Client(t, Write(ok)));
      assert channels == Channels(system);
      failed := !ok && unrecoverable;
    }

    // UpstreamRead.  Once the others have done what they do meanwhile, it returns what is in the
    // channel unless it gives up or there is nothing; whatever they do, a reply that is returned
    // bears the id of the request, and a request that was registered is not any more.
    method UpstreamRead(t: Ticket, id: int, waiting: seq<Event>, leaving: seq<Event>, giveUp: bool)
      returns (r: Result<Option<Frame>, ReadError>)
      requires Valid() && t < |system.calls| && id == IdOf(system, t) && system.calls[t].phase.Written?
      modifies this
      ensures Valid() && t < |system.calls|
      ensures r == Failure(NotRegistered) <==> id !in old(requests)
      ensures r != Failure(NotRegistered) ==> id !in requests
      ensures r.Success? ==> system.calls[t].phase == Done(r.value) && (r.value.Some? ==> r.value.value.id == id)
      ensures r.Failure? ==> system.calls[t].phase.Erred?
      ensures id in old(requests) ==>
        var there, entry := Others(Advance(old(system), t, OpenEntry), Goroutine(t), waiting), old(requests)[id];
        && entry < |there.calls|
        && var c := there.calls[entry];
           if giveUp || (c.ready.None? && !c.closed) then r == Failure(GaveUp) else r == Success(c.ready)
    {
      var entry := FindEntry(t, id);
      if entry.None? {
        return Failure(NotRegistered);
      }
      OthersKeep(system, t, waiting);
      Yield(Goroutine(t), waiting);
      EntryExists(t, entry.value);
      if giveUp || (channels[entry.value].slot.None? && !channels[entry.value].closed) {
        GiveUp(t, id);
        return Failure(GaveUp);
      }
      var reply := Receive(t, entry.value);
      OthersKeep(system, t, leaving);
      Yield(Goroutine(t), leaving);
      FinishRead(t, id, reply);
      r := Success(reply);
    }

    method FindEntry(t: Ticket, id: int) returns (entry: Option<Ticket>)
      requires Valid() && t < |system.calls| && id == IdOf(system, t) && system.calls[t].phase.Written?
      modifies this`system, this`trace
      ensures Valid() && t < |system.calls| && IdOf(system, t) == id
      ensures entry == if id in requests then Some(requests[id]) else None
      ensures system == Advance(old(system), t, OpenEntry)
      ensures system.calls[t].phase == if entry.Some? then Awaiting(entry.value) else Erred
    {
      entry := if id in requests then Some(requests[id]) else None;
      Step(Client(t, OpenEntry));
      assert channels == Channels(system);
    }

    lemma EntryExists(t: Ticket, entry: Ticket)
      requires Valid() && t < |system.calls| && system.calls[t].phase == Awaiting(entry)
      ensures entry < |channels|
    {
      ReachableInv(deny, trace, system);
      assert RoutedCall(system, t);
    }

    method GiveUp(t: Ticket, id: int)
      requires Valid() && t < |system.calls| && id == IdOf(system, t) && system.calls[t].phase.Awaiting?
      modifies this
      ensures Valid() && t < |system.calls| && id !in requests && system.calls[t].phase.Erred?
    {
      Step(Client(t, Abort));
      requests := requests - {id};
      assert channels == Channels(system);
    }

    method FinishRead(t: Ticket, id: int, reply: Option<Frame>)
      requires Valid() && t < |system.calls| && id == IdOf(system, t) && system.calls[t].phase == Taken(reply)
      modifies this
      ensures Valid() && t < |system.calls| && requests == old(requests) - {id}
      ensures system.calls[t].phase == Done(reply) && (reply.Some? ==> reply.value.id == id)
    {
      ReachableInv(deny, trace, system);
      assert RoutedCall(system, t);
      Step(Client(t, Delete));
      requests := requests - {id};
      assert channels == Channels(system);
    }

    // A receive from a closed channel yields nothing.
    method Receive(t: Ticket, entry: Ticket) returns (reply: Option<Frame>)
      requires Valid() && t < |system.calls| && entry < |channels| && system.calls[t].phase == Awaiting(entry)
      requires channels[entry].slot.Some? || channels[entry].closed
      modifies this
      ensures Valid() && t < |system.calls| && IdOf(system, t) == old(IdOf(system, t))
      ensures reply == old(channels)[entry].slot
      ensures channels == old(channels)[entry := old(channels)[entry].(slot := None)]
      ensures system.calls[t].phase == Taken(reply)
    {
      reply := channels[entry].slot;
      Step(Client(t, Take));
      channels := channels[entry := channels[entry].(slot := None)];
      assert channels == Channels(system);
    }

    /* ---------- the poll goroutine ---------- */

    method HandleUpstreamResponse(msg: Incoming, meanwhile: seq<Event>, writable: bool) returns (r: Handling)
      requires Valid() && system.poll.Reading?
      modifies this
      ensures Valid() && upstreamConn == old(upstreamConn)
      ensures Read(system) == Read(old(system)) + (if msg.Parsed? then [msg.frame] else [])
      ensures r.Invalid? <==> msg.Malformed?
      ensures msg.Parsed? && msg.frame.id in old(requests) ==>
        var to := old(requests)[msg.frame.id];
        && r in {Deposited(to), Blocked(to), Panicked} && toClient == old(toClient) && to < |channels|
        && (r.Deposited? ==> channels[to].slot == Some(msg.frame) && system.poll.Reading?)
        && (r.Blocked? ==> channels[to].slot.Some? && !channels[to].closed && system.poll == Sending(msg.frame, to))
        && (r.Panicked? ==> channels[to].closed && system.poll.Crashed?)
      ensures msg.Parsed? && msg.frame.id !in old(requests) ==>
        && unrecoverable && r == (if writable then Forwarded else ClientLost)
        && toClient == old(toClient) + (if writable then [msg.frame] else [])
        && (if writable then system.poll.Reading? else system.poll.Stopped?)
      ensures msg.Malformed? ==> system.poll.Stopped? && toClient == old(toClient)
    {
      ReachableInv(deny, trace, system);
      Step(Poller(Failover.Receive(msg)));
      assert channels == Channels(system);
      assert Read(system) == Read(old(system)) + (if msg.Parsed? then [msg.frame] else []);
      match msg
      case Malformed =>
        return Invalid;
      case Parsed(f) =>
        if f.id in requests {
          assert Registered(system, f.id, requests[f.id]);
          r := SendReply(f, requests[f.id], meanwhile);
        } else {
          unrecoverable := true;
          r := ForwardPush(f, meanwhile, writable);
        }
    }

    method ForwardPush(f: Frame, meanwhile: seq<Event>, writable: bool) returns (r: Handling)
      requires Valid() && system.poll == Forwarding(f)
      modifies this
      ensures Valid() && upstreamConn == old(upstreamConn) && unrecoverable == old(unrecoverable)
      ensures system.handled == old(system).handled
      ensures r == if writable then Forwarded else ClientLost
      ensures toClient == old(toClient) + (if writable then [f] else [])
      ensures if writable then system.poll.Reading? else system.poll.Stopped?
    {
      OthersKeepPoll(system, meanwhile);
      Yield(PollLoop, meanwhile);
      Step(Poller(Forward(writable)));
      assert channels == Channels(system);
      if !writable {
        return ClientLost;
      }
      toClient := toClient + [f];
      return Forwarded;
    }

    // ch.Ready <- response, others acting before the channel is looked at.
    method SendReply(f: Frame, to: Ticket, meanwhile: seq<Event>) returns (r: Handling)
      requires Valid() && system.poll == Sending(f, to) && to < |system.calls|
      modifies this
      ensures Valid() && toClient == old(toClient) && to < |channels| && upstreamConn == old(upstreamConn)
      ensures system.handled == old(system).handled
      ensures r in {Deposited(to), Blocked(to), Panicked}
      ensures r.Deposited? ==> channels[to].slot == Some(f) && system.poll.Reading?
      ensures r.Blocked? ==> channels[to].slot.Some? && !channels[to].closed && system.poll == Sending(f, to)
      ensures r.Panicked? ==> channels[to].closed && system.poll.Crashed?
    {
      OthersKeepPoll(system, meanwhile);
      Yield(PollLoop, meanwhile);
      if channels[to].closed {
        Step(Poller(Deposit));
        assert channels == Channels(system);
        return Panicked;
      }
      if channels[to].slot.Some? {
        return Blocked(to);
      }
      Step(Poller(Deposit));
      channels := channels[to := channels[to].(slot := Some(f))];
      assert channels == Channels(system);
      return Deposited(to);
    }

    // The failure branch of `poll` up to the lock; `dialled` is whether a new connection was made.
    method Recover(idle: bool, dialled: bool) returns (swapped: bool)
      requires Valid() && system.poll.Reading?
      modifies this
      ensures Valid() && unrecoverable == old(unrecoverable) && requests == old(requests) && toClient == old(toClient)
      ensures system.handled == old(system).handled
      ensures swapped <==> old(system).live && !old(unrecoverable) && !idle && dialled
      ensures swapped ==>
          upstreamConn == old(upstreamConn) + 1 && system.poll.Swapped? && old(upstreamConn) in system.broken
      ensures !swapped ==> upstreamConn == old(upstreamConn) && system.poll.Stopped?
    {
      var live := system.live;
      Step(Poller(ReadError(idle)));
      assert channels == Channels(system);
      if !live || unrecoverable || idle {
        return false;
      }
      Step(Poller(Connect(dialled)));
      assert channels == Channels(system);
      if dialled {
        upstreamConn := upstreamConn + 1;
      }
      swapped := dialled;
    }

    // The new connection accepts `accepted` writes; before each of them others may take requests
    // out of the map.  Whoever is registered afterwards has been written on it.
    method RetryRunningRequests(accepted: nat, others: nat -> seq<Event>) returns (ok: bool)
      requires Valid() && system.poll.Swapped?
      modifies this
      ensures Valid() && upstreamConn == old(upstreamConn) && toClient == old(toClient)
      ensures system.handled == old(system).handled
      ensures ok ==> system.poll == Replaying(map[])
      ensures ok ==> forall id :: id in requests ==> Failover.Sent(upstreamConn, requests[id]) in system.sent
      ensures forall id :: id in requests ==> id in old(requests) && requests[id] == old(requests)[id]
      ensures !ok ==> system.poll.Stopped? && upstreamConn in system.broken
      ensures accepted >= |old(requests)| ==> ok
    {
      Step(Poller(LockForReplay));
      assert channels == Channels(system);
      var todo, turn, left := requests.Keys, 0, accepted;
      while todo != {}
        invariant Valid() && Replayed(system, todo)
        invariant upstreamConn == old(upstreamConn) && toClient == old(toClient)
        invariant system.handled == old(system).handled
        invariant forall id :: id in requests ==> id in old(requests) && requests[id] == old(requests)[id]
        invariant accepted >= |old(requests)| ==> left >= |todo|
        decreases |todo|
      {
        var id := AnyOf(todo);
        OthersWhileReplaying(system, todo, others(turn));
        Yield(PollLoop, others(turn));
        ok := ReplayOne(todo, id, left > 0);
        if !ok {
          return;
        }
        todo, turn, left := todo - {id}, turn + 1, if left > 0 then left - 1 else 0;
      }
      assert system.poll.todo == map[];
      ok := true;
    }

    // Range passes over an entry that has gone; a failed write ends it.
    method ReplayOne(ghost todo: set<int>, id: int, accepts: bool) returns (ok: bool)
      requires Valid() && Replayed(system, todo) && id in todo
      modifies this`system, this`trace
      ensures Valid() && (ok <==> id !in requests || accepts) && system.handled == old(system).handled
      ensures ok ==> Replayed(system, todo - {id})
      ensures !ok ==> system.poll.Stopped? && upstreamConn in system.broken
    {
      OneLessReplayed(system, todo, id);
      ok := true;
      if id in requests {
        ok := accepts;
        Step(Poller(Replay(id, accepts)));
      } else {
        Step(Poller(SkipReplay(id)));
      }
      assert channels == Channels(system);
    }

    // The poll loop.  It takes every turn of the script, reading its frame, until one ends it or
    // the connection has been cancelled; it returns only after cancelling the connection, and
    // otherwise is still reading, or waits to send, or has panicked.
    method Poll(script: seq<Turn>) returns (end: PollEnd, taken: nat)
      requires Valid() && system.poll.Reading?
      modifies this
      ensures Valid() && taken <= |script|
      ensures Read(system) == Read(old(system)) + FramesOf(script[..taken])
      ensures end.StillReading? ==> taken == |script| && system.poll.Reading?
      ensures end.Cancelled? ==> taken < |script| && system.poll.Stopped? && !system.live
      ensures end.Returned? ==> system.poll.Stopped? && !system.live
      ensures end.Waiting? ==> system.poll.Sending?
      ensures end.Panic? ==> system.poll.Crashed?
      ensures !end.StillReading? && !end.Cancelled? ==> taken > 0 && Explained(end, script[taken - 1], unrecoverable)
    {
      end, taken := StillReading, 0;
      assert Read(system) + [] == Read(system);
      while taken < |script| && end == StillReading
        invariant Valid() && taken <= |script| && (end.Cancelled? ==> taken < |script|)
        invariant Read(system) == Read(old(system)) + FramesOf(script[..taken])
        invariant Ended(end, system)
        invariant !end.StillReading? && !end.Cancelled? ==>
          taken > 0 && Explained(end, script[taken - 1], unrecoverable)
        decreases |script| - taken, end == StillReading
      {
        end := NextTurn(script[taken]);
        if !end.Cancelled? {
          FramesSnoc(script, taken);
          taken := taken + 1;
        }
      }
      if end == Returned || end == Cancelled { Close(); }
    }

    // The check at the top of the loop, and a turn.
    method NextTurn(turn: Turn) returns (end: PollEnd)
      requires Valid() && system.poll.Reading?
      modifies this
      ensures Valid() && Ended(end, system)
      ensures Read(system) == Read(old(system)) + if end.Cancelled? then [] else FrameOf(turn)
      ensures Explained(end, turn, unrecoverable)
    {
      OthersKeepPoll(system, turn.before);
      Yield(PollLoop, turn.before);
      if !system.live {
        Step(Poller(ReadError(false)));
        assert channels == Channels(system);
        assert Read(system) + [] == Read(system);
        return Cancelled;
      }
      end := OneTurn(turn);
    }

    method OneTurn(turn: Turn) returns (end: PollEnd)
      requires Valid() && system.poll.Reading? && system.live
      modifies this
      ensures Valid() && Ended(end, system) && !end.Cancelled?
      ensures Read(system) == Read(old(system)) + FrameOf(turn)
      ensures Explained(end, turn, unrecoverable)
    {
      if turn.read.Some? {
        var r := HandleUpstreamResponse(turn.read.value, turn.meanwhile, turn.writable);
        return match r
          case Deposited(_) => StillReading
          case Forwarded => StillReading
          case Blocked(_) => Waiting
          case Panicked => Panic
          case _ => Returned;
      }
      end := ChangeUpstream(turn);
      assert Read(system) + [] == Read(system);
    }

    // The read has failed.
    method ChangeUpstream(turn: Turn) returns (end: PollEnd)
      requires Valid() && system.poll.Reading? && system.live && turn.read.None?
      modifies this
      ensures Valid() && system.handled == old(system).handled
      ensures end.StillReading? || (end.Returned? && (MayEnd(turn) || unrecoverable))
      ensures Ended(end, system)
    {
      var swapped := Recover(turn.idle, turn.dialled);
      if !swapped {
        return Returned;
      }
      OthersKeepPoll(system, turn.meanwhile);
      Yield(PollLoop, turn.meanwhile);
      InFlightBound(deny, trace, system);
      var ok := RetryRunningRequests(turn.accepted, turn.replay);
      if !ok {
        return Returned;
      }
      Step(Poller(Unlock));
      assert channels == Channels(system);
      return StillReading;
    }

    // The deferred part of `poll`.
    method Close()
      requires Valid() && system.poll.Stopped?
      modifies this`system, this`trace
      ensures Valid() && system.poll.Stopped? && !system.live && system.handled == old(system).handled
    {
      Step(Poller(Shutdown));
      assert channels == Channels(system);
    }
  }

  // Where the poll goroutine stands after a turn, before the deferred part of `poll`.
  predicate Ended(end: PollEnd, s: State) {
    match end
    case StillReading => s.poll.Reading?
    case Cancelled => s.poll.Stopped?
    case Returned => s.poll.Stopped?
    case Waiting => s.poll.Sending?
    case Panic => s.poll.Crashed?
  }

  // Why the last turn came out as it did.
  predicate Explained(end: PollEnd, turn: Turn, unrecoverable: bool) {
    && (end.Returned? ==> MayEnd(turn) || unrecoverable)
    && (end.Waiting? || end.Panic? ==> FrameOf(turn) != [])
  }

  lemma FramesSnoc(script: seq<Turn>, n: nat)
    requires n < |script|
    ensures FramesOf(script[..n + 1]) == FramesOf(script[..n]) + FrameOf(script[n])
  {
    assert script[..n + 1][..n] == script[..n];
  }

  /* ---------- what others can and cannot do ---------- */

  lemma {:induction false} OthersRun(start: State, done: seq<Event>, s: State, me: Who, evs: seq<Event>)
    returns (more: seq<Event>)
    requires Run(start, done, s)
    ensures Run(start, more, Others(s, me, evs))
    decreases |evs|
  {
    if evs == [] {
      more := done;
    } else if Enabled(s, evs[0]) && !Mine(me, evs[0]) {
      RunSnoc(start, done, s, evs[0]);
      more := OthersRun(start, done + [evs[0]], Apply(s, evs[0]), me, evs[1..]);
    } else {
      more := OthersRun(start, done, s, me, evs[1..]);
    }
  }

  // Others do not move a goroutine on.
  lemma {:induction false} OthersKeep(s: State, t: Ticket, evs: seq<Event>)
    requires t < |s.calls|
    ensures var s' := Others(s, Goroutine(t), evs);
      t < |s'.calls| && s'.calls[t].request == s.calls[t].request && s'.calls[t].phase == s.calls[t].phase
    decreases |evs|
  {
    if evs != [] {
      var ev := evs[0];
      if Enabled(s, ev) && !Mine(Goroutine(t), ev) {
        if ev.Client? { GoroutineMoves(s, ev.t, ev.act); } else { PollSteps(s, ev); }
        OthersKeep(Apply(s, ev), t, evs[1..]);
      } else {
        OthersKeep(s, t, evs[1..]);
      }
    }
  }

  ghost predicate PollKept(s: State, s': State) {
    && s'.poll == s.poll && s'.epoch == s.epoch && s'.toClient == s.toClient && s'.unrecoverable == s.unrecoverable
    && |s.calls| <= |s'.calls| && s.broken <= s'.broken && s.sent <= s'.sent && s'.handled == s.handled
  }

  lemma OneKeepsPoll(s: State, ev: Event)
    requires Enabled(s, ev) && !ev.Poller?
    ensures PollKept(s, Apply(s, ev))
  {
    if ev.Client? { GoroutineMoves(s, ev.t, ev.act); }
  }

  // ... nor the poll goroutine.
  lemma {:induction false} OthersKeepPoll(s: State, evs: seq<Event>)
    ensures PollKept(s, Others(s, PollLoop, evs))
    decreases |evs|
  {
    if evs != [] {
      if Enabled(s, evs[0]) && !evs[0].Poller? {
        OneKeepsPoll(s, evs[0]);
        OthersKeepPoll(Apply(s, evs[0]), evs[1..]);
      } else {
        OthersKeepPoll(s, evs[1..]);
      }
    }
  }

  // Half-way through the replay: what is registered has been written or is still to be.
  ghost predicate Replayed(s: State, todo: set<int>) {
    && s.poll.Replaying? && s.poll.todo.Keys == todo
    && forall id :: id in s.requests ==>
         (id in todo && s.poll.todo[id] == s.requests[id]) || Failover.Sent(s.epoch, s.requests[id]) in s.sent
  }

  // The lock keeps others from registering anything, so the map can only lose entries.
  lemma {:induction false} OthersWhileReplaying(s: State, todo: set<int>, evs: seq<Event>)
    requires Replayed(s, todo)
    ensures var s' := Others(s, PollLoop, evs);
      && Replayed(s', todo) && PollKept(s, s')
      && forall id :: id in s'.requests ==> id in s.requests && s'.requests[id] == s.requests[id]
    decreases |evs|
  {
    if evs != [] {
      var ev := evs[0];
      if Enabled(s, ev) && !ev.Poller? {
        OneWhileReplaying(s, todo, ev);
        OthersWhileReplaying(Apply(s, ev), todo, evs[1..]);
      } else {
        OthersWhileReplaying(s, todo, evs[1..]);
      }
    }
  }

  lemma OneWhileReplaying(s: State, todo: set<int>, ev: Event)
    requires Replayed(s, todo) && Enabled(s, ev) && !ev.Poller?
    ensures Replayed(Apply(s, ev), todo) && PollKept(s, Apply(s, ev))
    ensures forall id :: id in Apply(s, ev).requests ==> id in s.requests && Apply(s, ev).requests[id] == s.requests[id]
  {
    OneKeepsPoll(s, ev);
    if ev.Client? {
      NothingStored(s, todo, ev.t, ev.act);
    } else {
      assert Apply(s, ev).requests == s.requests;
    }
  }

  lemma NothingStored(s: State, todo: set<int>, t: Ticket, act: Act)
    requires Replayed(s, todo) && Ready(s, t, act)
    ensures forall id :: id in Advance(s, t, act).requests ==>
      id in s.requests && Advance(s, t, act).requests[id] == s.requests[id]
  {
  }

  lemma OneLessReplayed(s: State, todo: set<int>, id: int)
    requires Replayed(s, todo) && id in todo
    ensures PollReady(s, Replay(id, true)) && Replayed(PollAdvance(s, Replay(id, true)), todo - {id})
    ensures id !in s.requests ==> PollReady(s, SkipReplay(id)) && Replayed(PollAdvance(s, SkipReplay(id)), todo - {id})
  {
    assert (s.poll.todo - {id}).Keys == todo - {id};
  }
}
