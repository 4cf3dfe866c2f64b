/** What every step of `Failover` keeps, and what follows for whole runs. */
module FailoverSafety {
  import opened Wrappers
  import opened RpcFrames
  import opened Failover

  /* ---------- invariants ---------- */

  // The ticket registered under an id belongs to that id, to the client frame being served,
  // and to a goroutine that has not finished (unless the connection is cancelled).
  ghost predicate Owners(s: State) {
    && (forall id :: id in s.requests ==> Registered(s, id, s.requests[id]) && s.base <= s.requests[id])
    && (forall id :: id in s.requests ==>
          var p := s.calls[s.requests[id]].phase;
          !p.Done? && (p.Failed? ==> !s.live))
    && (s.poll.Replaying? ==> forall id :: id in s.poll.todo ==> Registered(s, id, s.poll.todo[id]))
  }

  ghost predicate Registered(s: State, id: int, t: Ticket) {
    t < |s.calls| && IdOf(s, t) == id && !Local(s, s.calls[t]) && !s.calls[t].phase.Fresh?
  }

  // Whatever travels towards goroutine `t` bears the id of its request.
  ghost predicate Routed(s: State) {
    && (forall t :: 0 <= t < |s.calls| ==> RoutedCall(s, t))
    && (s.poll.Sending? ==> s.poll.entry < |s.calls| && s.poll.reply.id == IdOf(s, s.poll.entry))
  }

  ghost predicate RoutedCall(s: State, t: Ticket)
    requires t < |s.calls|
  {
    var c := s.calls[t];
    && (c.ready.Some? ==> c.ready.value.id == c.request.id)
    && (c.phase.Awaiting? ==> c.phase.entry < |s.calls| && IdOf(s, c.phase.entry) == c.request.id)
    && (c.phase.Taken? && c.phase.reply.Some? ==> c.phase.reply.value.id == c.request.id)
    && (c.phase.Done? && c.phase.answer.Some? ==> c.phase.answer.value.id == c.request.id)
  }

  // Only the goroutines of one client frame, at most fifty, can be unfinished.
  ghost predicate OneFrameAtATime(s: State) {
    && s.base <= |s.calls| <= s.base + MAX_BATCH
    && forall t :: 0 <= t < s.base ==> Finished(s.calls[t])
  }

  // A request on the deny list is answered by the proxy and by nobody else.
  ghost predicate DeniedStaysLocal(s: State) {
    && (forall t :: 0 <= t < |s.calls| && Local(s, s.calls[t]) ==>
          s.calls[t].phase == Fresh || s.calls[t].phase == Done(Some(Denial(IdOf(s, t)))))
    && (forall x :: x in s.sent ==>
          x.ticket < |s.calls| && !Local(s, s.calls[x.ticket]) && !s.calls[x.ticket].phase.Fresh?)
  }

  ghost predicate EpochsBounded(s: State) {
    && (forall t :: 0 <= t < |s.calls| && s.calls[t].phase.Loaded? ==> s.calls[t].phase.conn <= s.epoch)
    && (forall x :: x in s.sent ==> x.conn <= s.epoch)
    && (s.poll.Recovering? ==> s.epoch in s.broken)
  }

  // The request registered under `id` will reach an upstream: it has been written on the
  // connection in use, its goroutine is about to write it there, the poll goroutine is about
  // to replay it there, or that connection is already broken (and will be replaced).
  ghost predicate Safe(s: State, id: int)
    requires id in s.requests && s.requests[id] < |s.calls|
  {
    var t := s.requests[id];
    || Sent(s.epoch, t) in s.sent
    || s.calls[t].phase == Stored
    || s.calls[t].phase == Loaded(s.epoch)
    || s.poll.Swapped?
    || (s.poll.Replaying? && id in s.poll.todo && s.poll.todo[id] == t)
    || s.epoch in s.broken
  }

  ghost predicate NoLoss(s: State)
    requires Owners(s)
  {
    forall id :: id in s.requests ==> Safe(s, id)
  }

  function Forwarded(h: seq<Handled>): seq<Frame> {
    if h == [] then []
    else Forwarded(h[..|h| - 1]) + if h[|h| - 1].to.None? then [h[|h| - 1].frame] else []
  }

  ghost predicate OnePushSource(s: State) {
    && (forall i, j :: 0 <= i <= j < |s.handled| ==> s.handled[i].conn <= s.handled[j].conn)
    && (forall i :: 0 <= i < |s.handled| ==> s.handled[i].conn <= s.epoch)
    && (forall i :: 0 <= i < |s.handled| && s.handled[i].to.None? ==> s.unrecoverable && s.handled[i].conn == s.epoch)
    && (s.poll.Recovering? || s.poll.Swapped? || s.poll.Replaying? ==> !s.unrecoverable)
  }

  ghost predicate PushesInOrder(s: State) {
    match s.poll
    case Forwarding(f) => Forwarded(s.handled) == s.toClient + [f]
    case Stopped => s.toClient <= Forwarded(s.handled)
    case _ => s.toClient == Forwarded(s.handled)
  }

  ghost predicate Inv(s: State) {
    && Owners(s) && Routed(s) && OneFrameAtATime(s) && DeniedStaysLocal(s)
    && EpochsBounded(s) && NoLoss(s) && OnePushSource(s) && PushesInOrder(s)
  }

  lemma InitialInv(deny: seq<string>)
    ensures Inv(Initial(deny))
  {
  }


  /* ---------- steps of one client goroutine ---------- */

  // What a step of goroutine `t` leaves alone.
  ghost predicate Moved(s: State, s': State, t: Ticket) {
    && t < |s.calls| == |s'.calls| && !s'.calls[t].phase.Fresh?
    && s'.deny == s.deny && s'.epoch == s.epoch && s'.base == s.base && s'.poll == s.poll
    && s'.unrecoverable == s.unrecoverable && s'.handled == s.handled && s'.toClient == s.toClient
    && s.broken <= s'.broken && s.sent <= s'.sent && (s'.live ==> s.live)
    && (forall u :: 0 <= u < |s.calls| ==>
          s'.calls[u].request == s.calls[u].request && (u != t ==> s'.calls[u].phase == s.calls[u].phase))
    && (forall id :: id in s'.requests ==>
          (id in s.requests && s'.requests[id] == s.requests[id]) || (id == IdOf(s, t) && s'.requests[id] == t))
  }

  lemma GoroutineMoves(s: State, t: Ticket, act: Act)
    requires Ready(s, t, act)
    ensures Moved(s, Advance(s, t, act), t)
  {
    match act
    case Take => TakeMoves(s, t);
    case Duplicate => DuplicateMoves(s, t);
    case Write(ok) => WriteMoves(s, t, ok);
    case Store => StoreMoves(s, t);
    case _ => OthersMove(s, t, act);
  }

  lemma TakeMoves(s: State, t: Ticket)
    requires Ready(s, t, Take)
    ensures Moved(s, Advance(s, t, Take), t)
  {
  }

  lemma DuplicateMoves(s: State, t: Ticket)
    requires Ready(s, t, Duplicate)
    ensures Moved(s, Advance(s, t, Duplicate), t)
  {
  }

  lemma WriteMoves(s: State, t: Ticket, ok: bool)
    requires Ready(s, t, Write(ok))
    ensures Moved(s, Advance(s, t, Write(ok)), t)
  {
  }

  lemma StoreMoves(s: State, t: Ticket)
    requires Ready(s, t, Store)
    ensures Moved(s, Advance(s, t, Store), t)
  {
  }

  lemma OthersMove(s: State, t: Ticket, act: Act)
    requires Ready(s, t, act) && !act.Take? && !act.Duplicate? && !act.Write? && !act.Store?
    ensures Moved(s, Advance(s, t, act), t)
  {
  }

  lemma OwnersMoved(s: State, s': State, t: Ticket)
    requires Owners(s) && Moved(s, s', t)
    requires IdOf(s, t) in s'.requests && s'.requests[IdOf(s, t)] == t ==>
      var p := s'.calls[t].phase;
      s.base <= t && !Local(s, s.calls[t]) && !p.Done? && (p.Failed? ==> !s'.live)
    ensures Owners(s')
  {
    forall id | id in s'.requests
      ensures Registered(s', id, s'.requests[id]) && s'.base <= s'.requests[id]
    {
      if id in s.requests { assert Registered(s, id, s.requests[id]); }
    }
    if s'.poll.Replaying? {
      forall id | id in s'.poll.todo ensures Registered(s', id, s'.poll.todo[id]) {
        assert Registered(s, id, s.poll.todo[id]);
      }
    }
  }

  lemma OwnersStepG(s: State, t: Ticket, act: Act)
    requires Owners(s) && OneFrameAtATime(s) && DeniedStaysLocal(s) && Ready(s, t, act)
    ensures Owners(Advance(s, t, act))
  {
    match act
    case Store => OwnersStore(s, t);
    case Take => OwnersTake(s, t);
    case Duplicate => OwnersDuplicate(s, t);
    case Write(ok) => OwnersWrite(s, t, ok);
    case _ => OwnersRest(s, t, act);
  }

  lemma OwnersTake(s: State, t: Ticket)
    requires Owners(s) && OneFrameAtATime(s) && Ready(s, t, Take)
    ensures Owners(Advance(s, t, Take))
  {
    TakeMoves(s, t);
    OwnersMoved(s, Advance(s, t, Take), t);
  }

  lemma OwnersDuplicate(s: State, t: Ticket)
    requires Owners(s) && Ready(s, t, Duplicate)
    ensures Owners(Advance(s, t, Duplicate))
  {
    DuplicateMoves(s, t);
    OwnersMoved(s, Advance(s, t, Duplicate), t);
  }

  lemma OwnersWrite(s: State, t: Ticket, ok: bool)
    requires Owners(s) && OneFrameAtATime(s) && Ready(s, t, Write(ok))
    ensures Owners(Advance(s, t, Write(ok)))
  {
    WriteMoves(s, t, ok);
    if IdOf(s, t) in s.requests { assert Registered(s, IdOf(s, t), s.requests[IdOf(s, t)]); }
    OwnersMoved(s, Advance(s, t, Write(ok)), t);
  }

  lemma OwnersRest(s: State, t: Ticket, act: Act)
    requires Owners(s) && OneFrameAtATime(s) && DeniedStaysLocal(s) && Ready(s, t, act)
    requires !act.Store? && !act.Take? && !act.Duplicate? && !act.Write?
    ensures Owners(Advance(s, t, act))
  {
    OthersMove(s, t, act);
    if IdOf(s, t) in s.requests { assert Registered(s, IdOf(s, t), s.requests[IdOf(s, t)]); }
    OwnersMoved(s, Advance(s, t, act), t);
  }

  lemma OwnersStore(s: State, t: Ticket)
    requires Owners(s) && OneFrameAtATime(s) && Ready(s, t, Store)
    ensures Owners(Advance(s, t, Store))
  {
    StoreMoves(s, t);
    OwnersMoved(s, Advance(s, t, Store), t);
  }

  lemma RoutedStepG(s: State, t: Ticket, act: Act)
    requires Owners(s) && Routed(s) && Ready(s, t, act)
    ensures Routed(Advance(s, t, act))
  {
    GoroutineMoves(s, t, act);
    assert RoutedCall(s, t);
    if act.Take? {
      RoutedTake(s, t);
    } else {
      if act.OpenEntry? && IdOf(s, t) in s.requests {
        assert Registered(s, IdOf(s, t), s.requests[IdOf(s, t)]);
      }
      RoutedMoved(s, Advance(s, t, act), t);
    }
  }

  lemma RoutedTake(s: State, t: Ticket)
    requires Routed(s) && Ready(s, t, Take)
    ensures Routed(Advance(s, t, Take))
  {
    assert RoutedCall(s, t) && RoutedCall(s, s.calls[t].phase.entry);
    TakeMoves(s, t);
    RoutedMoved(s, Advance(s, t, Take), t);
  }

  lemma RoutedMoved(s: State, s': State, t: Ticket)
    requires Routed(s) && Moved(s, s', t)
    requires forall u :: 0 <= u < |s'.calls| && s'.calls[u].ready.Some? ==> s'.calls[u].ready == s.calls[u].ready
    requires RoutedCall(s', t)
    ensures Routed(s')
  {
    forall u | 0 <= u < |s'.calls| ensures RoutedCall(s', u) {
      assert RoutedCall(s, u);
    }
  }

  lemma FrameStepG(s: State, t: Ticket, act: Act)
    requires Owners(s) && OneFrameAtATime(s) && DeniedStaysLocal(s) && Ready(s, t, act)
    ensures OneFrameAtATime(Advance(s, t, act)) && DeniedStaysLocal(Advance(s, t, act))
  {
    GoroutineMoves(s, t, act);
    FrameMoved(s, Advance(s, t, act), t);
  }

  lemma FrameMoved(s: State, s': State, t: Ticket)
    requires OneFrameAtATime(s) && DeniedStaysLocal(s) && Moved(s, s', t)
    requires !Finished(s.calls[t])
    requires forall x :: x in s'.sent ==> x in s.sent || (x.ticket == t && s.calls[t].phase.Loaded?)
    requires Local(s, s.calls[t]) ==> s.calls[t].phase == Fresh ==> s'.calls[t].phase == Done(Some(Denial(IdOf(s, t))))
    ensures OneFrameAtATime(s') && DeniedStaysLocal(s')
  {
  }

  lemma EpochsStepG(s: State, t: Ticket, act: Act)
    requires EpochsBounded(s) && Ready(s, t, act)
    ensures EpochsBounded(Advance(s, t, act))
  {
    GoroutineMoves(s, t, act);
  }

  lemma NoLossStepG(s: State, t: Ticket, act: Act)
    requires Owners(s) && EpochsBounded(s) && NoLoss(s) && Ready(s, t, act)
    requires Owners(Advance(s, t, act))
    ensures NoLoss(Advance(s, t, act))
  {
    GoroutineMoves(s, t, act);
    NoLossMoved(s, Advance(s, t, act), t);
  }

  lemma NoLossMoved(s: State, s': State, t: Ticket)
    requires Owners(s) && Owners(s') && EpochsBounded(s) && NoLoss(s) && Moved(s, s', t)
    requires var p, p' := s.calls[t].phase, s'.calls[t].phase;
      && (p == Stored ==> p' == Loaded(s.epoch))
      && (p == Loaded(s.epoch) ==> Sent(s.epoch, t) in s'.sent || s.epoch in s'.broken)
    requires IdOf(s, t) in s'.requests && s'.requests[IdOf(s, t)] == t ==>
      s'.calls[t].phase == Stored || (IdOf(s, t) in s.requests && s.requests[IdOf(s, t)] == t)
    ensures NoLoss(s')
  {
    forall id | id in s'.requests ensures Safe(s', id) {
      if id in s.requests && s'.requests[id] == s.requests[id] { assert Safe(s, id); }
    }
  }

  /* ---------- steps of the poll goroutine, the client and the network ---------- */

  // What they leave alone, and how far they may go.  `Begin` appends fresh calls, `Deposit` fills
  // one channel, `Connect` starts a new epoch.
  ghost predicate Polled(s: State, s': State) {
    && s'.deny == s.deny && s'.requests == s.requests && (s'.live ==> s.live) && s.broken <= s'.broken
    && s.sent <= s'.sent && |s.calls| <= |s'.calls|
    && (forall u :: 0 <= u < |s.calls| ==>
          s'.calls[u].request == s.calls[u].request && s'.calls[u].phase == s.calls[u].phase)
    && (forall u :: |s.calls| <= u < |s'.calls| ==> s'.calls[u].phase == Fresh && s'.calls[u].ready == None)
    && NextFrame(s, s') && PollMoved(s, s')
    && (s'.epoch == s.epoch || (s.poll.Recovering? && s'.epoch == s.epoch + 1 && s'.poll.Swapped?))
  }

  predicate NextFrame(s: State, s': State) {
    if |s'.calls| == |s.calls| then s'.base == s.base
    else s.live && AllFinished(s.calls) && s'.base == |s.calls| && |s'.calls| <= |s.calls| + MAX_BATCH
  }

  // Replaying starts with everything that is registered, leaves out only what is not registered
  // any more, and ends early only on a broken connection.
  ghost predicate PollMoved(s: State, s': State) {
    && (s'.poll.Recovering? ==> s.poll.Recovering? || s.epoch in s'.broken)
    && (s.poll.Swapped? ==> s'.poll.Swapped? || s'.poll == Replaying(s.requests))
    && (s'.poll.Replaying? ==> s.poll.Swapped? || s.poll.Replaying?)
    && (s.poll.Replaying? && s'.poll.Replaying? ==>
          forall id :: id in s'.poll.todo ==> id in s.poll.todo && s'.poll.todo[id] == s.poll.todo[id])
    && (s.poll.Replaying? ==> s'.epoch == s.epoch && forall id :: id in s.poll.todo ==>
          || Sent(s.epoch, s.poll.todo[id]) in s'.sent || id !in s.requests || s.epoch in s'.broken
          || (s'.poll.Replaying? && id in s'.poll.todo))
    && (forall x :: x in s'.sent ==>
          x in s.sent || (s.poll.Replaying? && x.conn == s.epoch && InTodo(s.poll.todo, x.ticket)))
  }

  ghost predicate InTodo(todo: map<int, Ticket>, t: Ticket) { exists id :: id in todo && todo[id] == t }

  lemma PollSteps(s: State, ev: Event)
    requires Enabled(s, ev) && !ev.Client?
    ensures Polled(s, Apply(s, ev))
  {
    match ev
    case Begin(frames) => BeginPolled(s, frames);
    case Poller(Deposit) => DepositPolled(s);
    case Poller(Replay(id, ok)) => ReplayPolled(s, id, ok);
    case Poller(Receive(msg)) => ReceivePolled(s, msg);
    case Poller(step) => RestPolled(s, step);
    case _ =>
  }

  lemma BeginPolled(s: State, frames: seq<Frame>)
    requires Enabled(s, Begin(frames))
    ensures Polled(s, Apply(s, Begin(frames)))
  {
  }

  lemma DepositPolled(s: State)
    requires PollReady(s, Deposit)
    ensures Polled(s, PollAdvance(s, Deposit))
  {
  }

  lemma ReplayPolled(s: State, id: int, ok: bool)
    requires PollReady(s, Replay(id, ok))
    ensures Polled(s, PollAdvance(s, Replay(id, ok)))
  {
  }

  lemma ReceivePolled(s: State, msg: Incoming)
    requires PollReady(s, Receive(msg))
    ensures Polled(s, PollAdvance(s, Receive(msg)))
  {
  }

  lemma RestPolled(s: State, step: PollAct)
    requires PollReady(s, step) && !step.Deposit? && !step.Replay? && !step.Receive?
    ensures Polled(s, PollAdvance(s, step))
  {
  }

  lemma RegisteredMeansUnfinished(s: State, id: int)
    requires Owners(s) && s.live && id in s.requests
    ensures !AllFinished(s.calls)
  {
    assert !Finished(s.calls[s.requests[id]]);
  }

  lemma OwnersPolled(s: State, s': State)
    requires Owners(s) && Polled(s, s')
    ensures Owners(s')
  {
    if s'.base != s.base {
      if id :| id in s.requests { RegisteredMeansUnfinished(s, id); }
    }
    forall id | id in s'.requests ensures Registered(s', id, s'.requests[id]) {
      assert Registered(s, id, s.requests[id]);
    }
    if s'.poll.Replaying? {
      forall id | id in s'.poll.todo ensures Registered(s', id, s'.poll.todo[id]) {
        assert Registered(s, id, s'.poll.todo[id]);
      }
    }
  }

  lemma FramePolled(s: State, s': State)
    requires Owners(s) && OneFrameAtATime(s) && DeniedStaysLocal(s) && Polled(s, s')
    ensures OneFrameAtATime(s') && DeniedStaysLocal(s')
  {
    forall x | x in s'.sent
      ensures x.ticket < |s'.calls| && !Local(s', s'.calls[x.ticket]) && !s'.calls[x.ticket].phase.Fresh?
    {
      if x !in s.sent {
        var id :| id in s.poll.todo && s.poll.todo[id] == x.ticket;
        assert Registered(s, id, x.ticket);
      }
    }
  }

  lemma EpochsPolled(s: State, s': State)
    requires EpochsBounded(s) && Polled(s, s')
    ensures EpochsBounded(s')
  {
  }

  lemma NoLossPolled(s: State, s': State)
    requires Owners(s) && Owners(s') && EpochsBounded(s) && NoLoss(s) && Polled(s, s')
    ensures NoLoss(s')
  {
    forall id | id in s'.requests ensures Safe(s', id) {
      assert Safe(s, id);
    }
  }

  lemma RoutedStepP(s: State, ev: Event)
    requires Owners(s) && Routed(s) && Enabled(s, ev) && !ev.Client?
    ensures Routed(Apply(s, ev))
  {
    if ev.Begin? {
      RoutedBegin(s, ev.frames);
    } else if ev.Poller? {
      RoutedPoll(s, ev.step);
    } else {
      RoutedSame(s, Apply(s, ev));
    }
  }

  lemma RoutedPoll(s: State, step: PollAct)
    requires Owners(s) && Routed(s) && PollReady(s, step)
    ensures Routed(PollAdvance(s, step))
  {
    match step
    case Deposit => RoutedDeposit(s);
    case Receive(msg) => RoutedReceive(s, msg);
    case _ => RoutedRest(s, step);
  }

  lemma RoutedSame(s: State, s': State)
    requires Routed(s) && s'.calls == s.calls && (s'.poll == s.poll || !s'.poll.Sending?)
    ensures Routed(s')
  {
    assert forall t :: 0 <= t < |s.calls| && RoutedCall(s, t) ==> RoutedCall(s', t);
  }

  lemma RoutedBegin(s: State, frames: seq<Frame>)
    requires Routed(s) && Enabled(s, Begin(frames))
    ensures Routed(Apply(s, Begin(frames)))
  {
    var s' := Apply(s, Begin(frames));
    forall t | 0 <= t < |s'.calls| ensures RoutedCall(s', t) {
      if t < |s.calls| { assert RoutedCall(s, t); }
    }
  }

  lemma RoutedDeposit(s: State)
    requires Routed(s) && PollReady(s, Deposit)
    ensures Routed(PollAdvance(s, Deposit))
  {
    var s' := PollAdvance(s, Deposit);
    forall t | 0 <= t < |s'.calls| ensures RoutedCall(s', t) {
      assert RoutedCall(s, t);
    }
  }

  lemma RoutedReceive(s: State, msg: Incoming)
    requires Owners(s) && Routed(s) && PollReady(s, Receive(msg))
    ensures Routed(Classify(s, msg))
  {
    var s' := Classify(s, msg);
    forall t | 0 <= t < |s'.calls| ensures RoutedCall(s', t) {
      assert RoutedCall(s, t);
    }
    if msg.Parsed? && msg.frame.id in s.requests {
      assert Registered(s, msg.frame.id, s.requests[msg.frame.id]);
    }
  }

  lemma RoutedRest(s: State, step: PollAct)
    requires Routed(s) && PollReady(s, step) && !step.Deposit? && !step.Receive?
    ensures Routed(PollAdvance(s, step))
  {
    RoutedSame(s, PollAdvance(s, step));
  }

  lemma PushStepG(s: State, t: Ticket, act: Act)
    requires OnePushSource(s) && PushesInOrder(s) && Ready(s, t, act)
    ensures OnePushSource(Advance(s, t, act)) && PushesInOrder(Advance(s, t, act))
  {
    GoroutineMoves(s, t, act);
  }

  lemma PushReceive(s: State, msg: Incoming)
    requires OnePushSource(s) && PushesInOrder(s) && s.poll.Reading?
    ensures OnePushSource(Classify(s, msg)) && PushesInOrder(Classify(s, msg))
  {
    if msg.Parsed? {
      if msg.frame.id in s.requests {
        ReplyHandled(s, Classify(s, msg), msg.frame, s.requests[msg.frame.id]);
      } else {
        PushHandled(s, Classify(s, msg), msg.frame);
      }
    }
  }

  lemma ReplyHandled(s: State, s': State, f: Frame, to: Ticket)
    requires OnePushSource(s) && PushesInOrder(s) && s.poll.Reading?
    requires s' == s.(poll := Sending(f, to), handled := s.handled + [Handled(s.epoch, f, Some(to))])
    ensures OnePushSource(s') && PushesInOrder(s')
  {
    ForwardedSnoc(s.handled, Handled(s.epoch, f, Some(to)));
    OneMoreHandled(s, s', Handled(s.epoch, f, Some(to)));
  }

  lemma PushHandled(s: State, s': State, f: Frame)
    requires OnePushSource(s) && PushesInOrder(s) && s.poll.Reading?
    requires s' == s.(poll := Forwarding(f), unrecoverable := true, handled := s.handled + [Handled(s.epoch, f, None)])
    ensures OnePushSource(s') && PushesInOrder(s')
  {
    ForwardedSnoc(s.handled, Handled(s.epoch, f, None));
    OneMoreHandled(s, s', Handled(s.epoch, f, None));
  }

  lemma OneMoreHandled(s: State, s': State, x: Handled)
    requires OnePushSource(s) && s'.handled == s.handled + [x] && x.conn == s.epoch == s'.epoch
    requires s'.unrecoverable == (s.unrecoverable || x.to.None?)
    requires !s'.poll.Recovering? && !s'.poll.Swapped? && !s'.poll.Replaying?
    ensures OnePushSource(s')
  {
    assert forall i :: 0 <= i < |s.handled| ==> s'.handled[i] == s.handled[i];
  }

  lemma ForwardedSnoc(h: seq<Handled>, x: Handled)
    ensures Forwarded(h + [x]) == Forwarded(h) + if x.to.None? then [x.frame] else []
  {
    assert (h + [x])[..|h|] == h;
  }

  lemma PushRest(s: State, step: PollAct)
    requires OnePushSource(s) && PushesInOrder(s) && PollReady(s, step) && !step.Receive?
    ensures OnePushSource(PollAdvance(s, step)) && PushesInOrder(PollAdvance(s, step))
  {
    assert PollAdvance(s, step).handled == s.handled;
  }

  lemma PushStepP(s: State, ev: Event)
    requires OnePushSource(s) && PushesInOrder(s) && Enabled(s, ev) && !ev.Client?
    ensures OnePushSource(Apply(s, ev)) && PushesInOrder(Apply(s, ev))
  {
    match ev
    case Poller(Receive(msg)) => PushReceive(s, msg);
    case Poller(step) => PushRest(s, step);
    case _ =>
  }

  /* ---------- whole runs ---------- */

  lemma InvStep(s: State, ev: Event)
    requires Inv(s) && Enabled(s, ev)
    ensures Inv(Apply(s, ev))
  {
    if ev.Client? {
      InvStepG(s, ev.t, ev.act);
    } else {
      InvStepP(s, ev);
    }
  }

  lemma InvStepG(s: State, t: Ticket, act: Act)
    requires Inv(s) && Ready(s, t, act)
    ensures Inv(Advance(s, t, act))
  {
    OwnersStepG(s, t, act);
    RoutedStepG(s, t, act);
    FrameStepG(s, t, act);
    EpochsStepG(s, t, act);
    NoLossStepG(s, t, act);
    PushStepG(s, t, act);
  }

  lemma InvStepP(s: State, ev: Event)
    requires Inv(s) && Enabled(s, ev) && !ev.Client?
    ensures Inv(Apply(s, ev))
  {
    var s' := Apply(s, ev);
    PollSteps(s, ev);
    OwnersPolled(s, s');
    FramePolled(s, s');
    EpochsPolled(s, s');
    NoLossPolled(s, s');
    RoutedStepP(s, ev);
    PushStepP(s, ev);
  }

  lemma {:induction false} InvRun(s: State, evs: seq<Event>, to: State)
    requires Inv(s) && Run(s, evs, to)
    ensures Inv(to)
    decreases |evs|
  {
    if evs != [] {
      InvStep(s, evs[0]);
      InvRun(Apply(s, evs[0]), evs[1..], to);
    }
  }
}
