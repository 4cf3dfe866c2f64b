/** Which request a reply reaches.  Replies are matched by id alone, so a reply finds the
    request it answers exactly as long as that request has not been given an answer yet;
    replaying after a failover is what can break this. */
module FailoverReplies {
  import opened Wrappers
  import opened RpcFrames
  import opened Failover
  import opened FailoverSafety

  // The client reuses no id that is in flight.
  predicate Regular(ev: Event) { ev.Client? ==> !ev.act.Duplicate? }

  ghost predicate RegularRun(s: State, evs: seq<Event>, to: State) {
    Run(s, evs, to) && forall i :: 0 <= i < |evs| ==> Regular(evs[i])
  }

  // How many frames have been read for goroutine `t`.
  function ReadFor(h: seq<Handled>, t: Ticket): nat {
    if h == [] then 0 else ReadFor(h[..|h| - 1], t) + One(h[|h| - 1].to == Some(t))
  }

  function One(b: bool): nat { if b then 1 else 0 }

  predicate HasReply(s: State, t: Ticket)
    requires t < |s.calls|
  {
    var c := s.calls[t];
    c.phase.Taken? || (c.phase.Done? && !Local(s, c))
  }

  predicate SendingTo(s: State, t: Ticket) { s.poll.Sending? && s.poll.entry == t }

  // From Store to Delete, or until it fails.
  predicate Active(p: Phase) { p.Stored? || p.Loaded? || p.Written? || p.Awaiting? || p.Taken? }

  predicate RegisteredIn(s: State, t: Ticket)
    requires t < |s.calls|
  {
    IdOf(s, t) in s.requests && s.requests[IdOf(s, t)] == t
  }

  // Under regular runs a goroutine is registered from Store to Delete, waits on its own channel,
  // and every frame read for it is in its hands, in its channel or on the way there.
  ghost predicate RegularInv(s: State) {
    && (forall t :: 0 <= t < |s.calls| ==> RegularCall(s, t))
    && (s.poll.Sending? ==> s.poll.entry < |s.calls| && !s.calls[s.poll.entry].phase.Fresh?
                            && !Local(s, s.calls[s.poll.entry]))
    && (forall i :: 0 <= i < |s.handled| && s.handled[i].to.Some? ==> s.handled[i].to.value < |s.calls|)
  }

  ghost predicate RegularCall(s: State, t: Ticket)
    requires t < |s.calls|
  {
    var c := s.calls[t];
    && (Active(c.phase) ==> RegisteredIn(s, t))
    && (c.phase.Awaiting? ==> c.phase.entry == t)
    && !c.closed
    && (c.ready.Some? ==> !c.phase.Fresh?)
    && ReadFor(s.handled, t) == One(HasReply(s, t)) + One(c.ready.Some?) + One(SendingTo(s, t))
  }

  lemma RegularTake(s: State, t: Ticket)
    requires RegularInv(s) && DeniedStaysLocal(s) && Ready(s, t, Take)
    ensures RegularInv(Advance(s, t, Take))
  {
    var s' := Advance(s, t, Take);
    assert RegularCall(s, t);
    forall u | 0 <= u < |s'.calls| ensures RegularCall(s', u) {
      assert RegularCall(s, u);
    }
  }

  // The other steps of a goroutine leave the channels alone.
  lemma RegularMoved(s: State, s': State, t: Ticket)
    requires RegularInv(s) && Moved(s, s', t)
    requires Active(s.calls[t].phase) || s.calls[t].phase.Fresh? || s'.requests == s.requests
    requires forall u :: 0 <= u < |s.calls| ==>
        s'.calls[u].ready == s.calls[u].ready && s'.calls[u].closed == s.calls[u].closed
    requires forall id :: id in s.requests && id != IdOf(s, t) ==>
        id in s'.requests && s'.requests[id] == s.requests[id]
    requires s.calls[t].phase.Fresh? ==> IdOf(s, t) !in s.requests || IdOf(s, t) in s'.requests
    requires IdOf(s, t) in s.requests && IdOf(s, t) in s'.requests ==> s'.requests[IdOf(s, t)] == s.requests[IdOf(s, t)]
    requires RegularCall(s', t)
    ensures RegularInv(s')
  {
    assert RegularCall(s, t);
    forall u | 0 <= u < |s'.calls| ensures RegularCall(s', u) {
      assert RegularCall(s, u);
    }
  }

  lemma RegularStore(s: State, t: Ticket)
    requires RegularInv(s) && Ready(s, t, Store)
    ensures RegularInv(Advance(s, t, Store))
  {
    assert RegularCall(s, t);
    StoreMoves(s, t);
    RegularMoved(s, Advance(s, t, Store), t);
  }

  lemma RegularDelete(s: State, t: Ticket)
    requires DeniedStaysLocal(s) && RegularInv(s) && Ready(s, t, Delete)
    ensures RegularInv(Advance(s, t, Delete))
  {
    assert RegularCall(s, t);
    OthersMove(s, t, Delete);
    RegularMoved(s, Advance(s, t, Delete), t);
  }

  lemma RegularAbort(s: State, t: Ticket)
    requires RegularInv(s) && Ready(s, t, Abort)
    ensures RegularInv(Advance(s, t, Abort))
  {
    assert RegularCall(s, t);
    OthersMove(s, t, Abort);
    RegularMoved(s, Advance(s, t, Abort), t);
  }

  lemma RegularWrite(s: State, t: Ticket, ok: bool)
    requires RegularInv(s) && Ready(s, t, Write(ok))
    ensures RegularInv(Advance(s, t, Write(ok)))
  {
    assert RegularCall(s, t);
    WriteMoves(s, t, ok);
    RegularMoved(s, Advance(s, t, Write(ok)), t);
  }

  lemma RegularRest(s: State, t: Ticket, act: Act)
    requires RegularInv(s) && Ready(s, t, act) && (act.Deny? || act.LoadConn? || act.OpenEntry? || act.Cancel?)
    ensures RegularInv(Advance(s, t, act))
  {
    assert RegularCall(s, t);
    OthersMove(s, t, act);
    RegularMoved(s, Advance(s, t, act), t);
  }

  lemma RegularStepG(s: State, t: Ticket, act: Act)
    requires DeniedStaysLocal(s) && RegularInv(s) && Ready(s, t, act) && !act.Duplicate?
    ensures RegularInv(Advance(s, t, act))
  {
    match act
    case Take => RegularTake(s, t);
    case Store => RegularStore(s, t);
    case Delete => RegularDelete(s, t);
    case Abort => RegularAbort(s, t);
    case Write(ok) => RegularWrite(s, t, ok);
    case _ => RegularRest(s, t, act);
  }

  lemma RegularReceive(s: State, f: Frame)
    requires Owners(s) && RegularInv(s) && s.poll.Reading?
    ensures RegularInv(Classify(s, Parsed(f)))
  {
    var s' := Classify(s, Parsed(f));
    assert s'.handled[..|s.handled|] == s.handled;
    if f.id in s.requests { assert Registered(s, f.id, s.requests[f.id]); }
    forall u | 0 <= u < |s'.calls| ensures RegularCall(s', u) {
      assert RegularCall(s, u);
    }
  }

  lemma RegularDeposit(s: State)
    requires RegularInv(s) && PollReady(s, Deposit)
    ensures RegularInv(PollAdvance(s, Deposit))
  {
    var s' := PollAdvance(s, Deposit);
    assert RegularCall(s, s.poll.entry);
    forall u | 0 <= u < |s'.calls| ensures RegularCall(s', u) {
      assert RegularCall(s, u);
    }
  }

  lemma RegularBegin(s: State, frames: seq<Frame>)
    requires RegularInv(s) && Enabled(s, Begin(frames))
    ensures RegularInv(Apply(s, Begin(frames)))
  {
    var s' := Apply(s, Begin(frames));
    forall u | 0 <= u < |s'.calls| ensures RegularCall(s', u) {
      if u < |s.calls| { assert RegularCall(s, u); } else { NoneRead(s.handled, u); }
    }
  }

  lemma {:induction false} NoneRead(h: seq<Handled>, t: Ticket)
    requires forall i :: 0 <= i < |h| ==> h[i].to != Some(t)
    ensures ReadFor(h, t) == 0
  {
    if h != [] { NoneRead(h[..|h| - 1], t); }
  }

  // What is left changes neither channels nor tables.
  lemma RegularSame(s: State, s': State)
    requires RegularInv(s) && s'.calls == s.calls && s'.requests == s.requests
    requires s'.handled == s.handled && s'.deny == s.deny
    requires if s.poll.Sending? then s'.poll == s.poll else !s'.poll.Sending?
    ensures RegularInv(s')
  {
    forall u | 0 <= u < |s'.calls| ensures RegularCall(s', u) {
      assert RegularCall(s, u);
    }
  }

  lemma RegularPoll(s: State, step: PollAct)
    requires Owners(s) && RegularInv(s) && PollReady(s, step)
    ensures RegularInv(PollAdvance(s, step))
  {
    match step
    case Receive(Parsed(f)) => RegularReceive(s, f);
    case Deposit => RegularDeposit(s);
    case _ => RegularSame(s, PollAdvance(s, step));
  }

  lemma RegularStep(s: State, ev: Event)
    requires Owners(s) && DeniedStaysLocal(s) && RegularInv(s) && Enabled(s, ev) && Regular(ev)
    ensures RegularInv(Apply(s, ev))
  {
    match ev
    case Client(t, act) => RegularStepG(s, t, act);
    case Poller(step) => RegularPoll(s, step);
    case Begin(frames) => RegularBegin(s, frames);
    case _ => RegularSame(s, Apply(s, ev));
  }

  lemma RegularTail(s: State, evs: seq<Event>, to: State)
    requires RegularRun(s, evs, to) && evs != []
    ensures Enabled(s, evs[0]) && Regular(evs[0]) && RegularRun(Apply(s, evs[0]), evs[1..], to)
  {
    assert forall i :: 0 <= i < |evs| - 1 ==> evs[1..][i] == evs[i + 1];
  }

  lemma {:induction false} RegularRuns(s: State, evs: seq<Event>, to: State)
    requires Inv(s) && RegularInv(s) && RegularRun(s, evs, to)
    ensures Inv(to) && RegularInv(to)
    decreases |evs|
  {
    if evs != [] {
      RegularTail(s, evs, to);
      RegularStep(s, evs[0]);
      InvStep(s, evs[0]);
      RegularRuns(Apply(s, evs[0]), evs[1..], to);
    }
  }

  lemma RegularReachable(deny: seq<string>, evs: seq<Event>, s: State)
    requires RegularRun(Initial(deny), evs, s)
    ensures Inv(s) && RegularInv(s)
  {
    InitialInv(deny);
    RegularRuns(Initial(deny), evs, s);
  }

  // `f` answers what goroutine `t` (or the replay of its request) wrote on the connection in use.
  predicate ReplyTo(s: State, f: Frame, t: Ticket) {
    t < |s.calls| && IdOf(s, t) == f.id && Sent(s.epoch, t) in s.sent
  }

  // A goroutine that has not given up stays registered until it is done.
  ghost predicate Kept(s: State, t: Ticket) {
    t < |s.calls| && !s.calls[t].phase.Fresh? && !s.calls[t].phase.Done? ==> RegisteredIn(s, t)
  }

  lemma KeptStep(s: State, ev: Event, t: Ticket)
    requires RegularInv(s) && Kept(s, t) && Enabled(s, ev) && Regular(ev) && ev != Client(t, Abort)
    ensures Kept(Apply(s, ev), t)
  {
    if ev.Client? {
      assert RegularCall(s, ev.t);
      GoroutineMoves(s, ev.t, ev.act);
    } else {
      PollSteps(s, ev);
    }
  }

  // One that has given up is never registered again.
  ghost predicate Dropped(s: State, t: Ticket) {
    t < |s.calls| && (s.calls[t].phase.Erred? || s.calls[t].phase.Failed?) && !RegisteredIn(s, t)
  }

  lemma DroppedStep(s: State, ev: Event, t: Ticket)
    requires Dropped(s, t) && Enabled(s, ev)
    ensures Dropped(Apply(s, ev), t)
  {
    if ev.Client? { GoroutineMoves(s, ev.t, ev.act); } else { PollSteps(s, ev); }
  }

  lemma KeptOrDropped(s: State, ev: Event, t: Ticket)
    requires RegularInv(s) && Enabled(s, ev) && Regular(ev)
    ensures ev != Client(t, Abort) && Kept(s, t) ==> Kept(Apply(s, ev), t)
    ensures ev == Client(t, Abort) || Dropped(s, t) ==> Dropped(Apply(s, ev), t)
  {
    if ev == Client(t, Abort) {
      assert RegularCall(s, t);
    } else {
      if Kept(s, t) { KeptStep(s, ev, t); }
      if Dropped(s, t) { DroppedStep(s, ev, t); }
    }
  }

  lemma {:induction false} KeptUnlessAborted(s: State, evs: seq<Event>, to: State, t: Ticket)
    requires Inv(s) && RegularInv(s) && RegularRun(s, evs, to)
    ensures Client(t, Abort) !in evs && Kept(s, t) ==> Kept(to, t)
    ensures Client(t, Abort) in evs || Dropped(s, t) ==> Dropped(to, t)
    decreases |evs|
  {
    if evs != [] {
      RegularTail(s, evs, to);
      RegularStep(s, evs[0]);
      InvStep(s, evs[0]);
      KeptOrDropped(s, evs[0], t);
      KeptUnlessAborted(Apply(s, evs[0]), evs[1..], to, t);
      assert evs == [evs[0]] + evs[1..];
    }
  }

  // A reply is sent to the channel of its request if and only if the goroutine of that request
  // has neither finished nor given up.
  lemma ReplyRoutedIffUnanswered(deny: seq<string>, evs: seq<Event>, s: State, f: Frame, t: Ticket)
    requires RegularRun(Initial(deny), evs, s) && s.poll.Reading? && ReplyTo(s, f, t)
    ensures Classify(s, Parsed(f)).poll == Sending(f, t) <==> !s.calls[t].phase.Done? && Client(t, Abort) !in evs
  {
    RegularReachable(deny, evs, s);
    InitialInv(deny);
    KeptUnlessAborted(Initial(deny), evs, s, t);
    assert RegularCall(s, t);
  }

  // Hence the first reply to a request is sent to its channel if and only if its goroutine has
  // not given up.
  lemma FirstReplyMatches(deny: seq<string>, evs: seq<Event>, s: State, f: Frame, t: Ticket)
    requires RegularRun(Initial(deny), evs, s) && s.poll.Reading? && ReplyTo(s, f, t)
    requires ReadFor(s.handled, t) == 0
    ensures Classify(s, Parsed(f)).poll == Sending(f, t) <==> Client(t, Abort) !in evs
  {
    ReplyRoutedIffUnanswered(deny, evs, s, f, t);
    RegularReachable(deny, evs, s);
    assert RegularCall(s, t);
  }

  /* ---------- what goes wrong after a failover ---------- */

  lemma Extend(s: State, evs: seq<Event>, mid: State, ev: Event) returns (evs': seq<Event>, next: State)
    requires RegularRun(s, evs, mid) && Enabled(mid, ev) && Regular(ev)
    ensures next == Apply(mid, ev) && evs' == evs + [ev] && RegularRun(s, evs', next)
  {
    RunSnoc(s, evs, mid, ev);
    evs', next := evs + [ev], Apply(mid, ev);
  }

  // The upstream fails; the next one gets everything that is registered.
  lemma SwapUpstream(start: State, evs: seq<Event>, s: State, id: int) returns (evs': seq<Event>, s': State)
    requires RegularRun(start, evs, s) && s.poll.Reading? && s.live && !s.unrecoverable
    requires id in s.requests && s.requests == map[id := s.requests[id]]
    ensures RegularRun(start, evs', s')
    ensures s' ==
        s.(broken := s.broken + {s.epoch}, epoch := s.epoch + 1, sent := s.sent + {Sent(s.epoch + 1, s.requests[id])})
  {
    evs', s' := Extend(start, evs, s, Poller(ReadError(false)));
    evs', s' := Extend(start, evs', s', Poller(Connect(true)));
    evs', s' := Extend(start, evs', s', Poller(LockForReplay));
    evs', s' := Extend(start, evs', s', Poller(Replay(id, true)));
    assert s'.poll.todo == map[];
    evs', s' := Extend(start, evs', s', Poller(Unlock));
  }

  lemma RequestWritten(f: Frame) returns (evs: seq<Event>, s: State)
    ensures RegularRun(Initial([]), evs, s)
    ensures s ==
        Initial([]).(requests := map[f.id := 0], calls := [Call(f, Written, None, false)], sent := {Sent(0, 0)})
  {
    evs, s := [], Initial([]);
    evs, s := Extend(Initial([]), evs, s, Begin([f]));
    evs, s := Extend(Initial([]), evs, s, Client(0, Store));
    evs, s := Extend(Initial([]), evs, s, Client(0, LoadConn));
    evs, s := Extend(Initial([]), evs, s, Client(0, Write(true)));
  }

  // A reply arrives and its goroutine takes it out of the channel, but is still registered.
  lemma ReplyTaken(f: Frame, r: Frame) returns (evs: seq<Event>, s: State)
    requires f.id == r.id
    ensures RegularRun(Initial([]), evs, s)
    ensures s == Initial([]).(requests := map[f.id := 0], calls := [Call(f, Taken(Some(r)), None, false)],
                              sent := {Sent(0, 0)}, handled := [Handled(0, r, Some(0))])
  {
    evs, s := RequestWritten(f);
    evs, s := Extend(Initial([]), evs, s, Client(0, OpenEntry));
    evs, s := Extend(Initial([]), evs, s, Poller(Receive(Parsed(r))));
    evs, s := Extend(Initial([]), evs, s, Poller(Deposit));
    evs, s := Extend(Initial([]), evs, s, Client(0, Take));
  }

  // The upstream fails before that goroutine has left `requests`, so its request is replayed
  // and answered again.  If the second reply comes after Delete, it is passed on to the client
  // as if it were a push, which also bars every further failover ...
  lemma LateReplyTakenForPush(f: Frame, r: Frame) returns (evs: seq<Event>, s: State)
    requires f.id == r.id
    ensures RegularRun(Initial([]), evs, s)
    ensures s.calls == [Call(f, Done(Some(r)), None, false)] && s.toClient == [r] && s.unrecoverable
  {
    evs, s := ReplyTaken(f, r);
    evs, s := SwapUpstream(Initial([]), evs, s, f.id);
    evs, s := Extend(Initial([]), evs, s, Client(0, Delete));
    evs, s := Extend(Initial([]), evs, s, Poller(Receive(Parsed(r))));
    evs, s := Extend(Initial([]), evs, s, Poller(Forward(true)));
  }

  // ... or, when the client has used the id again, becomes the answer of a request that has not
  // been written on any connection.
  lemma LateReplyAnswersNextRequest(f: Frame, r: Frame, g: Frame) returns (evs: seq<Event>, s: State)
    requires f.id == r.id == g.id
    ensures RegularRun(Initial([]), evs, s)
    ensures |s.calls| == 2 && s.calls[1].request == g && s.calls[1].ready == Some(r)
    ensures forall e :: Sent(e, 1) !in s.sent
  {
    evs, s := ReplyTaken(f, r);
    evs, s := SwapUpstream(Initial([]), evs, s, f.id);
    evs, s := Extend(Initial([]), evs, s, Client(0, Delete));
    evs, s := Extend(Initial([]), evs, s, Begin([g]));
    evs, s := Extend(Initial([]), evs, s, Client(1, Store));
    evs, s := Extend(Initial([]), evs, s, Poller(Receive(Parsed(r))));
    evs, s := Extend(Initial([]), evs, s, Poller(Deposit));
  }

  /* ---------- when the poll goroutine blocks for good ---------- */

  // It is sending to a full channel, and the only goroutine that would empty it will not.
  predicate Stuck(s: State) {
    && s.poll.Sending? && s.poll.entry < |s.calls|
    && var c := s.calls[s.poll.entry];
    c.ready.Some? && (c.phase.Taken? || c.phase.Erred? || Finished(c))
  }

  lemma StuckStays(s: State, ev: Event)
    requires RegularInv(s) && Stuck(s) && Enabled(s, ev) && Regular(ev)
    ensures Stuck(Apply(s, ev)) && Apply(s, ev).poll == s.poll
  {
    assert RegularCall(s, s.poll.entry);
    if ev.Client? {
      StuckStaysG(s, ev.t, ev.act);
    } else {
      PollSteps(s, ev);
    }
  }

  lemma StuckStaysG(s: State, t: Ticket, act: Act)
    requires RegularInv(s) && Stuck(s) && Ready(s, t, act) && Regular(Client(t, act))
    ensures Stuck(Advance(s, t, act)) && Advance(s, t, act).poll == s.poll
  {
    assert RegularCall(s, t);
    GoroutineMoves(s, t, act);
  }

  lemma {:induction false} StuckForever(s: State, evs: seq<Event>, to: State)
    requires Inv(s) && RegularInv(s) && Stuck(s) && RegularRun(s, evs, to)
    ensures to.poll == s.poll
    decreases |evs|
  {
    if evs != [] {
      RegularTail(s, evs, to);
      StuckStays(s, evs[0]);
      RegularStep(s, evs[0]);
      InvStep(s, evs[0]);
      StuckForever(Apply(s, evs[0]), evs[1..], to);
    }
  }

  // Otherwise the goroutine can go on to empty the channel.
  lemma SendCompletes(s: State) returns (evs: seq<Event>, to: State)
    requires Inv(s) && RegularInv(s) && s.poll.Sending? && !Stuck(s)
    ensures RegularRun(s, evs, to) && to.poll.Reading? && |to.calls| == |s.calls|
    ensures to.calls[s.poll.entry].ready == Some(s.poll.reply)
    ensures forall i :: 0 <= i < |evs| ==> !evs[i].Begin?
  {
    var t := s.poll.entry;
    evs, to := [], s;
    assert RegularCall(s, t);
    if s.calls[t].ready.Some? {
      evs, to := ReachTake(s, t);
      evs, to := Extend(s, evs, to, Client(t, Take));
    }
    evs, to := Extend(s, evs, to, Poller(Deposit));
  }

  lemma ReachTake(s: State, t: Ticket) returns (evs: seq<Event>, to: State)
    requires t < |s.calls| && RegularCall(s, t) && s.calls[t].ready.Some?
    requires !s.calls[t].phase.Taken? && !s.calls[t].phase.Erred? && !Finished(s.calls[t])
    ensures RegularRun(s, evs, to) && to.poll == s.poll && |to.calls| == |s.calls|
    ensures to.calls[t] == s.calls[t].(phase := Awaiting(t))
    ensures forall i :: 0 <= i < |evs| ==> !evs[i].Begin?
  {
    evs, to := [], s;
    if to.calls[t].phase.Stored? { evs, to := Extend(s, evs, to, Client(t, LoadConn)); }
    if to.calls[t].phase.Loaded? { evs, to := Extend(s, evs, to, Client(t, Write(true))); }
    if to.calls[t].phase.Written? { evs, to := Extend(s, evs, to, Client(t, OpenEntry)); }
  }

  // The send blocks for good if and only if it is of the third frame read for its goroutine, or
  // of the second if that goroutine has given up.
  lemma SendBlocksIff(deny: seq<string>, evs: seq<Event>, s: State)
    requires RegularRun(Initial(deny), evs, s) && s.poll.Sending?
    ensures s.poll.entry < |s.calls|
    ensures (forall more, to :: RegularRun(s, more, to) ==> to.poll == s.poll) <==>
            var c := s.calls[s.poll.entry];
            ReadFor(s.handled, s.poll.entry) == if c.phase.Erred? || c.phase.Failed? then 2 else 3
  {
    RegularReachable(deny, evs, s);
    assert RegularCall(s, s.poll.entry);
    if Stuck(s) {
      forall more, to | RegularRun(s, more, to) ensures to.poll == s.poll {
        StuckForever(s, more, to);
      }
    } else {
      var more, to := SendCompletes(s);
      assert RegularRun(s, more, to) && to.poll != s.poll;
    }
  }

  // Once the goroutine has left the map nothing at all can help, not even a reused id.
  ghost predicate Wedged(s: State) {
    && s.poll.Sending? && s.poll.entry < |s.calls|
    && var c := s.calls[s.poll.entry];
    && c.ready.Some? && !c.closed && !c.phase.Fresh?
    && (forall id :: id in s.requests ==> s.requests[id] != s.poll.entry)
    && (forall t :: 0 <= t < |s.calls| ==> s.calls[t].phase != Awaiting(s.poll.entry))
  }

  lemma WedgedStep(s: State, ev: Event)
    requires Wedged(s) && Enabled(s, ev)
    ensures Wedged(Apply(s, ev)) && Apply(s, ev).poll == s.poll
  {
    if ev.Client? { WedgedStepG(s, ev.t, ev.act); } else { WedgedStepP(s, ev); }
  }

  lemma WedgedStepG(s: State, t: Ticket, act: Act)
    requires Wedged(s) && Ready(s, t, act)
    ensures Wedged(Advance(s, t, act)) && Advance(s, t, act).poll == s.poll
  {
    GoroutineMoves(s, t, act);
  }

  lemma WedgedStepP(s: State, ev: Event)
    requires Wedged(s) && Enabled(s, ev) && !ev.Client?
    ensures Wedged(Apply(s, ev)) && Apply(s, ev).poll == s.poll
  {
    PollSteps(s, ev);
  }

  lemma {:induction false} WedgedForever(s: State, evs: seq<Event>, to: State)
    requires Wedged(s) && Run(s, evs, to)
    ensures Wedged(to) && to.poll == s.poll
    decreases |evs|
  {
    if evs != [] {
      WedgedStep(s, evs[0]);
      WedgedForever(Apply(s, evs[0]), evs[1..], to);
    }
  }

  // No goroutine is ever read more than three frames for.
  lemma ThreeAtMost(deny: seq<string>, evs: seq<Event>, s: State, t: Ticket)
    requires RegularRun(Initial(deny), evs, s) && t < |s.calls|
    ensures ReadFor(s.handled, t) <= 3
  {
    RegularReachable(deny, evs, s);
    assert RegularCall(s, t);
  }

  // Two failovers while a goroutine stands between receiving its reply and Delete bring it about.
  lemma CanWedge(f: Frame, r: Frame) returns (evs: seq<Event>, s: State)
    requires f.id == r.id
    ensures RegularRun(Initial([]), evs, s) && Stuck(s) && Wedged(s) && ReadFor(s.handled, 0) == 3
  {
    evs, s := ReplyTaken(f, r);
    evs, s := SwapUpstream(Initial([]), evs, s, f.id);
    evs, s := Extend(Initial([]), evs, s, Poller(Receive(Parsed(r))));
    evs, s := Extend(Initial([]), evs, s, Poller(Deposit));
    evs, s := SwapUpstream(Initial([]), evs, s, f.id);
    evs, s := Extend(Initial([]), evs, s, Poller(Receive(Parsed(r))));
    evs, s := Extend(Initial([]), evs, s, Client(0, Delete));
    RegularReachable([], evs, s);
    assert RegularCall(s, 0);
  }
}
