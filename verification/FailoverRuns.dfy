/** The promises of a proxied connection, over every run of `Failover`. */
module FailoverRuns {
  import opened Wrappers
  import opened RpcFrames
  import opened Failover
  import opened FailoverSafety

  lemma ReachableInv(deny: seq<string>, evs: seq<Event>, s: State)
    requires Run(Initial(deny), evs, s)
    ensures Inv(s)
  {
    InvRun(Initial(deny), evs, s);
  }

  lemma NoRequestLost(deny: seq<string>, evs: seq<Event>, s: State, id: int)
    requires Run(Initial(deny), evs, s)
    requires id in s.requests
    ensures s.requests[id] < |s.calls| && IdOf(s, s.requests[id]) == id && Safe(s, id)
    // in particular, when the poll goroutine is back to reading from a working connection and
    // the goroutine of the request has left UpstreamWrite, the request is on that connection
    ensures !s.poll.Swapped? && !s.poll.Replaying? && s.epoch !in s.broken && !s.calls[s.requests[id]].phase.Stored?
            && !s.calls[s.requests[id]].phase.Loaded? ==>
              Sent(s.epoch, s.requests[id]) in s.sent
  {
    ReachableInv(deny, evs, s);
    assert Registered(s, id, s.requests[id]);
  }

  // A failed write is passed over only while the connection can still be replaced.  Once a push
  // has been forwarded it fails the goroutine for good, which then never waits for a reply.
  lemma FailedWriteEnds(s: State, t: Ticket, ok: bool, evs: seq<Event>, to: State)
    requires Ready(s, t, Write(ok)) && Run(Advance(s, t, Write(ok)), evs, to)
    ensures t < |to.calls|
    ensures !ok && s.unrecoverable ==> to.calls[t].phase.Erred? || to.calls[t].phase.Failed?
    ensures Advance(s, t, Write(ok)).calls[t].phase.Written? <==> ok || !s.unrecoverable
    ensures ok ==> Sent(s.calls[t].phase.conn, t) in to.sent
    ensures !ok ==> s.calls[t].phase.conn in to.broken
  {
    FailureStays(Advance(s, t, Write(ok)), t, evs, to);
  }

  lemma {:induction false} FailureStays(s: State, t: Ticket, evs: seq<Event>, to: State)
    requires t < |s.calls| && Run(s, evs, to)
    ensures t < |to.calls| && s.sent <= to.sent && s.broken <= to.broken
    ensures s.calls[t].phase.Erred? || s.calls[t].phase.Failed? ==>
      to.calls[t].phase.Erred? || to.calls[t].phase.Failed?
    decreases |evs|
  {
    if evs != [] {
      if evs[0].Client? { GoroutineMoves(s, evs[0].t, evs[0].act); } else { PollSteps(s, evs[0]); }
      FailureStays(Apply(s, evs[0]), t, evs[1..], to);
    }
  }

  /* ---------- answers come back in the position and under the id of their request ---------- */

  lemma {:induction false} RequestsNeverChange(s: State, evs: seq<Event>, to: State)
    requires Inv(s) && Run(s, evs, to)
    ensures to.deny == s.deny && |s.calls| <= |to.calls|
    ensures forall t :: 0 <= t < |s.calls| ==> to.calls[t].request == s.calls[t].request
    decreases |evs|
  {
    if evs != [] {
      var next := Apply(s, evs[0]);
      if evs[0].Client? { GoroutineMoves(s, evs[0].t, evs[0].act); } else { PollSteps(s, evs[0]); }
      InvStep(s, evs[0]);
      RequestsNeverChange(next, evs[1..], to);
    }
  }

  lemma AnswersMatchRequests(deny: seq<string>, before: seq<Event>, s: State, frames: seq<Frame>,
                             after: seq<Event>, to: State, i: nat)
    requires Run(Initial(deny), before, s) && Enabled(s, Begin(frames))
    requires Run(Apply(s, Begin(frames)), after, to)
    requires i < |frames|
    ensures |s.calls| + i < |to.calls| && to.calls[|s.calls| + i].request == frames[i]
    ensures var p := to.calls[|s.calls| + i].phase;
      p.Done? && p.answer.Some? ==> p.answer.value.id == frames[i].id
    ensures Inv(to) && to.deny == deny
  {
    InitialInv(deny);
    RequestsNeverChange(Initial(deny), before, s);
    ReachableInv(deny, before, s);
    InvStep(s, Begin(frames));
    RequestsNeverChange(Apply(s, Begin(frames)), after, to);
    InvRun(Apply(s, Begin(frames)), after, to);
    assert RoutedCall(to, |s.calls| + i);
  }

  /* ---------- at most fifty requests in flight, none between client frames ---------- */

  lemma InFlightBound(deny: seq<string>, evs: seq<Event>, s: State)
    requires Run(Initial(deny), evs, s)
    ensures |s.requests| <= 50
    ensures s.live && AllFinished(s.calls) ==> s.requests == map[]
  {
    ReachableInv(deny, evs, s);
    if id :| s.live && id in s.requests { RegisteredMeansUnfinished(s, id); }
    assert forall id :: id in s.requests.Keys ==> Registered(s, id, s.requests[id]);
    DistinctOwners(s, s.requests.Keys, |s.calls|);
  }

  lemma {:induction false} DistinctOwners(s: State, ids: set<int>, n: nat)
    requires s.base <= n <= |s.calls| && ids <= s.requests.Keys
    requires forall id :: id in ids ==> s.base <= s.requests[id] < n && IdOf(s, s.requests[id]) == id
    ensures |ids| <= n - s.base
    decreases n
  {
    if n == s.base {
      assert forall id :: id !in ids;
      assert ids == {};
    } else {
      var last := IdOf(s, n - 1);
      DistinctOwners(s, ids - {last}, n - 1);
      assert |ids| <= |ids - {last}| + 1;
    }
  }

  /* ---------- every push comes from one upstream connection, in arrival order ---------- */

  lemma PushesFromOneConnection(deny: seq<string>, evs: seq<Event>, s: State)
    requires Run(Initial(deny), evs, s)
    ensures forall i, j :: 0 <= i < |s.handled| && 0 <= j < |s.handled| ==>
              s.handled[i].to.None? && s.handled[j].to.None? ==> s.handled[i].conn == s.handled[j].conn == s.epoch
    ensures s.toClient <= Forwarded(s.handled)
    ensures s.poll.Reading? ==> s.toClient == Forwarded(s.handled)
  {
    ReachableInv(deny, evs, s);
  }

  lemma {:induction false} PushPinsTheConnection(s: State, evs: seq<Event>, to: State)
    requires Inv(s) && s.unrecoverable && Run(s, evs, to)
    ensures to.unrecoverable && to.epoch == s.epoch
    decreases |evs|
  {
    if evs != [] {
      if evs[0].Client? { GoroutineMoves(s, evs[0].t, evs[0].act); }
      InvStep(s, evs[0]);
      PushPinsTheConnection(Apply(s, evs[0]), evs[1..], to);
    }
  }

  /* ---------- denied requests ---------- */

  lemma DeniedNeverReachesUpstream(deny: seq<string>, evs: seq<Event>, s: State, t: Ticket)
    requires Run(Initial(deny), evs, s)
    requires t < |s.calls| && AnsweredLocally(deny, s.calls[t].request)
    ensures forall e :: Sent(e, t) !in s.sent
    ensures t !in s.requests.Values
    ensures Finished(s.calls[t]) ==> s.calls[t].phase == Done(Some(Denial(s.calls[t].request.id)))
  {
    ReachableInv(deny, evs, s);
    RequestsNeverChange(Initial(deny), evs, s);
    InitialInv(deny);
    assert forall id :: id in s.requests ==> Registered(s, id, s.requests[id]);
  }

  // How far goroutine `t` has got makes no difference to the steps of anybody else.
  lemma OthersStayReady(s: State, t: Ticket, p: Phase, u: Ticket, act: Act)
    requires t < |s.calls| && Ready(s, u, act) && u != t
    ensures Ready(Move(s, t, p), u, act)
  {
  }

  lemma MovesSwap(s: State, t: Ticket, p: Phase, u: Ticket, q: Phase)
    requires t < |s.calls| && u < |s.calls| && t != u
    ensures Move(Move(s, t, p), u, q) == Move(Move(s, u, q), t, p)
  {
    var a, b := Move(Move(s, t, p), u, q), Move(Move(s, u, q), t, p);
    assert a.calls == b.calls;
  }

  lemma OthersActAlike(s: State, t: Ticket, p: Phase, u: Ticket, act: Act)
    requires t < |s.calls| && Ready(s, u, act) && u != t && Ready(Move(s, t, p), u, act)
    requires !act.Take? && !act.Duplicate?
    ensures t < |Advance(s, u, act).calls| && Advance(Move(s, t, p), u, act) == Move(Advance(s, u, act), t, p)
  {
    MovesSwap(s, t, p, u, Advance(s, u, act).calls[u].phase);
  }

  lemma TakesAlike(s: State, t: Ticket, p: Phase, u: Ticket)
    requires t < |s.calls| && Ready(s, u, Take) && u != t && Ready(Move(s, t, p), u, Take)
    ensures t < |Advance(s, u, Take).calls| && Advance(Move(s, t, p), u, Take) == Move(Advance(s, u, Take), t, p)
  {
    var c := s.calls[u].phase.entry;
    var q := Taken(s.calls[c].ready);
    MovesSwap(s, t, p, u, q);
    var a, b := SetReady(Move(Move(s, u, q), t, p), c, None), Move(SetReady(Move(s, u, q), c, None), t, p);
    assert a.calls == b.calls;
  }

  lemma DuplicatesAlike(s: State, t: Ticket, p: Phase, u: Ticket)
    requires t < |s.calls| && Ready(s, u, Duplicate) && u != t && Ready(Move(s, t, p), u, Duplicate)
    ensures t < |Advance(s, u, Duplicate).calls|
    ensures Advance(Move(s, t, p), u, Duplicate) == Move(Advance(s, u, Duplicate), t, p)
  {
    var owner := s.requests[IdOf(s, u)];
    var closed := s.(calls := s.calls[owner := s.calls[owner].(closed := true)]);
    var m := Move(s, t, p);
    var closed' := m.(calls := m.calls[owner := m.calls[owner].(closed := true)]);
    assert closed'.calls == Move(closed, t, p).calls;
    MovesSwap(closed, t, p, u, Erred);
  }

  lemma DepositsAlike(s: State, t: Ticket, p: Phase)
    requires t < |s.calls| && PollReady(s, Deposit)
    ensures PollReady(Move(s, t, p), Deposit) && t < |PollAdvance(s, Deposit).calls|
    ensures PollAdvance(Move(s, t, p), Deposit) == Move(PollAdvance(s, Deposit), t, p)
  {
    var a, b := PollAdvance(Move(s, t, p), Deposit), Move(PollAdvance(s, Deposit), t, p);
    assert a.calls == b.calls;
  }

  lemma ReceivesAlike(s: State, t: Ticket, p: Phase, msg: Incoming)
    requires t < |s.calls| && s.poll.Reading?
    ensures t < |Classify(s, msg).calls| && Classify(Move(s, t, p), msg) == Move(Classify(s, msg), t, p)
  {
  }

  lemma RestActsAlike(s: State, t: Ticket, p: Phase, step: PollAct)
    requires t < |s.calls| && PollReady(s, step) && !step.Deposit? && !step.Receive?
    ensures PollReady(Move(s, t, p), step) && t < |PollAdvance(s, step).calls|
    ensures PollAdvance(Move(s, t, p), step) == Move(PollAdvance(s, step), t, p)
  {
  }

  lemma PollActsAlike(s: State, t: Ticket, p: Phase, step: PollAct)
    requires t < |s.calls| && PollReady(s, step)
    ensures PollReady(Move(s, t, p), step) && t < |PollAdvance(s, step).calls|
    ensures PollAdvance(Move(s, t, p), step) == Move(PollAdvance(s, step), t, p)
  {
    match step
    case Deposit => DepositsAlike(s, t, p);
    case Receive(msg) => ReceivesAlike(s, t, p, msg);
    case _ => RestActsAlike(s, t, p, step);
  }

  lemma GoroutinesActAlike(s: State, t: Ticket, p: Phase, u: Ticket, act: Act)
    requires t < |s.calls| && Ready(s, u, act) && u != t
    ensures Ready(Move(s, t, p), u, act) && t < |Advance(s, u, act).calls|
    ensures Advance(Move(s, t, p), u, act) == Move(Advance(s, u, act), t, p)
  {
    OthersStayReady(s, t, p, u, act);
    match act
    case Take => TakesAlike(s, t, p, u);
    case Duplicate => DuplicatesAlike(s, t, p, u);
    case _ => OthersActAlike(s, t, p, u, act);
  }

  predicate Bystander(ev: Event, t: Ticket) { !ev.Begin? && (ev.Client? ==> ev.t != t) }

  lemma BystandersActAlike(s: State, t: Ticket, p: Phase, ev: Event)
    requires t < |s.calls| && Enabled(s, ev) && Bystander(ev, t)
    ensures Enabled(Move(s, t, p), ev) && t < |Apply(s, ev).calls|
    ensures Apply(Move(s, t, p), ev) == Move(Apply(s, ev), t, p)
  {
    if ev.Client? {
      GoroutinesActAlike(s, t, p, ev.t, ev.act);
    } else if ev.Poller? {
      PollActsAlike(s, t, p, ev.step);
    }
  }

  lemma CallsOnlyGrow(s: State, ev: Event)
    requires Enabled(s, ev)
    ensures |s.calls| <= |Apply(s, ev).calls|
  {
    if ev.Client? { GoroutineMoves(s, ev.t, ev.act); } else { PollSteps(s, ev); }
  }

  lemma {:induction false} BystandersRunAlike(s: State, t: Ticket, p: Phase, evs: seq<Event>, to: State)
    requires t < |s.calls| && Run(s, evs, to)
    requires forall i :: 0 <= i < |evs| ==> Bystander(evs[i], t)
    ensures t < |to.calls| && Run(Move(s, t, p), evs, Move(to, t, p))
    decreases |evs|
  {
    if evs != [] {
      var next := Apply(s, evs[0]);
      CallsOnlyGrow(s, evs[0]);
      BystandersActAlike(s, t, p, evs[0]);
      BystandersRunAlike(next, t, p, evs[1..], to);
      RunCons(Move(s, t, p), evs[0], evs[1..], Move(to, t, p));
      assert [evs[0]] + evs[1..] == evs;
    }
  }

  // Whatever the rest of the system does after a denied request has been answered, it could
  // equally have done before, and the outcome differs in the position of that request only.
  lemma DenialUnaffecting(s: State, t: Ticket, evs: seq<Event>, to: State)
    requires Enabled(s, Client(t, Deny)) && Run(s, evs, to)
    requires forall i :: 0 <= i < |evs| ==> Bystander(evs[i], t)
    ensures t < |to.calls| && Run(Apply(s, Client(t, Deny)), evs, Move(to, t, Done(Some(Denial(IdOf(s, t))))))
  {
    BystandersRunAlike(s, t, Done(Some(Denial(IdOf(s, t)))), evs, to);
  }
}
