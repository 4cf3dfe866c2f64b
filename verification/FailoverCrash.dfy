/** Sending on a closed channel, which ends the whole process: while a client frame is served this
    is possible exactly if the frame uses an id twice and upstream frames are still being read. */
module FailoverCrash {
  import opened Wrappers
  import opened RpcFrames
  import opened Failover
  import opened FailoverSafety
  import opened FailoverReplies

  // No two entries that go upstream share an id.
  predicate DistinctIds(deny: seq<string>, frames: seq<Frame>) {
    forall i, j :: 0 <= i < j < |frames| && !AnsweredLocally(deny, frames[i]) && !AnsweredLocally(deny, frames[j]) ==>
      frames[i].id != frames[j].id
  }

  predicate Tidy(deny: seq<string>, ev: Event) { ev.Begin? ==> DistinctIds(deny, ev.frames) }

  ghost predicate TidyRun(deny: seq<string>, s: State, evs: seq<Event>, to: State) {
    Run(s, evs, to) && forall i :: 0 <= i < |evs| ==> Tidy(deny, evs[i])
  }

  // The entries of the frame being served have different ids, and nobody has closed a channel.
  ghost predicate TidyInv(s: State) {
    && (forall t, u :: s.base <= t < u < |s.calls| && !Local(s, s.calls[t]) && !Local(s, s.calls[u]) ==>
          IdOf(s, t) != IdOf(s, u))
    && (forall t :: 0 <= t < |s.calls| ==> !s.calls[t].closed)
    && !s.poll.Crashed?
  }

  lemma NoDuplicates(s: State, t: Ticket)
    requires Inv(s) && TidyInv(s)
    ensures !Ready(s, t, Duplicate)
  {
    if t < |s.calls| && IdOf(s, t) in s.requests {
      assert Registered(s, IdOf(s, t), s.requests[IdOf(s, t)]);
    }
  }

  // Only Duplicate closes a channel.
  lemma ClosedKept(s: State, t: Ticket, act: Act, u: Ticket)
    requires Ready(s, t, act) && !act.Duplicate? && u < |s.calls|
    ensures u < |Advance(s, t, act).calls| && Advance(s, t, act).calls[u].closed == s.calls[u].closed
  {
    match act
    case Take => TakeClosesNothing(s, t, u);
    case Write(ok) => WriteClosesNothing(s, t, ok, u);
    case _ => RestClosesNothing(s, t, act, u);
  }

  lemma TakeClosesNothing(s: State, t: Ticket, u: Ticket)
    requires Ready(s, t, Take) && u < |s.calls|
    ensures u < |Advance(s, t, Take).calls| && Advance(s, t, Take).calls[u].closed == s.calls[u].closed
  {
  }

  lemma WriteClosesNothing(s: State, t: Ticket, ok: bool, u: Ticket)
    requires Ready(s, t, Write(ok)) && u < |s.calls|
    ensures u < |Advance(s, t, Write(ok)).calls| && Advance(s, t, Write(ok)).calls[u].closed == s.calls[u].closed
  {
  }

  lemma RestClosesNothing(s: State, t: Ticket, act: Act, u: Ticket)
    requires Ready(s, t, act) && !act.Duplicate? && !act.Take? && !act.Write? && u < |s.calls|
    ensures u < |Advance(s, t, act).calls| && Advance(s, t, act).calls[u].closed == s.calls[u].closed
  {
  }

  lemma TidyStepG(s: State, t: Ticket, act: Act)
    requires TidyInv(s) && Ready(s, t, act) && !act.Duplicate?
    ensures TidyInv(Advance(s, t, act))
  {
    var s' := Advance(s, t, act);
    GoroutineMoves(s, t, act);
    forall u | 0 <= u < |s'.calls| ensures !s'.calls[u].closed { ClosedKept(s, t, act, u); }
    SameRequests(s, s');
  }

  lemma SameRequests(s: State, s': State)
    requires TidyInv(s) && s'.deny == s.deny && s'.base == s.base && |s'.calls| == |s.calls|
    requires forall u :: 0 <= u < |s.calls| ==> s'.calls[u].request == s.calls[u].request && !s'.calls[u].closed
    requires !s'.poll.Crashed?
    ensures TidyInv(s')
  {
  }

  lemma TidyPoll(s: State, step: PollAct)
    requires TidyInv(s) && PollReady(s, step)
    ensures TidyInv(PollAdvance(s, step))
  {
    SameRequests(s, PollAdvance(s, step));
  }

  lemma TidyBegin(s: State, frames: seq<Frame>)
    requires TidyInv(s) && Enabled(s, Begin(frames)) && DistinctIds(s.deny, frames)
    ensures TidyInv(Apply(s, Begin(frames)))
  {
    var s' := Apply(s, Begin(frames));
    forall t, u | s'.base <= t < u < |s'.calls| && !Local(s', s'.calls[t]) && !Local(s', s'.calls[u])
      ensures IdOf(s', t) != IdOf(s', u)
    {
      assert s'.calls[t].request == frames[t - |s.calls|] && s'.calls[u].request == frames[u - |s.calls|];
    }
  }

  lemma TidyStep(s: State, ev: Event)
    requires Inv(s) && TidyInv(s) && Enabled(s, ev) && Tidy(s.deny, ev)
    ensures TidyInv(Apply(s, ev))
    ensures ev.Client? ==> !ev.act.Duplicate?
  {
    match ev
    case Client(t, act) =>
      NoDuplicates(s, t);
      TidyStepG(s, t, act);
    case Poller(step) => TidyPoll(s, step);
    case Begin(frames) => TidyBegin(s, frames);
    case _ =>
  }

  lemma {:induction false} TidyRuns(s: State, evs: seq<Event>, to: State)
    requires Inv(s) && TidyInv(s) && TidyRun(s.deny, s, evs, to)
    ensures Inv(to) && TidyInv(to) && to.deny == s.deny
    ensures forall i :: 0 <= i < |evs| ==> (evs[i].Client? ==> !evs[i].act.Duplicate?)
    decreases |evs|
  {
    if evs != [] {
      var ev, next := evs[0], Apply(s, evs[0]);
      assert Tidy(s.deny, ev);
      TidyStep(s, ev);
      InvStep(s, ev);
      if ev.Client? { GoroutineMoves(s, ev.t, ev.act); } else { PollSteps(s, ev); }
      assert forall i :: 0 < i < |evs| ==> evs[i] == evs[1..][i - 1];
      assert forall i :: 0 <= i < |evs| - 1 ==> evs[1..][i] == evs[i + 1];
      TidyRuns(next, evs[1..], to);
    }
  }

  // As long as the client repeats no id within a frame, the proxy never panics ...
  lemma DistinctIdsNeverCrash(deny: seq<string>, evs: seq<Event>, s: State)
    requires TidyRun(deny, Initial(deny), evs, s)
    ensures !s.poll.Crashed?
  {
    InitialInv(deny);
    TidyRuns(Initial(deny), evs, s);
  }

  // ... and all its runs are regular.
  lemma DistinctIdsAreRegular(deny: seq<string>, evs: seq<Event>, s: State)
    requires TidyRun(deny, Initial(deny), evs, s)
    ensures RegularRun(Initial(deny), evs, s)
  {
    InitialInv(deny);
    TidyRuns(Initial(deny), evs, s);
  }

  // For such a client the poll goroutine blocks for good exactly as SendBlocksIff says.
  lemma TidySendBlocksIff(deny: seq<string>, evs: seq<Event>, s: State)
    requires TidyRun(deny, Initial(deny), evs, s) && s.poll.Sending?
    ensures s.poll.entry < |s.calls|
    ensures (forall more, to :: TidyRun(deny, s, more, to) ==> to.poll == s.poll) <==>
            var c := s.calls[s.poll.entry];
            ReadFor(s.handled, s.poll.entry) == if c.phase.Erred? || c.phase.Failed? then 2 else 3
  {
    InitialInv(deny);
    TidyRuns(Initial(deny), evs, s);
    DistinctIdsAreRegular(deny, evs, s);
    RegularReachable(deny, evs, s);
    assert RegularCall(s, s.poll.entry);
    if Stuck(s) {
      forall more, to | TidyRun(deny, s, more, to) ensures to.poll == s.poll {
        TidyRuns(s, more, to);
        StuckForever(s, more, to);
      }
    } else {
      var more, to := SendCompletes(s);
      assert TidyRun(deny, s, more, to) && to.poll != s.poll;
    }
  }

  /* ---------- any client ---------- */

  // A closed channel or a crash leaves its mark: a failed goroutine, and then a cancelled
  // connection.
  ghost predicate Unharmed(s: State) {
    !s.poll.Crashed? && forall t :: 0 <= t < |s.calls| ==> !s.calls[t].closed
  }

  ghost predicate Marked(s: State) {
    !s.live || exists t :: 0 <= t < |s.calls| && s.calls[t].phase.Erred?
  }

  lemma MarkStays(s: State, ev: Event)
    requires Marked(s) && Enabled(s, ev)
    ensures Marked(Apply(s, ev))
  {
    var s' := Apply(s, ev);
    if ev.Client? { GoroutineMoves(s, ev.t, ev.act); } else { PollSteps(s, ev); }
    if t :| 0 <= t < |s.calls| && s.calls[t].phase.Erred? {
      if !(ev.Client? && ev.t == t) { assert s'.calls[t].phase.Erred?; }
    }
  }

  lemma HarmMarks(s: State, ev: Event)
    requires Unharmed(s) && Enabled(s, ev)
    ensures Unharmed(Apply(s, ev)) || Marked(Apply(s, ev))
  {
    var s' := Apply(s, ev);
    if ev.Client? {
      if ev.act.Duplicate? {
        assert s'.calls[ev.t].phase.Erred?;
      } else {
        GoroutineMoves(s, ev.t, ev.act);
        forall u | 0 <= u < |s'.calls| ensures !s'.calls[u].closed { ClosedKept(s, ev.t, ev.act, u); }
      }
    } else {
      PollHarmless(s, ev);
    }
  }

  lemma PollHarmless(s: State, ev: Event)
    requires Unharmed(s) && Enabled(s, ev) && !ev.Client?
    ensures Unharmed(Apply(s, ev))
  {
  }

  lemma {:induction false} HarmIsMarked(s: State, evs: seq<Event>, to: State)
    requires (Unharmed(s) || Marked(s)) && Run(s, evs, to)
    ensures Unharmed(to) || Marked(to)
    decreases |evs|
  {
    if evs != [] {
      if Marked(s) { MarkStays(s, evs[0]); } else { HarmMarks(s, evs[0]); }
      HarmIsMarked(Apply(s, evs[0]), evs[1..], to);
    }
  }

  // Between client frames of a live connection nothing is registered and no channel is closed,
  // whatever ids the client has used before.
  lemma CleanBetweenFrames(deny: seq<string>, before: seq<Event>, s: State)
    requires Run(Initial(deny), before, s) && s.live && AllFinished(s.calls)
    ensures Inv(s) && s.deny == deny && Unharmed(s) && s.requests == map[]
  {
    InitialInv(deny);
    InvRun(Initial(deny), before, s);
    HarmIsMarked(Initial(deny), before, s);
    DenyKept(Initial(deny), before, s);
    if id :| id in s.requests { RegisteredMeansUnfinished(s, id); }
    assert forall id :: id !in s.requests;
  }

  lemma {:induction false} DenyKept(s: State, evs: seq<Event>, to: State)
    requires Run(s, evs, to)
    ensures to.deny == s.deny
    decreases |evs|
  {
    if evs != [] {
      if evs[0].Client? { GoroutineMoves(s, evs[0].t, evs[0].act); } else { PollSteps(s, evs[0]); }
      DenyKept(Apply(s, evs[0]), evs[1..], to);
    }
  }

  lemma Go(s: State, evs: seq<Event>, mid: State, ev: Event) returns (evs': seq<Event>, next: State)
    requires Run(s, evs, mid) && Enabled(mid, ev) && !ev.Begin?
    requires forall i :: 0 <= i < |evs| ==> !evs[i].Begin?
    ensures next == Apply(mid, ev) && Run(s, evs', next) && forall i :: 0 <= i < |evs'| ==> !evs'[i].Begin?
  {
    RunSnoc(s, evs, mid, ev);
    evs', next := evs + [ev], Apply(mid, ev);
  }

  // The first of two goroutines with one id has written its request, and the reply is on its way
  // into its channel.
  lemma ReplyComing(s: State, t: Ticket, reply: Frame) returns (evs: seq<Event>, to: State)
    requires t < |s.calls| && IdOf(s, t) == reply.id
    requires s.calls[t].phase.Fresh? && !Local(s, s.calls[t]) && s.requests == map[] && s.poll.Reading?
    ensures Run(s, evs, to) && forall i :: 0 <= i < |evs| ==> !evs[i].Begin?
    ensures to.poll == Sending(reply, t) && to.requests == map[reply.id := t] && to.deny == s.deny
    ensures |to.calls| == |s.calls| && forall u :: 0 <= u < |s.calls| && u != t ==> to.calls[u] == s.calls[u]
  {
    evs, to := [], s;
    evs, to := Go(s, evs, to, Client(t, Store));
    evs, to := Go(s, evs, to, Client(t, LoadConn));
    evs, to := Go(s, evs, to, Client(t, Write(true)));
    evs, to := Go(s, evs, to, Poller(Receive(Parsed(reply))));
  }

  // Now the second one closes that channel.
  lemma CanCrash(s: State, t: Ticket, u: Ticket, reply: Frame) returns (evs: seq<Event>, to: State)
    requires t < |s.calls| && u < |s.calls| && t != u && IdOf(s, t) == IdOf(s, u) == reply.id
    requires s.calls[t].phase.Fresh? && s.calls[u].phase.Fresh? && !Local(s, s.calls[t]) && !Local(s, s.calls[u])
    requires s.requests == map[] && s.poll.Reading?
    ensures Run(s, evs, to) && to.poll.Crashed? && forall i :: 0 <= i < |evs| ==> !evs[i].Begin?
  {
    evs, to := ReplyComing(s, t, reply);
    evs, to := Go(s, evs, to, Client(u, Duplicate));
    evs, to := Go(s, evs, to, Poller(Deposit));
  }

  // The poll goroutine can still get back to reading: it has not stopped, and it is not sending
  // to a full channel, which between frames nobody is left to empty.
  predicate CanRead(s: State) {
    !s.poll.Stopped? && !s.poll.Crashed?
    && (s.poll.Sending? ==> s.poll.entry < |s.calls| && s.calls[s.poll.entry].ready.None?)
  }

  // While a client frame is served, whatever the client has sent before, the poll goroutine can
  // crash if and only if the frame repeats an id and the poll goroutine can still read.
  lemma CrashIffIdRepeated(deny: seq<string>, before: seq<Event>, s: State, frames: seq<Frame>)
    requires Run(Initial(deny), before, s) && Enabled(s, Begin(frames))
    ensures (exists during, to :: ServedBy(s, frames, during, to) && to.poll.Crashed?)
            <==> !DistinctIds(deny, frames) && CanRead(s)
  {
    CleanBetweenFrames(deny, before, s);
    if !CanRead(s) {
      forall during, to | ServedBy(s, frames, during, to) ensures !to.poll.Crashed? {
        NeverReadsAgain(s, frames, during, to);
      }
    } else if DistinctIds(deny, frames) {
      InvStep(s, Begin(frames));
      CleanBegin(s, frames);
      forall during, to | ServedBy(s, frames, during, to) ensures !to.poll.Crashed? {
        TidyRuns(Apply(s, Begin(frames)), during, to);
      }
    } else {
      var i, j :| 0 <= i < j < |frames| && !AnsweredLocally(deny, frames[i]) && !AnsweredLocally(deny, frames[j])
                  && frames[i].id == frames[j].id;
      var during, to := RepeatedIdCrashes(s, frames, i, j);
    }
  }

  lemma CleanBegin(s: State, frames: seq<Frame>)
    requires Unharmed(s) && Enabled(s, Begin(frames)) && DistinctIds(s.deny, frames)
    ensures TidyInv(Apply(s, Begin(frames)))
  {
    var s' := Apply(s, Begin(frames));
    forall t, u | s'.base <= t < u < |s'.calls| && !Local(s', s'.calls[t]) && !Local(s', s'.calls[u])
      ensures IdOf(s', t) != IdOf(s', u)
    {
      assert s'.calls[t].request == frames[t - |s.calls|] && s'.calls[u].request == frames[u - |s.calls|];
    }
  }

  lemma NeverReadsAgain(s: State, frames: seq<Frame>, during: seq<Event>, to: State)
    requires Inv(s) && Unharmed(s) && s.requests == map[] && !CanRead(s)
    requires Enabled(s, Begin(frames)) && ServedBy(s, frames, during, to)
    ensures !to.poll.Crashed?
  {
    var started := Apply(s, Begin(frames));
    if s.poll.Stopped? {
      StoppedForGood(started, during, to);
    } else {
      assert Wedged(started) by {
        assert forall t :: 0 <= t < |s.calls| ==> Finished(started.calls[t]) && started.calls[t] == s.calls[t];
      }
      WedgedForever(started, during, to);
    }
  }

  lemma {:induction false} StoppedForGood(s: State, evs: seq<Event>, to: State)
    requires s.poll.Stopped? && Run(s, evs, to)
    ensures to.poll.Stopped?
    decreases |evs|
  {
    if evs != [] {
      if evs[0].Client? { GoroutineMoves(s, evs[0].t, evs[0].act); }
      StoppedForGood(Apply(s, evs[0]), evs[1..], to);
    }
  }

  // What getting back to reading leaves alone.
  ghost predicate Resumed(s: State, to: State) {
    && to.poll.Reading? && to.requests == s.requests && to.deny == s.deny && |to.calls| == |s.calls|
    && forall t :: 0 <= t < |s.calls| ==>
         to.calls[t].request == s.calls[t].request && to.calls[t].phase == s.calls[t].phase
  }

  lemma ResumesReading(s: State) returns (evs: seq<Event>, to: State)
    requires CanRead(s) && s.requests == map[] && Unharmed(s)
    ensures Run(s, evs, to) && Resumed(s, to) && forall i :: 0 <= i < |evs| ==> !evs[i].Begin?
  {
    evs, to := [], s;
    match s.poll
    case Reading =>
    case Sending(_, _) =>
      evs, to := Go(s, evs, to, Poller(Deposit));
    case Forwarding(_) =>
      evs, to := Go(s, evs, to, Poller(Forward(true)));
    case _ =>
      evs, to := FailoverEnds(s);
  }

  lemma {:induction false} FailoverEnds(s: State) returns (evs: seq<Event>, to: State)
    requires (s.poll.Recovering? || s.poll.Swapped? || s.poll.Replaying?) && s.requests == map[]
    ensures Run(s, evs, to) && Resumed(s, to) && forall i :: 0 <= i < |evs| ==> !evs[i].Begin?
    decreases if s.poll.Recovering? then 2 else if s.poll.Swapped? then 1 else 0
  {
    var ev;
    if s.poll.Replaying? {
      evs, to := ReplayEnds(s);
      return;
    } else if s.poll.Recovering? {
      ev := Poller(Connect(true));
    } else {
      ev := Poller(LockForReplay);
    }
    evs, to := FailoverEnds(Apply(s, ev));
    RunCons(s, ev, evs, to);
    evs := [ev] + evs;
  }

  // Nothing is registered, so there is nothing to replay.
  lemma {:induction false} ReplayEnds(s: State) returns (evs: seq<Event>, to: State)
    requires s.poll.Replaying? && s.requests == map[]
    ensures Run(s, evs, to) && Resumed(s, to) && forall i :: 0 <= i < |evs| ==> !evs[i].Begin?
    decreases if s.poll.Replaying? then s.poll.todo.Keys else {}
  {
    if s.poll.todo == map[] {
      evs, to := Go(s, [], s, Poller(Unlock));
    } else {
      assert s.poll.todo.Keys != {};
      var id := AnElement(s.poll.todo.Keys);
      var next := PollAdvance(s, SkipReplay(id));
      assert next.poll.todo.Keys == s.poll.todo.Keys - {id};
      evs, to := ReplayEnds(next);
      RunCons(s, Poller(SkipReplay(id)), evs, to);
      evs := [Poller(SkipReplay(id))] + evs;
    }
  }

  lemma {:induction false} RunAppend(s: State, evs: seq<Event>, more: seq<Event>, to: State)
    requires exists mid :: Run(s, evs, mid) && Run(mid, more, to)
    ensures Run(s, evs + more, to)
    decreases |evs|
  {
    var mid :| Run(s, evs, mid) && Run(mid, more, to);
    if evs == [] {
      assert evs + more == more;
    } else {
      RunAppend(Apply(s, evs[0]), evs[1..], more, to);
      assert (evs + more)[1..] == evs[1..] + more;
    }
  }

  lemma RepeatedIdCrashes(s: State, frames: seq<Frame>, i: nat, j: nat) returns (during: seq<Event>, to: State)
    requires Unharmed(s) && s.requests == map[] && CanRead(s) && Enabled(s, Begin(frames)) && i < j < |frames|
    requires !AnsweredLocally(s.deny, frames[i]) && !AnsweredLocally(s.deny, frames[j]) && frames[i].id == frames[j].id
    ensures ServedBy(s, frames, during, to) && to.poll.Crashed?
  {
    var started := Apply(s, Begin(frames));
    var t, u := |s.calls| + i, |s.calls| + j;
    assert started.calls[t] == Call(frames[i], Fresh, None, false);
    assert started.calls[u] == Call(frames[j], Fresh, None, false);
    var resumed;
    during, resumed := ResumesReading(started);
    var more;
    more, to := CanCrash(resumed, t, u, frames[i]);
    RunAppend(started, during, more, to);
    during := during + more;
  }

  // What can happen from the arrival of a client frame until the next one.
  ghost predicate ServedBy(s: State, frames: seq<Frame>, during: seq<Event>, to: State)
    requires Enabled(s, Begin(frames))
  {
    Run(Apply(s, Begin(frames)), during, to) && forall i :: 0 <= i < |during| ==> !during[i].Begin?
  }
}
