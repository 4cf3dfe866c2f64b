/** Where the answers come from: every answer that is not a denial is a frame read from an upstream
    while its client frame was served, for an entry with its id. */
module FailoverSources {
  import opened Wrappers
  import opened RpcFrames
  import opened Failover
  import opened FailoverSafety

  // The frame was read for goroutine `u`.
  ghost predicate CameFor(s: State, f: Frame, u: Ticket) {
    exists k :: 0 <= k < |s.handled| && s.handled[k].frame == f && s.handled[k].to == Some(u)
  }

  // Every frame on its way to a goroutine was read for it.
  ghost predicate ChannelsSourced(s: State) {
    && (forall c :: 0 <= c < |s.calls| && s.calls[c].ready.Some? ==> CameFor(s, s.calls[c].ready.value, c))
    && (s.poll.Sending? ==> CameFor(s, s.poll.reply, s.poll.entry))
    && (forall k :: 0 <= k < |s.handled| && s.handled[k].to.Some? ==> s.handled[k].to.value < |s.calls|)
  }

  // The goroutines from `b` to `e` serve one client frame, the current one or an earlier one.
  ghost predicate Together(s: State, b: Ticket, e: Ticket) {
    b <= e <= |s.calls| && ((s.base == b && |s.calls| == e) || s.base >= e)
  }

  // An entry of that frame that went upstream under the id of `t`.
  predicate Sibling(s: State, b: Ticket, e: Ticket, t: Ticket, u: Ticket) {
    t < |s.calls| && b <= u < e <= |s.calls| && IdOf(s, u) == IdOf(s, t) && !Local(s, s.calls[u])
  }

  ghost predicate Sourced(s: State, b: Ticket, e: Ticket, t: Ticket, f: Frame) {
    exists u :: Sibling(s, b, e, t, u) && CameFor(s, f, u)
  }

  // Whatever one of them holds was read for one of them.
  ghost predicate CallSourced(s: State, b: Ticket, e: Ticket, t: Ticket)
    requires t < |s.calls|
  {
    var c := s.calls[t];
    && (c.phase.Awaiting? ==> Sibling(s, b, e, t, c.phase.entry))
    && (c.phase.Taken? && c.phase.reply.Some? ==> Sourced(s, b, e, t, c.phase.reply.value))
    && (c.phase.Done? && c.phase.answer.Some? && !Local(s, c) ==> Sourced(s, b, e, t, c.phase.answer.value))
  }

  ghost predicate AllSourced(s: State, b: Ticket, e: Ticket) {
    Together(s, b, e) && ChannelsSourced(s) && forall t :: b <= t < e ==> CallSourced(s, b, e, t)
  }

  // What keeps a source a source.
  ghost predicate Later(s: State, s': State) {
    && s'.deny == s.deny && |s.calls| <= |s'.calls| && s.handled <= s'.handled
    && forall u :: 0 <= u < |s.calls| ==> s'.calls[u].request == s.calls[u].request
  }

  lemma StaysSourced(s: State, s': State, b: Ticket, e: Ticket, t: Ticket, f: Frame)
    requires Later(s, s') && Sourced(s, b, e, t, f)
    ensures Sourced(s', b, e, t, f)
  {
    var u: nat :| Sibling(s, b, e, t, u) && CameFor(s, f, u);
    StillCameFor(s, s', f, u);
    assert Sibling(s', b, e, t, u);
  }

  lemma StillCameFor(s: State, s': State, f: Frame, u: Ticket)
    requires Later(s, s') && CameFor(s, f, u)
    ensures CameFor(s', f, u)
  {
    var k :| 0 <= k < |s.handled| && s.handled[k].frame == f && s.handled[k].to == Some(u);
    assert s'.handled[k] == s.handled[k];
  }

  // A goroutine that holds the same as before still holds what was read for its frame.
  lemma CallStays(s: State, s': State, b: Ticket, e: Ticket, t: Ticket)
    requires Later(s, s') && t < |s.calls| && CallSourced(s, b, e, t) && s'.calls[t].phase == s.calls[t].phase
    ensures CallSourced(s', b, e, t)
  {
    var p := s.calls[t].phase;
    if p.Taken? && p.reply.Some? { StaysSourced(s, s', b, e, t, p.reply.value); }
    if p.Done? && p.answer.Some? && !Local(s, s.calls[t]) { StaysSourced(s, s', b, e, t, p.answer.value); }
  }

  lemma EventIsLater(s: State, ev: Event)
    requires Enabled(s, ev)
    ensures Later(s, Apply(s, ev))
  {
    if ev.Client? { GoroutineMoves(s, ev.t, ev.act); } else { PollSteps(s, ev); }
  }

  /* ---------- channels ---------- */

  lemma ReadyKept(s: State, t: Ticket, act: Act, c: Ticket)
    requires Ready(s, t, act) && c < |s.calls|
    ensures c < |Advance(s, t, act).calls|
    ensures Advance(s, t, act).calls[c].ready.Some? ==> Advance(s, t, act).calls[c].ready == s.calls[c].ready
  {
    match act
    case Take => TakeEmpties(s, t, c);
    case Duplicate => DuplicateLeavesSlots(s, t, c);
    case _ =>
  }

  lemma TakeEmpties(s: State, t: Ticket, c: Ticket)
    requires Ready(s, t, Take) && c < |s.calls|
    ensures c < |Advance(s, t, Take).calls|
    ensures Advance(s, t, Take).calls[c].ready.Some? ==> Advance(s, t, Take).calls[c].ready == s.calls[c].ready
  {
  }

  lemma DuplicateLeavesSlots(s: State, t: Ticket, c: Ticket)
    requires Ready(s, t, Duplicate) && c < |s.calls|
    ensures c < |Advance(s, t, Duplicate).calls| && Advance(s, t, Duplicate).calls[c].ready == s.calls[c].ready
  {
  }

  lemma ChannelsStepG(s: State, t: Ticket, act: Act)
    requires ChannelsSourced(s) && Ready(s, t, act)
    ensures ChannelsSourced(Advance(s, t, act))
  {
    var s' := Advance(s, t, act);
    GoroutineMoves(s, t, act);
    assert s'.handled == s.handled;
    forall c | 0 <= c < |s'.calls| && s'.calls[c].ready.Some? ensures CameFor(s', s'.calls[c].ready.value, c) {
      ReadyKept(s, t, act, c);
      assert CameFor(s, s.calls[c].ready.value, c);
    }
  }

  lemma ChannelsReceive(s: State, msg: Incoming)
    requires Owners(s) && ChannelsSourced(s) && s.poll.Reading?
    ensures ChannelsSourced(Classify(s, msg))
  {
    var s' := Classify(s, msg);
    assert Later(s, s');
    if msg.Parsed? && msg.frame.id in s.requests {
      assert Registered(s, msg.frame.id, s.requests[msg.frame.id]);
      assert s'.handled[|s.handled|].frame == msg.frame && s'.handled[|s.handled|].to == Some(s.requests[msg.frame.id]);
    }
    forall c | 0 <= c < |s'.calls| && s'.calls[c].ready.Some? ensures CameFor(s', s'.calls[c].ready.value, c) {
      StillCameFor(s, s', s.calls[c].ready.value, c);
    }
  }

  lemma ChannelsRest(s: State, ev: Event)
    requires ChannelsSourced(s) && Enabled(s, ev) && !ev.Client? && !(ev.Poller? && ev.step.Receive?)
    ensures ChannelsSourced(Apply(s, ev))
  {
    var s' := Apply(s, ev);
    PollSteps(s, ev);
    assert s'.handled == s.handled;
    forall c | 0 <= c < |s'.calls| && s'.calls[c].ready.Some? ensures CameFor(s', s'.calls[c].ready.value, c) {
      if ev == Poller(Deposit) && c == s.poll.entry {
        assert CameFor(s, s.poll.reply, c);
      } else {
        assert c < |s.calls| && CameFor(s, s.calls[c].ready.value, c);
      }
    }
    if s'.poll.Sending? { assert CameFor(s, s.poll.reply, s.poll.entry); }
  }

  /* ---------- goroutines ---------- */

  lemma OpenEntrySourced(s: State, b: Ticket, e: Ticket, t: Ticket)
    requires Inv(s) && AllSourced(s, b, e) && b <= t < e && Ready(s, t, OpenEntry)
    ensures CallSourced(Advance(s, t, OpenEntry), b, e, t)
  {
    assert s.base <= t;
    if IdOf(s, t) in s.requests { assert Registered(s, IdOf(s, t), s.requests[IdOf(s, t)]); }
    OthersMove(s, t, OpenEntry);
  }

  lemma TakeSourced(s: State, b: Ticket, e: Ticket, t: Ticket)
    requires AllSourced(s, b, e) && b <= t < e && Ready(s, t, Take)
    ensures CallSourced(Advance(s, t, Take), b, e, t)
  {
    var s', entry := Advance(s, t, Take), s.calls[t].phase.entry;
    assert CallSourced(s, b, e, t);
    TakeMoves(s, t);
    if s.calls[entry].ready.Some? {
      assert CameFor(s, s.calls[entry].ready.value, entry);
      StaysSourced(s, s', b, e, t, s.calls[entry].ready.value);
    }
  }

  lemma DeleteSourced(s: State, b: Ticket, e: Ticket, t: Ticket)
    requires AllSourced(s, b, e) && b <= t < e && Ready(s, t, Delete)
    ensures CallSourced(Advance(s, t, Delete), b, e, t)
  {
    assert CallSourced(s, b, e, t);
    OthersMove(s, t, Delete);
    if s.calls[t].phase.reply.Some? { StaysSourced(s, Advance(s, t, Delete), b, e, t, s.calls[t].phase.reply.value); }
  }

  lemma MoverSourced(s: State, b: Ticket, e: Ticket, t: Ticket, act: Act)
    requires Inv(s) && AllSourced(s, b, e) && b <= t < e && Ready(s, t, act)
    ensures t < |Advance(s, t, act).calls| && CallSourced(Advance(s, t, act), b, e, t)
  {
    GoroutineMoves(s, t, act);
    match act
    case OpenEntry => OpenEntrySourced(s, b, e, t);
    case Take => TakeSourced(s, b, e, t);
    case Delete => DeleteSourced(s, b, e, t);
    case _ =>
  }

  lemma SourcedStep(s: State, b: Ticket, e: Ticket, ev: Event)
    requires Inv(s) && AllSourced(s, b, e) && Enabled(s, ev)
    ensures AllSourced(Apply(s, ev), b, e)
  {
    var s' := Apply(s, ev);
    EventIsLater(s, ev);
    if ev.Client? {
      ChannelsStepG(s, ev.t, ev.act);
      GoroutineMoves(s, ev.t, ev.act);
    } else {
      PollSteps(s, ev);
      if ev.Poller? && ev.step.Receive? { ChannelsReceive(s, ev.step.msg); } else { ChannelsRest(s, ev); }
    }
    forall t | b <= t < e ensures CallSourced(s', b, e, t) {
      if ev.Client? && ev.t == t { MoverSourced(s, b, e, t, ev.act); } else { CallStays(s, s', b, e, t); }
    }
  }

  lemma {:induction false} SourcedRun(s: State, b: Ticket, e: Ticket, evs: seq<Event>, to: State)
    requires Inv(s) && AllSourced(s, b, e) && Run(s, evs, to)
    ensures Inv(to) && AllSourced(to, b, e) && Later(s, to)
    decreases |evs|
  {
    if evs != [] {
      SourcedStep(s, b, e, evs[0]);
      EventIsLater(s, evs[0]);
      InvStep(s, evs[0]);
      SourcedRun(Apply(s, evs[0]), b, e, evs[1..], to);
    }
  }

  // Read since `s`, for an entry that went upstream under the id of entry i.
  ghost predicate ReadDuring(deny: seq<string>, s: State, frames: seq<Frame>, to: State, i: nat, f: Frame)
    requires i < |frames|
  {
    exists k, j ::
      && |s.handled| <= k < |to.handled| && 0 <= j < |frames|
      && to.handled[k].frame == f && to.handled[k].to == Some(|s.calls| + j)
      && frames[j].id == frames[i].id && !AnsweredLocally(deny, frames[j])
  }

  // An answer to entry i of a client frame is the denial, or a frame that was read from an
  // upstream while the client frame was served, for an entry that went upstream under its id.
  lemma AnswersComeFromUpstream(deny: seq<string>, before: seq<Event>, s: State, frames: seq<Frame>,
                                during: seq<Event>, to: State, i: nat)
    requires Run(Initial(deny), before, s) && Enabled(s, Begin(frames)) && Run(Apply(s, Begin(frames)), during, to)
    requires i < |frames| && !AnsweredLocally(deny, frames[i])
    ensures |s.calls| + i < |to.calls|
    ensures var p := to.calls[|s.calls| + i].phase;
      p.Done? && p.answer.Some? ==> ReadDuring(deny, s, frames, to, i, p.answer.value)
  {
    SourcedBefore(deny, before, s);
    StartsSourced(s, frames);
    ServedSourced(s, frames, Apply(s, Begin(frames)), during, to, i);
  }

  lemma SourcedBefore(deny: seq<string>, before: seq<Event>, s: State)
    requires Run(Initial(deny), before, s)
    ensures Inv(s) && ChannelsSourced(s) && s.deny == deny
  {
    InitialInv(deny);
    SourcedRun(Initial(deny), 0, 0, before, s);
  }

  lemma ServedSourced(s: State, frames: seq<Frame>, started: State, during: seq<Event>, to: State, i: nat)
    requires ChannelsSourced(s) && Begun(s, frames, started) && Inv(started)
    requires AllSourced(started, |s.calls|, |s.calls| + |frames|) && Run(started, during, to)
    requires i < |frames| && !AnsweredLocally(s.deny, frames[i])
    ensures |s.calls| + i < |to.calls|
    ensures var p := to.calls[|s.calls| + i].phase;
      p.Done? && p.answer.Some? ==> ReadDuring(s.deny, s, frames, to, i, p.answer.value)
  {
    SourcedRun(started, |s.calls|, |s.calls| + |frames|, during, to);
    assert CallSourced(to, |s.calls|, |s.calls| + |frames|, |s.calls| + i);
    AnswerIsRead(s, frames, started, to, i);
  }

  // The client frame has begun to be served.
  ghost predicate Begun(s: State, frames: seq<Frame>, started: State) {
    && started.handled == s.handled && started.deny == s.deny && |started.calls| == |s.calls| + |frames|
    && forall i :: 0 <= i < |frames| ==> started.calls[|s.calls| + i].request == frames[i]
  }

  lemma StartsSourced(s: State, frames: seq<Frame>)
    requires Inv(s) && ChannelsSourced(s) && Enabled(s, Begin(frames))
    ensures Inv(Apply(s, Begin(frames))) && Begun(s, frames, Apply(s, Begin(frames)))
    ensures AllSourced(Apply(s, Begin(frames)), |s.calls|, |s.calls| + |frames|)
  {
    InvStep(s, Begin(frames));
    ChannelsRest(s, Begin(frames));
  }

  lemma AnswerIsRead(s: State, frames: seq<Frame>, started: State, to: State, i: nat)
    requires ChannelsSourced(s) && Begun(s, frames, started) && Later(started, to)
    requires i < |frames| && !AnsweredLocally(s.deny, frames[i])
    requires CallSourced(to, |s.calls|, |s.calls| + |frames|, |s.calls| + i)
    ensures var p := to.calls[|s.calls| + i].phase;
      p.Done? && p.answer.Some? ==> ReadDuring(s.deny, s, frames, to, i, p.answer.value)
  {
    var b, p := |s.calls|, to.calls[|s.calls| + i].phase;
    if p.Done? && p.answer.Some? {
      assert to.calls[b + i].request == frames[i];
      var u: nat :| Sibling(to, b, b + |frames|, b + i, u) && CameFor(to, p.answer.value, u);
      SourceIsRead(s, frames, started, to, u, p.answer.value);
      assert to.calls[u].request == frames[u - b];
    }
  }

  lemma SourceIsRead(s: State, frames: seq<Frame>, started: State, to: State, u: nat, f: Frame)
    requires ChannelsSourced(s) && Begun(s, frames, started) && Later(started, to)
    requires |s.calls| <= u < |s.calls| + |frames| && CameFor(to, f, u)
    ensures exists k ::
      && |s.handled| <= k < |to.handled|
      && to.handled[k].frame == f && to.handled[k].to == Some(|s.calls| + (u - |s.calls|))
  {
    var k :| 0 <= k < |to.handled| && to.handled[k].frame == f && to.handled[k].to == Some(u);
    assert forall i :: 0 <= i < |s.handled| ==> to.handled[i] == s.handled[i];
  }
}
