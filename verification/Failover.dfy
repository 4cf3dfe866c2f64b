/** The life of one proxied websocket connection, as a transition system.

    Up to fifty client goroutines (one per entry of the client frame being served) share
    one `ProxiedConnection` with a single poll goroutine.  Every event below is one atomic
    step of one of them, or of the network.  A goroutine is named by its ticket, its index
    in `calls`; the ticket also names the one-slot channel `Ready` that the goroutine
    creates.  Upstream connections are numbered by epochs; `sent` records which request was
    written on which connection. */
module Failover {
  import opened Wrappers
  import opened RpcFrames

  type Epoch = nat
  type Ticket = nat

  datatype Phase =
    | Fresh                          // has not reached the deny list yet
    | Stored                         // in `requests`, has not looked at upstreamConn yet
    | Loaded(conn: Epoch)            // about to write on this connection
    | Written                        // UpstreamWrite returned nil
    | Awaiting(entry: Ticket)        // receiving from the channel of this ticket
    | Taken(reply: Option<Frame>)    // received; the deferred Delete has not run
    | Erred                          // returned an error; CancelConnection has not run
    | Done(answer: Option<Frame>)    // finished, this is what was written for the client
    | Failed                         // finished with an error

  // `ready` is the content of the channel's single slot.
  datatype Call = Call(request: Frame, phase: Phase, ready: Option<Frame>, closed: bool)

  datatype Poll =
    | Reading
    | Sending(reply: Frame, entry: Ticket)   // blocked in `ch.Ready <- response` until there is room
    | Forwarding(push: Frame)
    | Recovering                             // read failed, dialling another upstream
    | Swapped                                // upstreamConn replaced, lock not taken yet
    | Replaying(todo: map<int, Ticket>)      // holds `pause`
    | Stopped
    | Crashed                                // sent on a closed channel

  // A frame read from upstream: where it came from and whose channel it was meant for; without
  // one it counts as a push.
  datatype Handled = Handled(conn: Epoch, frame: Frame, to: Option<Ticket>)

  datatype Sent = Sent(conn: Epoch, ticket: Ticket)

  datatype State = State(
    deny: seq<string>,
    live: bool,                  // pc.ctx has not been cancelled
    epoch: Epoch,                // upstreamConn
    broken: set<Epoch>,
    requests: map<int, Ticket>,
    calls: seq<Call>,
    base: Ticket,                // first ticket of the client frame being served
    poll: Poll,
    unrecoverable: bool,
    sent: set<Sent>,
    handled: seq<Handled>,
    toClient: seq<Frame>)        // pushes written on the client connection

  // Steps of a client goroutine ...
  datatype Act =
    | Deny
    | Store
    | Duplicate
    | LoadConn
    | Write(ok: bool)
    | OpenEntry
    | Take
    | Abort
    | Delete
    | Cancel

  // ... and of the poll goroutine.
  datatype PollAct =
    | Receive(msg: Incoming)
    | Deposit
    | Forward(ok: bool)
    | ReadError(idle: bool)
    | Connect(ok: bool)
    | LockForReplay
    | Replay(id: int, ok: bool)
    | SkipReplay(id: int)
    | Unlock
    | Shutdown

  datatype Event =
    | Begin(frames: seq<Frame>)       // the client's next frame, a batch or a single request
    | ClientGone
    | Break(conn: Epoch)
    | Client(t: Ticket, act: Act)
    | Poller(step: PollAct)

  const MAX_BATCH := 50

  function Initial(deny: seq<string>): State {
    State(deny, true, 0, {}, map[], [], 0, Reading, false, {}, [], [])
  }

  predicate Finished(c: Call) { c.phase.Done? || c.phase.Failed? }

  predicate AllFinished(calls: seq<Call>) {
    forall t :: 0 <= t < |calls| ==> Finished(calls[t])
  }

  predicate Local(s: State, c: Call) { AnsweredLocally(s.deny, c.request) }

  function IdOf(s: State, t: Ticket): int
    requires t < |s.calls|
  {
    s.calls[t].request.id
  }

  predicate Ready(s: State, t: Ticket, act: Act) {
    t < |s.calls| &&
    var c := s.calls[t];
    match act
    case Deny => c.phase.Fresh? && Local(s, c)
    case Store => c.phase.Fresh? && !Local(s, c) && c.request.id !in s.requests && !s.poll.Replaying?
    case Duplicate => c.phase.Fresh? && !Local(s, c) && !s.poll.Replaying?
                      && c.request.id in s.requests && s.requests[c.request.id] < |s.calls|
    case LoadConn => c.phase.Stored?
    case Write(_) => c.phase.Loaded?
    case OpenEntry => c.phase.Written?
    case Take => c.phase.Awaiting? && c.phase.entry < |s.calls|
                 && (s.calls[c.phase.entry].ready.Some? || s.calls[c.phase.entry].closed)
    case Abort => c.phase.Awaiting?
    case Delete => c.phase.Taken?
    case Cancel => c.phase.Erred?
  }

  predicate PollReady(s: State, step: PollAct) {
    match step
    case Receive(_) => s.poll.Reading?
    case Deposit => s.poll.Sending? && s.poll.entry < |s.calls|
                    && (s.calls[s.poll.entry].closed || s.calls[s.poll.entry].ready.None?)
    case Forward(_) => s.poll.Forwarding?
    case ReadError(_) => s.poll.Reading?
    case Connect(_) => s.poll.Recovering?
    case LockForReplay => s.poll.Swapped?
    case Replay(id, _) => s.poll.Replaying? && id in s.poll.todo
    case SkipReplay(id) => s.poll.Replaying? && id in s.poll.todo && id !in s.requests
    case Unlock => s.poll.Replaying? && s.poll.todo == map[]
    case Shutdown => s.poll.Stopped?
  }

  predicate Enabled(s: State, ev: Event) {
    match ev
    case Begin(frames) => s.live && AllFinished(s.calls) && 1 <= |frames| <= MAX_BATCH
    case ClientGone => true
    case Break(e) => e <= s.epoch
    case Client(t, act) => Ready(s, t, act)
    case Poller(step) => PollReady(s, step)
  }

  // One goroutine moves on; its request and its channel are untouched.
  function Move(s: State, t: Ticket, p: Phase): State
    requires t < |s.calls|
  {
    s.(calls := s.calls[t := s.calls[t].(phase := p)])
  }

  function SetReady(s: State, c: Ticket, r: Option<Frame>): State
    requires c < |s.calls|
  {
    s.(calls := s.calls[c := s.calls[c].(ready := r)])
  }

  function Classify(s: State, msg: Incoming): State {
    match msg
    case Malformed => s.(poll := Stopped)
    case Parsed(f) =>
      if f.id in s.requests then
        s.(poll := Sending(f, s.requests[f.id]), handled := s.handled + [Handled(s.epoch, f, Some(s.requests[f.id]))])
      else
        s.(poll := Forwarding(f), unrecoverable := true, handled := s.handled + [Handled(s.epoch, f, None)])
  }

  function Advance(s: State, t: Ticket, act: Act): State
    requires Ready(s, t, act)
  {
    var id := IdOf(s, t);
    match act
    case Deny => Move(s, t, Done(Some(Denial(id))))
    case Store => Move(s, t, Stored).(requests := s.requests[id := t])
    case Duplicate =>
      var owner := s.requests[id];
      Move(s.(calls := s.calls[owner := s.calls[owner].(closed := true)]), t, Erred).(requests := s.requests - {id})
    case LoadConn => Move(s, t, Loaded(s.epoch))
    case Write(ok) =>
      var e := s.calls[t].phase.conn;
      if ok then Move(s, t, Written).(sent := s.sent + {Sent(e, t)})
      else Move(s, t, if s.unrecoverable then Erred else Written).(broken := s.broken + {e})
    case OpenEntry => Move(s, t, if id in s.requests then Awaiting(s.requests[id]) else Erred)
    case Take =>
      var c := s.calls[t].phase.entry;
      SetReady(Move(s, t, Taken(s.calls[c].ready)), c, None)
    case Abort => Move(s, t, Erred).(requests := s.requests - {id})
    case Delete => Move(s, t, Done(s.calls[t].phase.reply)).(requests := s.requests - {id})
    case Cancel => Move(s, t, Failed).(live := false)
  }

  function PollAdvance(s: State, step: PollAct): State
    requires PollReady(s, step)
  {
    match step
    case Receive(msg) => Classify(s, msg)
    case Deposit =>
      var c := s.poll.entry;
      if s.calls[c].closed then s.(poll := Crashed)
      else SetReady(s, c, Some(s.poll.reply)).(poll := Reading)
    case Forward(ok) =>
      if ok then s.(poll := Reading, toClient := s.toClient + [s.poll.push]) else s.(poll := Stopped)
    case ReadError(idle) =>
      if !s.live || s.unrecoverable || idle then s.(poll := Stopped)
      else s.(poll := Recovering, broken := s.broken + {s.epoch})
    case Connect(ok) => if ok then s.(poll := Swapped, epoch := s.epoch + 1) else s.(poll := Stopped)
    case LockForReplay => s.(poll := Replaying(s.requests))
    case Replay(id, ok) =>
      if ok then s.(poll := Replaying(s.poll.todo - {id}), sent := s.sent + {Sent(s.epoch, s.poll.todo[id])})
      else s.(poll := Stopped, broken := s.broken + {s.epoch})
    case SkipReplay(id) => s.(poll := Replaying(s.poll.todo - {id}))
    case Unlock => s.(poll := Reading)
    case Shutdown => s.(live := false)
  }

  function Apply(s: State, ev: Event): State
    requires Enabled(s, ev)
  {
    match ev
    case Begin(frames) =>
      s.(calls := s.calls + seq(|frames|, i requires 0 <= i < |frames| => Call(frames[i], Fresh, None, false)),
         base := |s.calls|)
    case ClientGone => s.(live := false)
    case Break(e) => s.(broken := s.broken + {e})
    case Client(t, act) => Advance(s, t, act)
    case Poller(step) => PollAdvance(s, step)
  }

  // `to` is reached from `s` by performing `evs` in order.
  ghost predicate Run(s: State, evs: seq<Event>, to: State)
    decreases |evs|
  {
    if evs == [] then s == to
    else Enabled(s, evs[0]) && Run(Apply(s, evs[0]), evs[1..], to)
  }

  lemma RunCons(s: State, ev: Event, evs: seq<Event>, to: State)
    requires Enabled(s, ev) && Run(Apply(s, ev), evs, to)
    ensures Run(s, [ev] + evs, to)
  {
    assert ([ev] + evs)[1..] == evs;
  }

  lemma {:induction false} RunSnoc(s: State, evs: seq<Event>, mid: State, ev: Event)
    requires Run(s, evs, mid) && Enabled(mid, ev)
    ensures Run(s, evs + [ev], Apply(mid, ev))
    decreases |evs|
  {
    if evs == [] {
      RunCons(s, ev, [], Apply(mid, ev));
    } else {
      RunSnoc(Apply(s, evs[0]), evs[1..], mid, ev);
      RunCons(s, evs[0], evs[1..] + [ev], Apply(mid, ev));
      assert [evs[0]] + (evs[1..] + [ev]) == evs + [ev];
    }
  }
}
