/** The request and subscription demultiplexer on the node's websocket, as a transition system.

    Callers submit frames in two steps, a write and then a store; one read loop hands what the
    node sends to the waiting channels; when reading stops, a broadcast fails the channels that
    are left.  A channel is named by its index in `calls` and remembers all it was sent. */
module Broker {
  import opened Wrappers
  import opened DecimalKeys

  type ChanId = nat

  // What the node sent.  `result` and `subscription` read as "" when they are not strings.
  datatype Frame = Frame(id: int, result: string, subscription: string, body: string)

  datatype Message = Deliver(frame: Frame) | Broken

  datatype Phase = Written | Stored | Failed

  // `written` and `since` are how many frames had arrived at the write and at the store.
  datatype Call = Call(id: int, sub: bool, phase: Phase, written: nat, since: nat, log: seq<Message>, closed: bool)

  // Range visits no key twice and misses none of those that were there all along (`due`).
  datatype Loop =
    | Reading
    | ClosingRequests(due: set<int>, visited: set<int>)
    | ClosingSubscriptions(dueKeys: set<string>, visitedKeys: set<string>)
    | Stopped

  datatype State = State(
    arrived: seq<Frame>,
    calls: seq<Call>,
    requests: map<int, ChanId>,
    subscriptions: map<string, ChanId>,
    loop: Loop)

  datatype Event =
    | Write(id: int, sub: bool, picked: int, ok: bool)   // `picked` is used when the caller gave no id
    | Store(c: ChanId)
    | Receive(frame: Frame)
    | Stop                                               // read error or cancelled context
    | FailRequest(id: int)
    | RequestsFailed
    | FailSubscription(key: string)
    | SubscriptionsFailed

  const MAX_PICK := 29999

  function Initial(): State { State([], [], map[], map[], Reading) }

  predicate Enabled(s: State, ev: Event) {
    match ev
    case Write(_, _, picked, _) => 1 <= picked <= MAX_PICK
    case Store(c) => c < |s.calls| && s.calls[c].phase.Written?
    case Receive(_) => s.loop.Reading?
    case Stop => s.loop.Reading?
    case FailRequest(id) =>
      && s.loop.ClosingRequests? && id in s.requests && id !in s.loop.visited
      && s.requests[id] < |s.calls|
    case RequestsFailed => s.loop.ClosingRequests? && s.loop.due == {}
    case FailSubscription(key) =>
      && s.loop.ClosingSubscriptions? && key in s.subscriptions && key !in s.loop.visitedKeys
      && s.subscriptions[key] < |s.calls|
    case SubscriptionsFailed => s.loop.ClosingSubscriptions? && s.loop.dueKeys == {}
  }

  function Send(s: State, c: ChanId, m: Message): State {
    if c < |s.calls| then s.(calls := s.calls[c := s.calls[c].(log := s.calls[c].log + [m])]) else s
  }

  function Fail(s: State, c: ChanId): State {
    if c < |s.calls| then
      s.(calls := s.calls[c := s.calls[c].(log := s.calls[c].log + [Broken], closed := true)])
    else s
  }

  function BeginShutdown(s: State): State { s.(loop := ClosingRequests(s.requests.Keys, {})) }

  // The channel waiting under `init` moves to the key the server chose.
  function Rekey(s: State, init: string, key: string): State
    requires init in s.subscriptions
  {
    s.(subscriptions := (s.subscriptions - {init})[key := s.subscriptions[init]])
  }

  function Answer(s: State, f: Frame): State
    requires f.id in s.requests
  {
    Send(s, s.requests[f.id], Deliver(f)).(requests := s.requests - {f.id})
  }

  function Dispatch(s: State, f: Frame): State {
    var s' := s.(arrived := s.arrived + [f]);
    if f.id == 0 then
      if f.subscription in s.subscriptions then Send(s', s.subscriptions[f.subscription], Deliver(f))
      else BeginShutdown(s')
    else if InitKey(f.id) in s.subscriptions then Rekey(s', InitKey(f.id), f.result)
    else if f.id in s.requests then Answer(s', f)
    else s'
  }

  function Submitted(s: State, id: int, sub: bool, picked: int, ok: bool): Call {
    Call(if id == 0 then picked else id, sub, if ok then Written else Failed, |s.arrived|, 0, [], false)
  }

  function MarkStored(s: State, c: ChanId): State
    requires c < |s.calls|
  {
    s.(calls := s.calls[c := s.calls[c].(phase := Stored, since := |s.arrived|)])
  }

  function Register(s: State, c: ChanId, init: string): State
    requires c < |s.calls|
  {
    if s.calls[c].sub then MarkStored(s, c).(subscriptions := s.subscriptions[init := c])
    else MarkStored(s, c).(requests := s.requests[s.calls[c].id := c])
  }

  function Apply(s: State, ev: Event): State
    requires Enabled(s, ev)
  {
    match ev
    case Write(id, sub, picked, ok) => s.(calls := s.calls + [Submitted(s, id, sub, picked, ok)])
    case Store(c) => Register(s, c, InitKey(s.calls[c].id))
    case Receive(f) => Dispatch(s, f)
    case Stop => BeginShutdown(s)
    case FailRequest(id) =>
      Fail(s, s.requests[id]).(loop := ClosingRequests(s.loop.due - {id}, s.loop.visited + {id}))
    case RequestsFailed => s.(loop := ClosingSubscriptions(s.subscriptions.Keys, {}))
    case FailSubscription(key) =>
      Fail(s, s.subscriptions[key]).(loop := ClosingSubscriptions(s.loop.dueKeys - {key}, s.loop.visitedKeys + {key}))
    case SubscriptionsFailed => s.(loop := Loop.Stopped)
  }

  ghost predicate Run(s: State, evs: seq<Event>, to: State)
    decreases |evs|
  {
    if evs == [] then s == to
    else Enabled(s, evs[0]) && Run(Apply(s, evs[0]), evs[1..], to)
  }

  lemma RunCons(s: State, ev: Event, evs: seq<Event>, to: State)
    requires Enabled(s, ev) && Run(Apply(s, ev), evs, to)
    ensures Run(s, [ev] + evs, to)
  {
    assert ([ev] + evs)[1..] == evs;
  }

  lemma {:induction false} RunSnoc(s: State, evs: seq<Event>, mid: State, ev: Event)
    requires Run(s, evs, mid) && Enabled(mid, ev)
    ensures Run(s, evs + [ev], Apply(mid, ev))
    decreases |evs|
  {
    if evs == [] {
      RunCons(s, ev, [], Apply(mid, ev));
    } else {
      RunSnoc(Apply(s, evs[0]), evs[1..], mid, ev);
      RunCons(s, evs[0], evs[1..] + [ev], Apply(mid, ev));
      assert [evs[0]] + (evs[1..] + [ev]) == evs + [ev];
    }
  }

  /* ---------- what holds whatever the callers and the node do ---------- */

  // Whether somebody will still send to the channel under this key.
  predicate RequestWaits(loop: Loop, id: int) {
    loop.Reading? || (loop.ClosingRequests? && id !in loop.visited)
  }

  predicate SubscriptionWaits(loop: Loop, key: string) {
    loop.Reading? || loop.ClosingRequests? || (loop.ClosingSubscriptions? && key !in loop.visitedKeys)
  }

  // A waiting channel is open, and for a request its single slot is free.
  predicate RequestEntry(s: State, id: int)
    requires id in s.requests
  {
    var c := s.requests[id];
    && c < |s.calls| && s.calls[c].phase.Stored? && !s.calls[c].sub && s.calls[c].id == id
    && (RequestWaits(s.loop, id) ==> s.calls[c].log == [] && !s.calls[c].closed)
  }

  predicate SubscriptionEntry(s: State, key: string)
    requires key in s.subscriptions
  {
    var c := s.subscriptions[key];
    && c < |s.calls| && s.calls[c].phase.Stored? && s.calls[c].sub
    && (SubscriptionWaits(s.loop, key) ==> !s.calls[c].closed)
  }

  ghost predicate Injective(m: map<string, ChanId>) {
    forall k, l :: k in m && l in m && m[k] == m[l] ==> k == l
  }

  predicate OnlyFrames(log: seq<Message>) { forall i :: 0 <= i < |log| ==> log[i].Deliver? }

  // A request has heard nothing, or its reply, or that the connection broke; a subscriber has
  // heard pushes, and then possibly that the connection broke.  Nobody hears anything before
  // the store.
  predicate Sound(c: Call) {
    if !c.phase.Stored? then c.log == [] && !c.closed
    else if c.closed then
      |c.log| > 0 && c.log[|c.log| - 1] == Broken && OnlyFrames(c.log[..|c.log| - 1]) && (!c.sub ==> |c.log| == 1)
    else
      OnlyFrames(c.log) && (!c.sub ==> |c.log| == 0 || (|c.log| == 1 && c.log[0].frame.id == c.id))
  }

  ghost predicate Inv(s: State) {
    && (forall id :: id in s.requests ==> RequestEntry(s, id))
    && (forall key :: key in s.subscriptions ==> SubscriptionEntry(s, key))
    && Injective(s.subscriptions)
    && (forall c :: 0 <= c < |s.calls| ==> Sound(s.calls[c]))
  }

  lemma InvRegister(s: State, c: ChanId, init: string)
    requires Inv(s) && c < |s.calls| && s.calls[c].phase.Written?
    ensures Inv(Register(s, c, init))
  {
    var s' := Register(s, c, init);
    forall id | id in s'.requests ensures RequestEntry(s', id) {
      if id in s.requests { assert RequestEntry(s, id); }
    }
    forall key | key in s'.subscriptions ensures SubscriptionEntry(s', key) {
      if key in s.subscriptions { assert SubscriptionEntry(s, key); }
    }
    assert forall key :: key in s.subscriptions ==> SubscriptionEntry(s, key) && s.subscriptions[key] != c;
  }

  lemma InvWrite(s: State, call: Call)
    requires Inv(s) && Sound(call)
    ensures Inv(s.(calls := s.calls + [call]))
  {
    var s' := s.(calls := s.calls + [call]);
    assert forall id :: id in s.requests ==> RequestEntry(s, id) && RequestEntry(s', id);
    assert forall key :: key in s.subscriptions ==> SubscriptionEntry(s, key) && SubscriptionEntry(s', key);
  }

  lemma InvRekey(s: State, init: string, key: string)
    requires Inv(s) && init in s.subscriptions && s.loop.Reading?
    ensures Inv(Rekey(s, init, key))
  {
    var s' := Rekey(s, init, key);
    assert SubscriptionEntry(s, init);
    forall id | id in s'.requests ensures RequestEntry(s', id) { assert RequestEntry(s, id); }
    forall k | k in s'.subscriptions ensures SubscriptionEntry(s', k) {
      if k != key { assert SubscriptionEntry(s, k); }
    }
  }

  lemma InvPush(s: State, f: Frame)
    requires Inv(s) && f.subscription in s.subscriptions && s.loop.Reading?
    ensures Inv(Send(s, s.subscriptions[f.subscription], Deliver(f)))
  {
    var s' := Send(s, s.subscriptions[f.subscription], Deliver(f));
    assert SubscriptionEntry(s, f.subscription);
    forall id | id in s'.requests ensures RequestEntry(s', id) { assert RequestEntry(s, id); }
    forall k | k in s'.subscriptions ensures SubscriptionEntry(s', k) { assert SubscriptionEntry(s, k); }
  }

  lemma InvAnswer(s: State, f: Frame)
    requires Inv(s) && f.id in s.requests && s.loop.Reading?
    ensures Inv(Answer(s, f))
  {
    var s' := Answer(s, f);
    assert RequestEntry(s, f.id);
    forall id | id in s'.requests ensures RequestEntry(s', id) { assert RequestEntry(s, id); }
    forall k | k in s'.subscriptions ensures SubscriptionEntry(s', k) { assert SubscriptionEntry(s, k); }
  }

  lemma InvDispatch(s: State, f: Frame)
    requires Inv(s) && s.loop.Reading?
    ensures Inv(Dispatch(s, f))
  {
    var s' := s.(arrived := s.arrived + [f]);
    assert forall id :: id in s.requests ==> RequestEntry(s, id) && RequestEntry(s', id);
    assert forall key :: key in s.subscriptions ==> SubscriptionEntry(s, key) && SubscriptionEntry(s', key);
    if f.id == 0 {
      if f.subscription in s.subscriptions {
        InvPush(s', f);
      } else {
        InvShutdown(s', Stop);
      }
    } else if InitKey(f.id) in s.subscriptions {
      InvRekey(s', InitKey(f.id), f.result);
    } else if f.id in s.requests {
      InvAnswer(s', f);
    }
  }

  lemma InvFailRequest(s: State, id: int)
    requires Inv(s) && Enabled(s, FailRequest(id))
    ensures Inv(Apply(s, FailRequest(id)))
  {
    var s' := Apply(s, FailRequest(id));
    assert RequestEntry(s, id);
    forall k | k in s'.requests ensures RequestEntry(s', k) { assert RequestEntry(s, k); }
    forall k | k in s'.subscriptions ensures SubscriptionEntry(s', k) { assert SubscriptionEntry(s, k); }
  }

  lemma InvFailSubscription(s: State, key: string)
    requires Inv(s) && Enabled(s, FailSubscription(key))
    ensures Inv(Apply(s, FailSubscription(key)))
  {
    var s' := Apply(s, FailSubscription(key));
    assert SubscriptionEntry(s, key);
    forall k | k in s'.requests ensures RequestEntry(s', k) { assert RequestEntry(s, k); }
    forall k | k in s'.subscriptions ensures SubscriptionEntry(s', k) { assert SubscriptionEntry(s, k); }
  }

  // The broadcast goes on to its next part.
  lemma InvNextPart(s: State, loop: Loop)
    requires Inv(s)
    requires forall id :: RequestWaits(loop, id) ==> RequestWaits(s.loop, id)
    requires forall key :: SubscriptionWaits(loop, key) ==> SubscriptionWaits(s.loop, key)
    ensures Inv(s.(loop := loop))
  {
    var s' := s.(loop := loop);
    forall k | k in s'.requests ensures RequestEntry(s', k) { assert RequestEntry(s, k); }
    forall k | k in s'.subscriptions ensures SubscriptionEntry(s', k) { assert SubscriptionEntry(s, k); }
  }

  lemma InvShutdown(s: State, ev: Event)
    requires Inv(s) && Enabled(s, ev) && !ev.Write? && !ev.Store? && !ev.Receive?
    ensures Inv(Apply(s, ev))
  {
    if ev.FailRequest? {
      InvFailRequest(s, ev.id);
    } else if ev.FailSubscription? {
      InvFailSubscription(s, ev.key);
    } else {
      InvNextPart(s, Apply(s, ev).loop);
    }
  }

  lemma InvStep(s: State, ev: Event)
    requires Inv(s) && Enabled(s, ev)
    ensures Inv(Apply(s, ev))
  {
    if ev.Write? {
      InvWrite(s, Submitted(s, ev.id, ev.sub, ev.picked, ev.ok));
    } else if ev.Store? {
      InvRegister(s, ev.c, InitKey(s.calls[ev.c].id));
    } else if ev.Receive? {
      InvDispatch(s, ev.frame);
    } else {
      InvShutdown(s, ev);
    }
  }

  lemma {:induction false} InvRun(s: State, evs: seq<Event>, to: State)
    requires Inv(s) && Run(s, evs, to)
    ensures Inv(to)
    decreases |evs|
  {
    if evs != [] {
      InvStep(s, evs[0]);
      InvRun(Apply(s, evs[0]), evs[1..], to);
    }
  }
}
