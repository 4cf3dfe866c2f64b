/** What holds over whole runs of the broker. */
module BrokerRuns {
  import opened Wrappers
  import opened DecimalKeys
  import opened Broker

  lemma ReachableInv(evs: seq<Event>, s: State)
    requires Run(Initial(), evs, s)
    ensures Inv(s)
  {
    InvRun(Initial(), evs, s);
  }

  // The channel an event sends to.
  function Target(s: State, ev: Event): Option<ChanId> {
    match ev
    case Receive(f) =>
      if f.id == 0 then
        if f.subscription in s.subscriptions then Some(s.subscriptions[f.subscription]) else None
      else if InitKey(f.id) !in s.subscriptions && f.id in s.requests then Some(s.requests[f.id])
      else None
    case FailRequest(id) => if id in s.requests then Some(s.requests[id]) else None
    case FailSubscription(key) => if key in s.subscriptions then Some(s.subscriptions[key]) else None
    case _ => None
  }

  // No send is to a closed channel, and a send to a request's one-slot channel finds it empty,
  // so neither the read loop nor the broadcast ever waits for a requester.
  lemma SendsAreSafe(evs: seq<Event>, s: State, ev: Event, c: ChanId)
    requires Run(Initial(), evs, s) && Enabled(s, ev) && Target(s, ev) == Some(c)
    ensures c < |s.calls| && !s.calls[c].closed && (!s.calls[c].sub ==> s.calls[c].log == [])
  {
    ReachableInv(evs, s);
    match ev
    case Receive(f) =>
      if f.id == 0 {
        assert SubscriptionEntry(s, f.subscription);
      } else {
        assert RequestEntry(s, f.id);
      }
    case FailRequest(id) => assert RequestEntry(s, id);
    case FailSubscription(key) => assert SubscriptionEntry(s, key);
  }

  // A requester hears nothing, or one reply bearing its own id, or that the connection broke.
  lemma OneOutcome(evs: seq<Event>, s: State, c: ChanId)
    requires Run(Initial(), evs, s) && c < |s.calls| && !s.calls[c].sub
    ensures var call := s.calls[c];
      || (call.log == [] && !call.closed)
      || (call.log == [Broken] && call.closed)
      || (exists f :: call.log == [Deliver(f)] && f.id == call.id && !call.closed)
  {
    ReachableInv(evs, s);
    var call := s.calls[c];
    assert Sound(call);
    if !call.closed && call.log != [] {
      assert call.log == [Deliver(call.log[0].frame)];
    }
  }

  // In particular a caller that gave an id hears only a reply with that id, and one that gave
  // none hears only a reply with the id picked for it.
  lemma CallerHearsItsId(before: seq<Event>, s: State, id: int, picked: int, after: seq<Event>, to: State)
    requires Run(Initial(), before, s) && Enabled(s, Write(id, false, picked, true))
    requires Run(Apply(s, Write(id, false, picked, true)), after, to)
    ensures |s.calls| < |to.calls| && 1 <= picked <= 29999
    ensures forall m :: m in to.calls[|s.calls|].log ==>
      m == Broken || m.frame.id == if id != 0 then id else picked
  {
    var ev := Write(id, false, picked, true);
    var c := |s.calls|;
    RunSnoc(Initial(), before, s, ev);
    ReachableInv(before + [ev], Apply(s, ev));
    InvRun(Apply(s, ev), after, to);
    CallsKept(Apply(s, ev), after, to);
    assert Sound(to.calls[c]);
  }

  lemma {:induction false} CallsKept(s: State, evs: seq<Event>, to: State)
    requires Run(s, evs, to)
    ensures |s.calls| <= |to.calls|
    ensures forall c :: 0 <= c < |s.calls| ==> to.calls[c].id == s.calls[c].id && to.calls[c].sub == s.calls[c].sub
    decreases |evs|
  {
    if evs != [] {
      CallsKept(Apply(s, evs[0]), evs[1..], to);
    }
  }

  /* ---------- what each channel hears ---------- */

  // The first frame with this id among those from `from` on.
  function FirstAt(fs: seq<Frame>, id: int, from: nat): (r: Option<nat>)
    ensures r.Some? ==> from <= r.value < |fs| && fs[r.value].id == id
  {
    if |fs| <= from then None
    else
      var r := FirstAt(fs[..|fs| - 1], id, from);
      if r.Some? then r else if fs[|fs| - 1].id == id then Some(|fs| - 1) else None
  }

  lemma {:induction false} FirstAtIsFirst(fs: seq<Frame>, id: int, from: nat, j: nat)
    requires from <= j < |fs| && fs[j].id == id
    ensures FirstAt(fs, id, from).Some? && FirstAt(fs, id, from).value <= j
    decreases |fs|
  {
    if j < |fs| - 1 {
      FirstAtIsFirst(fs[..|fs| - 1], id, from, j);
    }
  }

  function Pushes(fs: seq<Frame>, key: string, from: nat): seq<Message> {
    if |fs| <= from then []
    else
      var last := fs[|fs| - 1];
      Pushes(fs[..|fs| - 1], key, from) + if last.id == 0 && last.subscription == key then [Deliver(last)] else []
  }

  // What the caller should hear of the frames that arrived: a requester the first reply since
  // its store, a subscriber the pushes for the id its reply named, since that reply.
  function Heard(fs: seq<Frame>, c: Call): seq<Message> {
    match FirstAt(fs, c.id, c.since)
    case None => []
    case Some(i) => if c.sub then Pushes(fs, fs[i].result, i + 1) else [Deliver(fs[i])]
  }

  predicate IsMine(fs: seq<Frame>, f: Frame, c: Call) {
    match FirstAt(fs, c.id, c.since)
    case None => !c.sub && f.id == c.id
    case Some(i) => c.sub && f.id == 0 && f.subscription == fs[i].result
  }

  lemma FirstAtSnoc(fs: seq<Frame>, f: Frame, id: int, from: nat)
    requires from <= |fs|
    ensures var first := FirstAt(fs, id, from);
      FirstAt(fs + [f], id, from) == if first.None? && f.id == id then Some(|fs|) else first
  {
    assert (fs + [f])[..|fs|] == fs;
  }

  lemma PushesSnoc(fs: seq<Frame>, f: Frame, key: string, from: nat)
    requires from <= |fs|
    ensures Pushes(fs + [f], key, from) ==
      Pushes(fs, key, from) + if f.id == 0 && f.subscription == key then [Deliver(f)] else []
  {
    assert (fs + [f])[..|fs|] == fs;
  }

  lemma HeardSnoc(fs: seq<Frame>, f: Frame, c: Call)
    requires c.since <= |fs| && c.id != 0
    ensures Heard(fs + [f], c) == Heard(fs, c) + if IsMine(fs, f, c) then [Deliver(f)] else []
  {
    var first := FirstAt(fs, c.id, c.since);
    FirstAtSnoc(fs, f, c.id, c.since);
    if first.Some? {
      assert (fs + [f])[first.value] == fs[first.value];
      PushesSnoc(fs, f, fs[first.value].result, first.value + 1);
    } else if f.id == c.id {
      assert (fs + [f])[|fs|] == f;
    }
  }

  // Callers do not reuse an id that is waiting, and the node gives out subscription ids that
  // are not in use and do not look like temporary keys.
  predicate Regular(s: State, ev: Event) {
    match ev
    case Store(c) => c < |s.calls| ==> s.calls[c].id !in s.requests && InitKey(s.calls[c].id) !in s.subscriptions
    case Receive(f) =>
      if f.id == 0 then !IsInit(f.subscription)
      else InitKey(f.id) in s.subscriptions ==> f.result !in s.subscriptions && !IsInit(f.result)
    case _ => true
  }

  ghost predicate RegularRun(s: State, evs: seq<Event>, to: State)
    decreases |evs|
  {
    if evs == [] then s == to
    else Enabled(s, evs[0]) && Regular(s, evs[0]) && RegularRun(Apply(s, evs[0]), evs[1..], to)
  }

  predicate Under<K>(m: map<K, ChanId>, key: K, c: ChanId) { key in m && m[key] == c }

  // Where the channel has to be registered.
  predicate Listed(s: State, c: ChanId)
    requires c < |s.calls|
  {
    var call := s.calls[c];
    match FirstAt(s.arrived, call.id, call.since)
    case None => if call.sub then Under(s.subscriptions, InitKey(call.id), c) else Under(s.requests, call.id, c)
    case Some(i) =>
      if call.sub then Under(s.subscriptions, s.arrived[i].result, c) && !IsInit(s.arrived[i].result)
      else !Under(s.requests, call.id, c)
  }

  predicate Right(s: State, c: ChanId)
    requires c < |s.calls|
  {
    var call := s.calls[c];
    && call.id != 0 && call.written <= |s.arrived|
    && (call.phase.Stored? ==>
      && call.written <= call.since <= |s.arrived|
      && call.log == Heard(s.arrived, call) + (if call.closed then [Broken] else [])
      && Listed(s, c))
  }

  ghost predicate Apart(s: State) { forall id :: id in s.requests ==> InitKey(id) !in s.subscriptions }

  ghost predicate Faithful(s: State) {
    && Inv(s) && Apart(s)
    && (forall c :: 0 <= c < |s.calls| ==> Right(s, c))
    && (s.loop.Reading? ==> forall c :: 0 <= c < |s.calls| ==> !s.calls[c].closed)
  }

  // A registered channel is registered where it has to be.
  lemma OnlyThere(s: State, key: string)
    requires Faithful(s) && key in s.subscriptions
    ensures s.subscriptions[key] < |s.calls|
    ensures var c := s.subscriptions[key];
      match FirstAt(s.arrived, s.calls[c].id, s.calls[c].since)
      case None => key == InitKey(s.calls[c].id)
      case Some(i) => key == s.arrived[i].result && !IsInit(key)
  {
    assert SubscriptionEntry(s, key);
    var c := s.subscriptions[key];
    assert Right(s, c) && Listed(s, c) && Injective(s.subscriptions);
  }

  // The read loop sends a frame to the channel that should hear it, and to no other.
  lemma MineIsTarget(s: State, f: Frame, c: ChanId)
    requires Faithful(s) && Regular(s, Receive(f)) && s.loop.Reading? && c < |s.calls| && s.calls[c].phase.Stored?
    ensures IsMine(s.arrived, f, s.calls[c]) <==> Target(s, Receive(f)) == Some(c)
  {
    assert Right(s, c) && Listed(s, c);
    if f.id == 0 {
      if f.subscription in s.subscriptions {
        OnlyThere(s, f.subscription);
        InitKeyInjective(s.calls[s.subscriptions[f.subscription]].id, 0);
        assert SubscriptionEntry(s, f.subscription);
      }
    } else if f.id in s.requests {
      assert RequestEntry(s, f.id);
      assert Right(s, s.requests[f.id]) && Listed(s, s.requests[f.id]);
    }
  }

  lemma ListedAfterPush(s: State, f: Frame, c: ChanId)
    requires Faithful(s) && s.loop.Reading? && f.id == 0
    requires c < |s.calls| && s.calls[c].phase.Stored?
    ensures c < |Dispatch(s, f).calls| && Listed(Dispatch(s, f), c)
  {
    assert Right(s, c) && Listed(s, c);
    FirstAtSnoc(s.arrived, f, s.calls[c].id, s.calls[c].since);
  }

  lemma ListedAfterRekey(s: State, f: Frame, c: ChanId, init: string)
    requires Faithful(s) && Regular(s, Receive(f)) && s.loop.Reading? && f.id != 0
    requires init == InitKey(f.id) && init in s.subscriptions
    requires c < |s.calls| && s.calls[c].phase.Stored?
    ensures c < |Dispatch(s, f).calls| && Listed(Dispatch(s, f), c)
  {
    var call := s.calls[c];
    assert Right(s, c) && Listed(s, c);
    FirstAtSnoc(s.arrived, f, call.id, call.since);
    InitKeyInjective(call.id, f.id);
    InitKeyInjective(f.id, call.id);
  }

  lemma ListedAfterReply(s: State, f: Frame, c: ChanId)
    requires Faithful(s) && s.loop.Reading? && f.id != 0
    requires InitKey(f.id) !in s.subscriptions
    requires c < |s.calls| && s.calls[c].phase.Stored?
    ensures c < |Dispatch(s, f).calls| && Listed(Dispatch(s, f), c)
  {
    assert Right(s, c) && Listed(s, c);
    FirstAtSnoc(s.arrived, f, s.calls[c].id, s.calls[c].since);
  }

  // What one channel sees of a step of the read loop.
  lemma LogAfterReceive(s: State, f: Frame, c: ChanId)
    requires Inv(s) && s.loop.Reading? && c < |s.calls|
    ensures c < |Dispatch(s, f).calls|
    ensures var d := Dispatch(s, f).calls[c];
      d == s.calls[c].(log := s.calls[c].log + if Target(s, Receive(f)) == Some(c) then [Deliver(f)] else [])
    ensures Target(s, Receive(f)) == Some(c) ==> s.calls[c].phase.Stored?
  {
    assert s.calls[c].log + [] == s.calls[c].log;
    if f.id == 0 {
      if f.subscription in s.subscriptions { assert SubscriptionEntry(s, f.subscription); }
    } else if f.id in s.requests {
      assert RequestEntry(s, f.id);
    }
  }

  lemma ListedAfterReceive(s: State, f: Frame, c: ChanId)
    requires Faithful(s) && Regular(s, Receive(f)) && s.loop.Reading?
    requires c < |s.calls| && s.calls[c].phase.Stored?
    ensures c < |Dispatch(s, f).calls| && Listed(Dispatch(s, f), c)
  {
    if f.id == 0 {
      ListedAfterPush(s, f, c);
    } else if InitKey(f.id) in s.subscriptions {
      ListedAfterRekey(s, f, c, InitKey(f.id));
    } else {
      ListedAfterReply(s, f, c);
    }
  }

  lemma RightAfterReceive(s: State, f: Frame, c: ChanId)
    requires Faithful(s) && Regular(s, Receive(f)) && s.loop.Reading? && c < |s.calls|
    ensures c < |Dispatch(s, f).calls| && Right(Dispatch(s, f), c) && !Dispatch(s, f).calls[c].closed
  {
    var call := s.calls[c];
    assert Right(s, c) && !call.closed;
    LogAfterReceive(s, f, c);
    if call.phase.Stored? {
      ListedAfterReceive(s, f, c);
      MineIsTarget(s, f, c);
      RightIfHeard(s, Dispatch(s, f), f, c);
    }
  }

  lemma RightIfHeard(s: State, s': State, f: Frame, c: ChanId)
    requires c < |s.calls| && Right(s, c) && s.calls[c].phase.Stored? && !s.calls[c].closed
    requires c < |s'.calls| && Listed(s', c) && s'.arrived == s.arrived + [f]
    requires s'.calls[c] ==
        s.calls[c].(log := s.calls[c].log + if IsMine(s.arrived, f, s.calls[c]) then [Deliver(f)] else [])
    ensures Right(s', c)
  {
    var heard := Heard(s.arrived, s.calls[c]);
    HeardSnoc(s.arrived, f, s.calls[c]);
    HeardIgnoresLog(s'.arrived, s.calls[c], s'.calls[c]);
    assert heard + [] == heard && s'.calls[c].log + [] == s'.calls[c].log;
  }

  lemma HeardIgnoresLog(fs: seq<Frame>, c: Call, d: Call)
    requires c.id == d.id && c.sub == d.sub && c.since == d.since
    ensures Heard(fs, c) == Heard(fs, d)
  {
  }

  lemma FaithfulReceive(s: State, f: Frame)
    requires Faithful(s) && Regular(s, Receive(f)) && s.loop.Reading?
    ensures Faithful(Dispatch(s, f))
  {
    var s' := Dispatch(s, f);
    InvDispatch(s, f);
    forall c | 0 <= c < |s'.calls| ensures Right(s', c) && !s'.calls[c].closed {
      RightAfterReceive(s, f, c);
    }
    forall id | id in s'.requests ensures InitKey(id) !in s'.subscriptions {
      InitKeyInjective(id, 0);
    }
  }

  lemma FaithfulWrite(s: State, ev: Event)
    requires Faithful(s) && Enabled(s, ev) && ev.Write?
    ensures Faithful(Apply(s, ev))
  {
    var s' := Apply(s, ev);
    InvStep(s, ev);
    forall c | 0 <= c < |s'.calls| ensures Right(s', c) && (s.loop.Reading? ==> !s'.calls[c].closed) {
      if c < |s.calls| { assert Right(s, c) && s'.calls[c] == s.calls[c]; }
    }
  }

  lemma RightAfterStore(s: State, c: ChanId, init: string, d: ChanId)
    requires Faithful(s) && c < |s.calls| && s.calls[c].phase.Written? && init == InitKey(s.calls[c].id)
    requires s.calls[c].id !in s.requests && init !in s.subscriptions && d < |s.calls|
    ensures Right(Register(s, c, init), d)
  {
    var s' := Register(s, c, init);
    assert Right(s, c) && Right(s, d) && Sound(s.calls[c]);
    if d == c {
      assert FirstAt(s.arrived, s.calls[c].id, |s.arrived|) == None;
    } else if s.calls[d].phase.Stored? {
      assert Listed(s, d) && s'.calls[d] == s.calls[d];
    }
  }

  lemma FaithfulStore(s: State, c: ChanId)
    requires Faithful(s) && Enabled(s, Store(c)) && Regular(s, Store(c))
    ensures Faithful(Apply(s, Store(c)))
  {
    var call := s.calls[c];
    var init := InitKey(call.id);
    var s' := Register(s, c, init);
    InvRegister(s, c, init);
    assert Sound(call);
    forall d | 0 <= d < |s'.calls| ensures Right(s', d) && (s.loop.Reading? ==> !s'.calls[d].closed) {
      RightAfterStore(s, c, init, d);
    }
    forall id | id in s'.requests ensures InitKey(id) !in s'.subscriptions {
      InitKeyInjective(id, call.id);
    }
  }

  function Failed(c: Call): Call { c.(log := c.log + [Broken], closed := true) }

  // Shutdown touches neither the tables nor what arrived, and a channel only by failing it.
  lemma CallAfterShutdown(s: State, ev: Event, c: ChanId)
    requires Inv(s) && Enabled(s, ev) && !ev.Write? && !ev.Store? && !ev.Receive? && c < |s.calls|
    ensures var s' := Apply(s, ev);
      && s'.arrived == s.arrived && s'.requests == s.requests && s'.subscriptions == s.subscriptions
      && |s'.calls| == |s.calls|
      && if Target(s, ev) == Some(c) then
           !s.calls[c].closed && s'.calls[c] == Failed(s.calls[c])
         else s'.calls[c] == s.calls[c]
  {
    if ev.FailRequest? { assert RequestEntry(s, ev.id); }
    if ev.FailSubscription? { assert SubscriptionEntry(s, ev.key); }
  }

  lemma RightIfFailed(s: State, s': State, c: ChanId)
    requires c < |s.calls| && Right(s, c) && c < |s'.calls|
    requires s'.arrived == s.arrived && s'.requests == s.requests && s'.subscriptions == s.subscriptions
    requires s'.calls[c] == s.calls[c] || (!s.calls[c].closed && s'.calls[c] == Failed(s.calls[c]))
    ensures Right(s', c)
  {
    if s.calls[c].phase.Stored? {
      assert Listed(s, c);
      HeardIgnoresLog(s.arrived, s.calls[c], s'.calls[c]);
      assert Heard(s.arrived, s.calls[c]) + [] == Heard(s.arrived, s.calls[c]);
    }
  }

  lemma FaithfulShutdown(s: State, ev: Event)
    requires Faithful(s) && Enabled(s, ev) && !ev.Write? && !ev.Store? && !ev.Receive?
    ensures Faithful(Apply(s, ev))
  {
    InvShutdown(s, ev);
    forall c | 0 <= c < |Apply(s, ev).calls| ensures Right(Apply(s, ev), c) {
      CallAfterShutdown(s, ev, c);
      assert Right(s, c);
      RightIfFailed(s, Apply(s, ev), c);
    }
  }

  lemma {:induction false} FaithfulRun(s: State, evs: seq<Event>, to: State)
    requires Faithful(s) && RegularRun(s, evs, to)
    ensures Faithful(to)
    decreases |evs|
  {
    if evs != [] {
      var s' := Apply(s, evs[0]);
      match evs[0] {
        case Write(_, _, _, _) => FaithfulWrite(s, evs[0]);
        case Store(c) => FaithfulStore(s, c);
        case Receive(f) => FaithfulReceive(s, f);
        case _ => FaithfulShutdown(s, evs[0]);
      }
      FaithfulRun(s', evs[1..], to);
    }
  }

  // Every channel hears exactly what it should, in order and once, followed by the error if the
  // connection broke: a function of what the node sent and of the moment the call was stored.
  lemma EachHearsItsOwn(evs: seq<Event>, s: State, c: ChanId)
    requires RegularRun(Initial(), evs, s) && c < |s.calls| && s.calls[c].phase.Stored?
    ensures s.calls[c].log == Heard(s.arrived, s.calls[c]) + if s.calls[c].closed then [Broken] else []
  {
    FaithfulRun(Initial(), evs, s);
    assert Right(s, c);
  }

  // A reply that the node sends after the write reaches its request if and only if the store
  // came before the read loop got to it; a subscription whose reply came too early waits under
  // its temporary key for good.
  lemma HeardIffStoredInTime(evs: seq<Event>, s: State, c: ChanId, i: nat)
    requires RegularRun(Initial(), evs, s) && c < |s.calls| && s.calls[c].phase.Stored?
    requires s.calls[c].written <= i < |s.arrived| && s.arrived[i].id == s.calls[c].id
    requires forall j :: s.calls[c].written <= j < |s.arrived| && s.arrived[j].id == s.calls[c].id ==> j == i
    ensures var call := s.calls[c];
      if call.sub then Under(s.subscriptions, InitKey(call.id), c) <==> i < call.since
      else Deliver(s.arrived[i]) in call.log <==> call.since <= i
  {
    FaithfulRun(Initial(), evs, s);
    var call := s.calls[c];
    assert Right(s, c) && Listed(s, c);
    if call.since <= i {
      FirstAtIsFirst(s.arrived, call.id, call.since, i);
      InitKeyInjective(call.id, 0);
    }
  }

  /* ---------- shutdown ---------- */

  // A channel that was registered when shutdown began has been failed since, or still waits for it.
  predicate RequestOwed(s: State, id: int, c: ChanId, before: Call) {
    && c < |s.calls| && Under(s.requests, id, c)
    && if s.calls[c].closed then s.calls[c].log == before.log + [Broken] && !s.loop.Reading?
       else s.calls[c].log == before.log && s.loop.ClosingRequests? && id in s.loop.due && id !in s.loop.visited
  }

  predicate SubscriptionOwed(s: State, key: string, c: ChanId, before: Call) {
    && c < |s.calls| && Under(s.subscriptions, key, c)
    && if s.calls[c].closed then s.calls[c].log == before.log + [Broken] && !s.loop.Reading?
       else s.calls[c].log == before.log && StillDue(s.loop, key)
  }

  predicate StillDue(loop: Loop, key: string) {
    loop.ClosingRequests? || (loop.ClosingSubscriptions? && key in loop.dueKeys && key !in loop.visitedKeys)
  }

  lemma {:induction false} RequestFailedOnce(s: State, evs: seq<Event>, to: State, id: int, c: ChanId, before: Call)
    requires Inv(s) && RegularRun(s, evs, to) && RequestOwed(s, id, c, before)
    ensures RequestOwed(to, id, c, before)
    decreases |evs|
  {
    if evs != [] {
      assert RequestEntry(s, id);
      InvStep(s, evs[0]);
      RequestOwedStep(s, evs[0], id, c, before);
      RequestFailedOnce(Apply(s, evs[0]), evs[1..], to, id, c, before);
    }
  }

  lemma RequestOwedStep(s: State, ev: Event, id: int, c: ChanId, before: Call)
    requires Inv(s) && Enabled(s, ev) && Regular(s, ev) && RequestOwed(s, id, c, before)
    ensures RequestOwed(Apply(s, ev), id, c, before)
  {
    assert RequestEntry(s, id);
    if ev.Store? {
      assert ev.c != c;
    } else if !ev.Write? {
      RequestOwedShutdown(s, ev, id, c, before);
    }
  }

  lemma RequestOwedShutdown(s: State, ev: Event, id: int, c: ChanId, before: Call)
    requires Inv(s) && Enabled(s, ev) && RequestOwed(s, id, c, before) && !ev.Write? && !ev.Store? && !ev.Receive?
    ensures RequestOwed(Apply(s, ev), id, c, before)
  {
    assert RequestEntry(s, id);
    CallAfterShutdown(s, ev, c);
    if ev.FailRequest? { assert RequestEntry(s, ev.id); }
    if ev.FailSubscription? { assert SubscriptionEntry(s, ev.key); }
  }

  lemma SubscriptionOwedStep(s: State, ev: Event, key: string, c: ChanId, before: Call)
    requires Inv(s) && Enabled(s, ev) && Regular(s, ev) && SubscriptionOwed(s, key, c, before)
    ensures SubscriptionOwed(Apply(s, ev), key, c, before)
  {
    assert SubscriptionEntry(s, key);
    if !ev.Write? && !ev.Store? {
      CallAfterShutdown(s, ev, c);
      if ev.FailRequest? { assert RequestEntry(s, ev.id); }
      if ev.FailSubscription? { assert SubscriptionEntry(s, ev.key); }
    }
  }

  lemma {:induction false} SubscriptionFailedOnce(s: State, evs: seq<Event>, to: State, key: string, c: ChanId,
      before: Call)
    requires Inv(s) && RegularRun(s, evs, to) && SubscriptionOwed(s, key, c, before)
    ensures SubscriptionOwed(to, key, c, before)
    decreases |evs|
  {
    if evs != [] {
      InvStep(s, evs[0]);
      SubscriptionOwedStep(s, evs[0], key, c, before);
      SubscriptionFailedOnce(Apply(s, evs[0]), evs[1..], to, key, c, before);
    }
  }

  ghost function KeyOf<K>(table: map<K, ChanId>, c: ChanId): (key: K)
    requires c in table.Values
    ensures Under(table, key, c)
  {
    var key :| key in table && table[key] == c; key
  }

  // When the broadcast is over, every channel that was registered when reading stopped has been
  // sent exactly one error and then been closed.
  lemma ShutdownReachesAll(evs: seq<Event>, s: State, ev: Event, rest: seq<Event>, to: State, c: ChanId)
    requires Run(Initial(), evs, s) && s.loop.Reading? && Enabled(s, ev)
    requires Apply(s, ev).loop.ClosingRequests? && RegularRun(Apply(s, ev), rest, to) && to.loop.Stopped?
    requires c in s.requests.Values || c in s.subscriptions.Values
    ensures c < |s.calls| && c < |to.calls|
    ensures !s.calls[c].closed && to.calls[c].closed && to.calls[c].log == s.calls[c].log + [Broken]
  {
    ReachableInv(evs, s);
    InvStep(s, ev);
    var s' := Apply(s, ev);
    assert s'.loop.due == s.requests.Keys && s'.loop.visited == {};
    assert s'.requests == s.requests && s'.subscriptions == s.subscriptions && s'.calls == s.calls;
    if c in s.requests.Values {
      var id := KeyOf(s.requests, c);
      assert RequestEntry(s, id);
      RequestFailedOnce(s', rest, to, id, c, s.calls[c]);
    } else {
      var key := KeyOf(s.subscriptions, c);
      assert SubscriptionEntry(s, key);
      SubscriptionFailedOnce(s', rest, to, key, c, s.calls[c]);
    }
  }

  // Nobody hears anything once the broadcast is over, whatever is stored afterwards.
  lemma {:induction false} SilentAfterwards(s: State, evs: seq<Event>, to: State, c: ChanId)
    requires s.loop.Stopped? && Run(s, evs, to) && c < |s.calls|
    ensures to.loop.Stopped? && c < |to.calls|
    ensures to.calls[c].log == s.calls[c].log && to.calls[c].closed == s.calls[c].closed
    decreases |evs|
  {
    if evs != [] {
      SilentAfterwards(Apply(s, evs[0]), evs[1..], to, c);
    }
  }

  ghost predicate DueRegistered(s: State) {
    && (s.loop.ClosingRequests? ==> forall id :: id in s.loop.due ==> id in s.requests && id !in s.loop.visited)
    && (s.loop.ClosingSubscriptions? ==>
         forall key :: key in s.loop.dueKeys ==> key in s.subscriptions && key !in s.loop.visitedKeys)
  }

  lemma {:induction false} DueRegisteredRun(s: State, evs: seq<Event>, to: State)
    requires DueRegistered(s) && Run(s, evs, to)
    ensures DueRegistered(to)
    decreases |evs|
  {
    if evs != [] {
      DueRegisteredRun(Apply(s, evs[0]), evs[1..], to);
    }
  }

  // The broadcast never gets stuck: a channel still due can be failed, which leaves one less.
  lemma BroadcastAdvances(evs: seq<Event>, s: State)
    requires Run(Initial(), evs, s)
    ensures s.loop.ClosingRequests? ==> forall id :: id in s.loop.due ==>
      Enabled(s, FailRequest(id)) && Apply(s, FailRequest(id)).loop.due == s.loop.due - {id}
    ensures s.loop.ClosingSubscriptions? ==> forall key :: key in s.loop.dueKeys ==>
      Enabled(s, FailSubscription(key)) && Apply(s, FailSubscription(key)).loop.dueKeys == s.loop.dueKeys - {key}
  {
    ReachableInv(evs, s);
    DueRegisteredRun(Initial(), evs, s);
    assert forall id :: id in s.requests ==> RequestEntry(s, id);
    assert forall key :: key in s.subscriptions ==> SubscriptionEntry(s, key);
  }

  /* ---------- the two promises that need the node's help ---------- */

  // Moving a subscription to the server's key keeps every subscriber registered exactly when
  // that key is free; otherwise its previous owner is dropped.
  lemma RekeyKeepsAll(s: State, init: string, key: string)
    requires Inv(s) && init in s.subscriptions
    ensures Rekey(s, init, key).subscriptions.Values == s.subscriptions.Values <==>
        key == init || key !in s.subscriptions
  {
    var subs, subs' := s.subscriptions, Rekey(s, init, key).subscriptions;
    if key == init || key !in subs {
      forall c | c in subs.Values ensures c in subs'.Values {
        var k :| k in subs && subs[k] == c;
        assert (if k == init then key else k) in subs' && subs'[if k == init then key else k] == c;
      }
      forall c | c in subs'.Values ensures c in subs.Values {
        var k :| k in subs' && subs'[k] == c;
        assert (if k == key then init else k) in subs && subs[if k == key then init else k] == c;
      }
    } else {
      var c := subs[key];
      assert c in subs.Values;
      assert forall k :: k in subs' ==> subs'[k] != c;
    }
  }

  // Because the write comes before the store, a confirmation can arrive too early; the first
  // push for it then stops the whole broker.
  lemma EarlyConfirmationStopsReading() returns (evs: seq<Event>, s: State)
    ensures RegularRun(Initial(), evs, s) && s.loop.ClosingRequests?
    ensures |s.calls| == 1 && s.calls[0].sub && s.calls[0].log == [] && !s.calls[0].closed
    ensures Stop !in evs
  {
    var confirmation, push := Frame(7, "s", "", ""), Frame(0, "", "s", "");
    var s1 := Apply(Initial(), Write(7, true, 1, true));
    var s2 := Apply(s1, Receive(confirmation));
    var s3 := Apply(s2, Store(0));
    InitKeyInjective(7, 7);
    assert s3.subscriptions == map[InitKey(7) := 0];
    assert !IsInit("s");
    s := Apply(s3, Receive(push));
    assert RegularRun(s3, [Receive(push)], s);
    assert [Store(0), Receive(push)][1..] == [Receive(push)];
    assert RegularRun(s2, [Store(0), Receive(push)], s);
    assert [Receive(confirmation), Store(0), Receive(push)][1..] == [Store(0), Receive(push)];
    assert RegularRun(s1, [Receive(confirmation), Store(0), Receive(push)], s);
    evs := [Write(7, true, 1, true), Receive(confirmation), Store(0), Receive(push)];
    assert evs[1..] == [Receive(confirmation), Store(0), Receive(push)];
  }
}
