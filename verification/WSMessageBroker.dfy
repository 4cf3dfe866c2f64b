/** The code of `WSMessageBroker`, one method per section that runs without interference, each
    proved to perform the steps of `Broker` that stand for it. */
module WSMessageBrokers {
  import opened Wrappers
  import opened DecimalKeys
  import opened Broker

  datatype Read = Got(frame: Frame) | ReadFailed

  class WSMessageBroker {
    var requests: map<int, ChanId>
    var subscriptions: map<string, ChanId>
    var calls: seq<Call>                    // the callers' channels
    var arrived: seq<Frame>                 // history: the code keeps no record of it
    ghost var loop: Loop

    ghost function Abs(): State
      reads this
    {
      State(arrived, calls, requests, subscriptions, loop)
    }

    constructor ()
      ensures Abs() == Initial()
    {
      requests, subscriptions, calls := map[], map[], [];
      arrived, loop := [], Reading;
    }

    // The first half of submit: the write.
    method Submit(id: int, sub: bool, picked: int, ok: bool) returns (c: Option<ChanId>)
      requires 1 <= picked <= MAX_PICK
      modifies this
      ensures Abs() == Apply(old(Abs()), Write(id, sub, picked, ok))
      ensures calls[..|old(calls)|] == old(calls) && |calls| == |old(calls)| + 1
      ensures id != 0 ==> calls[|old(calls)|].id == id
      ensures id == 0 ==> calls[|old(calls)|].id == picked && 1 <= calls[|old(calls)|].id <= 29999
      ensures c.Some? <==> ok
      ensures ok ==> c.value == |old(calls)| && Enabled(Abs(), Store(c.value))
    {
      var frameId := id;
      if id == 0 {
        frameId := picked;
      }
      calls := calls + [Call(frameId, sub, if ok then Written else Phase.Failed, |arrived|, 0, [], false)];
      c := if ok then Some(|calls| - 1) else None;
    }

    // The second half of submit.
    method Register(c: ChanId)
      requires Enabled(Abs(), Store(c))
      modifies this
      ensures Abs() == Apply(old(Abs()), Store(c))
    {
      var call := calls[c];
      calls := calls[c := call.(phase := Stored, since := |arrived|)];
      if call.sub {
        subscriptions := subscriptions[InitKey(call.id) := c];
      } else {
        requests := requests[call.id := c];
      }
    }

    method Push(c: ChanId, m: Message)
      requires c < |calls|
      modifies this`calls
      ensures calls == old(calls)[c := old(calls)[c].(log := old(calls)[c].log + [m])]
    {
      calls := calls[c := calls[c].(log := calls[c].log + [m])];
    }

    // One frame in runWSReadLoop; `stop` when it makes the loop return.
    method Receive(f: Frame) returns (stop: bool)
      requires Inv(Abs()) && loop.Reading?
      modifies this
      ensures Abs() == Apply(old(Abs()), Event.Receive(f))
      ensures stop <==> f.id == 0 && f.subscription !in old(subscriptions)
      ensures stop <==> !loop.Reading?
    {
      stop := false;
      arrived := arrived + [f];
      if f.id == 0 {
        if f.subscription in subscriptions {
          assert SubscriptionEntry(old(Abs()), f.subscription);
          Push(subscriptions[f.subscription], Deliver(f));
        } else {
          loop := ClosingRequests(requests.Keys, {});
          stop := true;
        }
      } else {
        var init := InitKey(f.id);
        if init in subscriptions {
          var c := subscriptions[init];
          subscriptions := subscriptions - {init};
          subscriptions := subscriptions[f.result := c];
        } else if f.id in requests {
          var c := requests[f.id];
          assert RequestEntry(old(Abs()), f.id);
          requests := requests - {f.id};
          Push(c, Deliver(f));
        }
      }
    }

    // runWSReadLoop on what the connection yields.
    method ReadLoop(items: seq<Read>)
      requires Inv(Abs()) && loop.Reading?
      modifies this
      ensures Abs() == ReadAll(old(Abs()), items)
    {
      ghost var before := Abs();
      var used, stop := 0, false;
      while used < |items| && !stop
        invariant used <= |items| && Inv(Abs()) && (stop <==> !loop.Reading?)
        invariant Abs() == ReadAll(before, items[..used])
      {
        assert items[..used + 1][..used] == items[..used];
        stop := ReadOne(items[used]);
        used := used + 1;
      }
      StoppedReading(before, items, used);
      assert items[..|items|] == items;
    }

    method ReadOne(item: Read) returns (stop: bool)
      requires Inv(Abs()) && loop.Reading?
      modifies this
      ensures Abs() == Apply(old(Abs()), EventOf(item)) && Inv(Abs())
      ensures stop <==> !loop.Reading?
    {
      InvStep(Abs(), EventOf(item));
      match item
      case Got(f) =>
        stop := Receive(f);
      case ReadFailed =>
        loop := ClosingRequests(requests.Keys, {});
        stop := true;
    }

    // The broadcast after runWSReadLoop has returned, with nobody storing meanwhile.
    method Shutdown()
      requires Inv(Abs()) && loop == ClosingRequests(requests.Keys, {})
      modifies this
      ensures loop.Stopped? && requests == old(requests) && subscriptions == old(subscriptions)
      ensures calls == FailedAll(old(calls), requests.Values + subscriptions.Values)
    {
      ghost var before := Abs();
      FailRequests();
      BetweenBroadcasts(before);
      loop := ClosingSubscriptions(subscriptions.Keys, {});
      assert Abs() == Apply(RequestsFailedIn(before, before.requests.Keys), RequestsFailed);
      FailSubscriptions();
      FailedTwice(before.calls, requests.Values, subscriptions.Values);
      AllChannels(requests);
      AllChannels(subscriptions);
      loop := Loop.Stopped;
    }

    method FailRequests()
      requires Inv(Abs()) && loop == ClosingRequests(requests.Keys, {})
      modifies this`calls, this`loop
      ensures Abs() == RequestsFailedIn(old(Abs()), requests.Keys)
    {
      ghost var before := Abs();
      var todo := requests.Keys;
      NothingFailed(before);
      assert requests.Keys - todo == {};
      while todo != {}
        invariant todo <= requests.Keys
        invariant Abs() == RequestsFailedIn(before, requests.Keys - todo)
        decreases |todo|
      {
        var id := AnyOf(todo);
        OneMoreRequest(before, requests.Keys - todo, id);
        FailRequest(id);
        OneLess(requests.Keys, todo, id);
        todo := todo - {id};
      }
      assert requests.Keys - todo == requests.Keys;
    }

    method FailRequest(id: int)
      requires Enabled(Abs(), Event.FailRequest(id))
      modifies this`calls, this`loop
      ensures Abs() == Apply(old(Abs()), Event.FailRequest(id))
    {
      var c := requests[id];
      calls := calls[c := calls[c].(log := calls[c].log + [Broken])];
      calls := calls[c := calls[c].(closed := true)];
      loop := ClosingRequests(loop.due - {id}, loop.visited + {id});
    }

    method FailSubscriptions()
      requires Inv(Abs()) && loop == ClosingSubscriptions(subscriptions.Keys, {})
      modifies this`calls, this`loop
      ensures Abs() == SubscriptionsFailedIn(old(Abs()), subscriptions.Keys)
    {
      ghost var before := Abs();
      var todo := subscriptions.Keys;
      NothingFailed(before);
      assert subscriptions.Keys - todo == {};
      while todo != {}
        invariant todo <= subscriptions.Keys
        invariant Abs() == SubscriptionsFailedIn(before, subscriptions.Keys - todo)
        decreases |todo|
      {
        var key := AnyOf(todo);
        OneMoreSubscription(before, subscriptions.Keys - todo, key);
        FailSubscription(key);
        OneLess(subscriptions.Keys, todo, key);
        todo := todo - {key};
      }
      assert subscriptions.Keys - todo == subscriptions.Keys;
    }

    method FailSubscription(key: string)
      requires Enabled(Abs(), Event.FailSubscription(key))
      modifies this`calls, this`loop
      ensures Abs() == Apply(old(Abs()), Event.FailSubscription(key))
    {
      var c := subscriptions[key];
      calls := calls[c := calls[c].(log := calls[c].log + [Broken])];
      calls := calls[c := calls[c].(closed := true)];
      loop := ClosingSubscriptions(loop.dueKeys - {key}, loop.visitedKeys + {key});
    }
  }

  function EventOf(r: Read): Event {
    match r
    case Got(f) => Receive(f)
    case ReadFailed => Stop
  }

  // Reading ends for good with the first item that stops it.
  ghost function ReadAll(s: State, items: seq<Read>): State {
    if items == [] then s
    else
      var t := ReadAll(s, items[..|items| - 1]);
      if t.loop.Reading? then Apply(t, EventOf(items[|items| - 1])) else t
  }

  lemma {:induction false} StoppedReading(s: State, items: seq<Read>, used: nat)
    requires used <= |items| && (used == |items| || !ReadAll(s, items[..used]).loop.Reading?)
    ensures ReadAll(s, items) == ReadAll(s, items[..used])
    decreases |items|
  {
    if used == |items| {
      assert items[..used] == items;
    } else {
      var front := items[..|items| - 1];
      assert front[..used] == items[..used];
      StoppedReading(s, front, used);
    }
  }

  // Reading is a run of the system that uses a prefix of what the connection yields.
  lemma {:induction false} ReadingIsRun(s: State, items: seq<Read>) returns (evs: seq<Event>, used: nat)
    ensures used <= |items| && |evs| == used && forall k :: 0 <= k < used ==> evs[k] == EventOf(items[k])
    ensures Run(s, evs, ReadAll(s, items))
    ensures used == |items| || !ReadAll(s, items).loop.Reading?
    decreases |items|
  {
    if items == [] {
      evs, used := [], 0;
    } else {
      var front, last := items[..|items| - 1], items[|items| - 1];
      evs, used := ReadingIsRun(s, front);
      var t := ReadAll(s, front);
      if t.loop.Reading? {
        RunSnoc(s, evs, t, EventOf(last));
        evs, used := evs + [EventOf(last)], used + 1;
      }
    }
  }

  // The channels in `cs` failed, once each.
  function FailedAll(calls: seq<Call>, cs: set<ChanId>): seq<Call> {
    seq(|calls|, i requires 0 <= i < |calls| =>
      if i in cs then calls[i].(log := calls[i].log + [Broken], closed := true) else calls[i])
  }

  ghost function ChannelsOf<K>(table: map<K, ChanId>, keys: set<K>): set<ChanId>
    requires keys <= table.Keys
  {
    set k | k in keys :: table[k]
  }

  ghost function RequestsFailedIn(s: State, done: set<int>): State
    requires done <= s.requests.Keys
  {
    s.(calls := FailedAll(s.calls, ChannelsOf(s.requests, done)), loop := ClosingRequests(s.requests.Keys - done, done))
  }

  ghost function SubscriptionsFailedIn(s: State, done: set<string>): State
    requires done <= s.subscriptions.Keys
  {
    s.(calls := FailedAll(s.calls, ChannelsOf(s.subscriptions, done)),
       loop := ClosingSubscriptions(s.subscriptions.Keys - done, done))
  }

  lemma NothingFailed(s: State)
    ensures s.loop == ClosingRequests(s.requests.Keys, {}) ==> RequestsFailedIn(s, {}) == s
    ensures s.loop == ClosingSubscriptions(s.subscriptions.Keys, {}) ==> SubscriptionsFailedIn(s, {}) == s
  {
    assert FailedAll(s.calls, {}) == s.calls;
  }

  lemma FailedOneMore(calls: seq<Call>, cs: set<ChanId>, c: ChanId)
    requires c < |calls| && c !in cs
    ensures FailedAll(calls, cs + {c}) ==
      FailedAll(calls, cs)[c := calls[c].(log := calls[c].log + [Broken], closed := true)]
  {
  }

  lemma FailedTwice(calls: seq<Call>, cs: set<ChanId>, ds: set<ChanId>)
    requires cs !! ds
    ensures FailedAll(FailedAll(calls, cs), ds) == FailedAll(calls, cs + ds)
  {
  }

  lemma AllChannels<K>(table: map<K, ChanId>)
    ensures ChannelsOf(table, table.Keys) == table.Values
  {
  }

  // No channel is in both tables, and the tables are still in order after the first broadcast.
  lemma BetweenBroadcasts(s: State)
    requires Inv(s) && s.loop == ClosingRequests(s.requests.Keys, {})
    ensures s.requests.Values !! s.subscriptions.Values
    ensures Inv(Apply(RequestsFailedIn(s, s.requests.Keys), RequestsFailed))
  {
    assert forall id :: id in s.requests ==> RequestEntry(s, id);
    assert forall key :: key in s.subscriptions ==> SubscriptionEntry(s, key);
    var evs := RequestsFailedIsRun(s, s.requests.Keys);
    InvRun(s, evs, RequestsFailedIn(s, s.requests.Keys));
    InvStep(RequestsFailedIn(s, s.requests.Keys), RequestsFailed);
  }

  lemma {:induction false} RequestsFailedIsRun(s: State, done: set<int>) returns (evs: seq<Event>)
    requires Inv(s) && s.loop == ClosingRequests(s.requests.Keys, {}) && done <= s.requests.Keys
    ensures Run(s, evs, RequestsFailedIn(s, done))
    decreases done
  {
    if done == {} {
      NothingFailed(s);
      evs := [];
    } else {
      var id := AnElement(done);
      evs := RequestsFailedIsRun(s, done - {id});
      OneMoreRequest(s, done - {id}, id);
      assert done - {id} + {id} == done;
      RunSnoc(s, evs, RequestsFailedIn(s, done - {id}), FailRequest(id));
      evs := evs + [FailRequest(id)];
    }
  }

  lemma OneMoreRequest(s: State, done: set<int>, id: int)
    requires Inv(s) && s.loop.ClosingRequests? && done <= s.requests.Keys && id in s.requests && id !in done
    ensures Enabled(RequestsFailedIn(s, done), FailRequest(id))
    ensures Apply(RequestsFailedIn(s, done), FailRequest(id)) == RequestsFailedIn(s, done + {id})
  {
    assert RequestEntry(s, id);
    forall k | k in done ensures s.requests[k] != s.requests[id] { assert RequestEntry(s, k); }
    var cs := ChannelsOf(s.requests, done);
    assert ChannelsOf(s.requests, done + {id}) == cs + {s.requests[id]};
    FailedOneMore(s.calls, cs, s.requests[id]);
    assert s.requests.Keys - done - {id} == s.requests.Keys - (done + {id});
  }

  lemma OneMoreSubscription(s: State, done: set<string>, key: string)
    requires Inv(s) && s.loop.ClosingSubscriptions? && done <= s.subscriptions.Keys
    requires key in s.subscriptions && key !in done
    ensures Enabled(SubscriptionsFailedIn(s, done), FailSubscription(key))
    ensures Apply(SubscriptionsFailedIn(s, done), FailSubscription(key)) == SubscriptionsFailedIn(s, done + {key})
  {
    assert SubscriptionEntry(s, key);
    assert forall k :: k in done ==> s.subscriptions[k] != s.subscriptions[key];
    var cs := ChannelsOf(s.subscriptions, done);
    assert ChannelsOf(s.subscriptions, done + {key}) == cs + {s.subscriptions[key]};
    FailedOneMore(s.calls, cs, s.subscriptions[key]);
    assert s.subscriptions.Keys - done - {key} == s.subscriptions.Keys - (done + {key});
  }
}
