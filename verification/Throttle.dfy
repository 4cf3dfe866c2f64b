/** The two-level throttle: a request takes a backlog token, then a serving token, and returns
    them in reverse order.  Both kinds live in buffered channels, of which only the number of
    tokens matters. */
module Throttle {
  type Request = nat

  datatype Config = Config(limit: nat, backlogLimit: nat) {
    // What ThrottleWithOpts panics without.
    predicate Allowed() { limit >= 1 }
  }

  datatype Phase =
    | Arrived                // at the outer select
    | Waiting                // holds a backlog token
    | Serving                // holds both tokens
    | Leaving                // serving token returned or never taken, backlog token still held
    | Gone(refused: bool)    // refused: "server capacity exceeded"

  datatype State = State(tokens: nat, backlogTokens: nat, phase: map<Request, Phase>)

  datatype Event =
    | Arrive(r: Request)
    | Cancelled(r: Request)  // context already done at the outer select
    | Refuse(r: Request)     // the default branch
    | Admit(r: Request)
    | GiveUp(r: Request)     // timer or context while waiting
    | Serve(r: Request)
    | Finish(r: Request)     // deferred: t.tokens <- tok
    | Leave(r: Request)      // deferred: t.backlogTokens <- btok

  function Initial(c: Config): State { State(c.limit, c.limit + c.backlogLimit, map[]) }

  predicate In(s: State, r: Request, p: Phase) { r in s.phase && s.phase[r] == p }

  // A receive needs a token, a send needs room in the channel, and the default branch is taken
  // only when no receive is possible.
  predicate Enabled(c: Config, s: State, ev: Event) {
    match ev
    case Arrive(r) => r !in s.phase
    case Cancelled(r) => In(s, r, Arrived)
    case Refuse(r) => In(s, r, Arrived) && s.backlogTokens == 0
    case Admit(r) => In(s, r, Arrived) && s.backlogTokens > 0
    case GiveUp(r) => In(s, r, Waiting)
    case Serve(r) => In(s, r, Waiting) && s.tokens > 0
    case Finish(r) => In(s, r, Serving) && s.tokens < c.limit
    case Leave(r) => In(s, r, Leaving) && s.backlogTokens < c.limit + c.backlogLimit
  }

  function Move(s: State, r: Request, p: Phase): State { s.(phase := s.phase[r := p]) }

  function Apply(c: Config, s: State, ev: Event): State
    requires Enabled(c, s, ev)
  {
    match ev
    case Arrive(r) => Move(s, r, Arrived)
    case Cancelled(r) => Move(s, r, Gone(false))
    case Refuse(r) => Move(s, r, Gone(true))
    case Admit(r) => Move(s, r, Waiting).(backlogTokens := s.backlogTokens - 1)
    case GiveUp(r) => Move(s, r, Leaving)
    case Serve(r) => Move(s, r, Serving).(tokens := s.tokens - 1)
    case Finish(r) => Move(s, r, Leaving).(tokens := s.tokens + 1)
    case Leave(r) => Move(s, r, Gone(false)).(backlogTokens := s.backlogTokens + 1)
  }

  ghost predicate Run(c: Config, s: State, evs: seq<Event>, to: State)
    decreases |evs|
  {
    if evs == [] then s == to
    else Enabled(c, s, evs[0]) && Run(c, Apply(c, s, evs[0]), evs[1..], to)
  }

  /* ---------- conservation ---------- */

  function All(s: State, p: Phase): set<Request> { set r | r in s.phase && s.phase[r] == p }

  function Admitted(s: State): set<Request> { All(s, Waiting) + All(s, Serving) + All(s, Leaving) }

  ghost predicate Conserved(c: Config, s: State) {
    && s.tokens + |All(s, Serving)| == c.limit
    && s.backlogTokens + |All(s, Waiting)| + |All(s, Serving)| + |All(s, Leaving)| == c.limit + c.backlogLimit
  }

  // Moving one request changes two of the phase sets by one element each.
  lemma MoveCounts(s: State, r: Request, p: Phase)
    ensures var s' := Move(s, r, p);
      forall q :: All(s', q) == if q == p then All(s, q) + {r} else All(s, q) - {r}
  {
  }

  lemma ConservedStep(c: Config, s: State, ev: Event)
    requires Conserved(c, s) && Enabled(c, s, ev)
    ensures Conserved(c, Apply(c, s, ev))
  {
    var p := Apply(c, s, ev).phase[ev.r];
    MoveCounts(s, ev.r, p);
    assert forall q :: All(Apply(c, s, ev), q) == All(Move(s, ev.r, p), q);
  }

  lemma {:induction false} ConservedRun(c: Config, s: State, evs: seq<Event>, to: State)
    requires Conserved(c, s) && Run(c, s, evs, to)
    ensures Conserved(c, to)
    decreases |evs|
  {
    if evs != [] {
      ConservedStep(c, s, evs[0]);
      ConservedRun(c, Apply(c, s, evs[0]), evs[1..], to);
    }
  }

  lemma Disjoint(s: State)
    ensures |Admitted(s)| == |All(s, Waiting)| + |All(s, Serving)| + |All(s, Leaving)|
  {
    assert All(s, Waiting) !! All(s, Serving) && All(s, Waiting) + All(s, Serving) !! All(s, Leaving);
  }

  // In every reachable state no more than `limit` requests are served and no more than
  // limit + backlogLimit are admitted, and a request is refused exactly when that many are.
  lemma Capacity(c: Config, evs: seq<Event>, s: State, r: Request)
    requires Run(c, Initial(c), evs, s)
    ensures Conserved(c, s) && |All(s, Serving)| <= c.limit && |Admitted(s)| <= c.limit + c.backlogLimit
    ensures Enabled(c, s, Refuse(r)) <==> In(s, r, Arrived) && |Admitted(s)| == c.limit + c.backlogLimit
    ensures Enabled(c, s, Admit(r)) <==> In(s, r, Arrived) && |Admitted(s)| < c.limit + c.backlogLimit
    ensures Enabled(c, s, Serve(r)) <==> In(s, r, Waiting) && |All(s, Serving)| < c.limit
  {
    assert forall p :: All(Initial(c), p) == {};
    ConservedRun(c, Initial(c), evs, s);
    Disjoint(s);
  }

  // Sends never block, and whenever somebody waits while nobody is served a token is free.
  lemma Progress(c: Config, evs: seq<Event>, s: State, r: Request)
    requires c.Allowed() && Run(c, Initial(c), evs, s)
    ensures In(s, r, Serving) ==> Enabled(c, s, Finish(r))
    ensures In(s, r, Leaving) ==> Enabled(c, s, Leave(r))
    ensures In(s, r, Waiting) && All(s, Serving) == {} ==> Enabled(c, s, Serve(r))
  {
    Capacity(c, evs, s, r);
    if In(s, r, Serving) { NonEmpty(All(s, Serving), r); }
    if In(s, r, Leaving) { NonEmpty(All(s, Leaving), r); }
  }

  lemma NonEmpty(q: set<Request>, r: Request)
    requires r in q
    ensures |q| > 0
  {
  }

  /* ---------- draining ---------- */

  // An upper bound on the steps the requests at hand can still take.
  function Measure(s: State): nat {
    4 * |All(s, Arrived)| + 3 * |All(s, Waiting)| + 2 * |All(s, Serving)| + |All(s, Leaving)|
  }

  lemma MeasureFalls(c: Config, s: State, ev: Event)
    requires Enabled(c, s, ev) && !ev.Arrive?
    ensures Measure(Apply(c, s, ev)) < Measure(s)
  {
    var p := Apply(c, s, ev).phase[ev.r];
    MoveCounts(s, ev.r, p);
    assert forall q :: All(Apply(c, s, ev), q) == All(Move(s, ev.r, p), q);
    assert ev.r in All(s, s.phase[ev.r]);
  }

  // Without new arrivals every run is finite ...
  lemma {:induction false} DrainIsBounded(c: Config, s: State, evs: seq<Event>, to: State)
    requires Run(c, s, evs, to) && forall i :: 0 <= i < |evs| ==> !evs[i].Arrive?
    ensures |evs| + Measure(to) <= Measure(s)
    decreases |evs|
  {
    if evs != [] {
      MeasureFalls(c, s, evs[0]);
      DrainIsBounded(c, Apply(c, s, evs[0]), evs[1..], to);
    }
  }

  lemma {:induction false} RunSnoc(c: Config, s: State, evs: seq<Event>, mid: State, ev: Event)
    requires Run(c, s, evs, mid) && Enabled(c, mid, ev)
    ensures Run(c, s, evs + [ev], Apply(c, mid, ev))
    decreases |evs|
  {
    if evs == [] {
      assert [ev][1..] == [];
    } else {
      RunSnoc(c, Apply(c, s, evs[0]), evs[1..], mid, ev);
      assert (evs + [ev])[1..] == evs[1..] + [ev];
    }
  }

  // Neither an arrival nor a way out other than being served.
  predicate Regular(ev: Event) { !ev.Arrive? && !ev.GiveUp? && !ev.Cancelled? }

  ghost predicate Drained(c: Config, s: State) {
    && (forall r :: r in s.phase ==> s.phase[r].Gone?)
    && s.tokens == c.limit && s.backlogTokens == c.limit + c.backlogLimit
  }

  lemma DrainNeverSticks(c: Config, evs: seq<Event>, s: State) returns (ev: Event)
    requires c.Allowed() && Run(c, Initial(c), evs, s) && !Drained(c, s)
    ensures Enabled(c, s, ev) && Regular(ev)
  {
    Capacity(c, evs, s, 0);
    ev := Arrive(0);
    if r :| r in s.phase && !s.phase[r].Gone? {
      Progress(c, evs, s, r);
      match s.phase[r]
      case Arrived => ev := if s.backlogTokens == 0 then Refuse(r) else Admit(r);
      case Waiting =>
        if q :| q in All(s, Serving) {
          Progress(c, evs, s, q);
          ev := Finish(q);
        } else {
          ev := Serve(r);
        }
      case Serving => ev := Finish(r);
      case Leaving => ev := Leave(r);
    }
  }

  // ... and from every reachable state one leads, without a timeout or a cancellation, to the
  // state in which every request is gone and every token is back.
  lemma {:induction false} Drains(c: Config, evs: seq<Event>, s: State) returns (more: seq<Event>, to: State)
    requires c.Allowed() && Run(c, Initial(c), evs, s)
    ensures Run(c, s, more, to) && Drained(c, to) && |more| <= Measure(s)
    ensures forall i :: 0 <= i < |more| ==> Regular(more[i])
    decreases Measure(s)
  {
    if Drained(c, s) {
      more, to := [], s;
    } else {
      var ev := DrainNeverSticks(c, evs, s);
      RunSnoc(c, Initial(c), evs, s, ev);
      MeasureFalls(c, s, ev);
      var rest;
      rest, to := Drains(c, evs + [ev], Apply(c, s, ev));
      more := [ev] + rest;
      assert more[1..] == rest;
    }
  }

  /* ---------- the code ---------- */

  class Throttler {
    const config: Config
    var tokens: nat          // len(t.tokens), a channel of capacity Limit
    var backlogTokens: nat   // len(t.backlogTokens), of capacity Limit + BacklogLimit
    ghost var view: State

    ghost predicate Valid()
      reads this
    {
      tokens == view.tokens && backlogTokens == view.backlogTokens && Conserved(config, view)
    }

    constructor (c: Config)
      requires c.Allowed()
      ensures config == c && Valid() && view == Initial(c)
      ensures tokens == c.limit && backlogTokens == c.limit + c.backlogLimit
    {
      config := c;
      var free, backlog := 0, 0;
      for i := 0 to c.limit + c.backlogLimit
        invariant backlog == i && free == if i < c.limit then i else c.limit
      {
        if i < c.limit {
          free := free + 1;
        }
        backlog := backlog + 1;
      }
      tokens, backlogTokens := free, backlog;
      view := Initial(c);
      assert forall p :: All(Initial(c), p) == {};
    }

    // The outer select.  `takeCancelled` is the choice it makes when the context is done and a
    // token is there as well.
    method Enter(r: Request, cancelled: bool, takeCancelled: bool) returns (admitted: bool)
      requires Valid() && In(view, r, Arrived)
      modifies this
      ensures Valid()
      ensures admitted <==> old(backlogTokens) > 0 && !(cancelled && takeCancelled)
      ensures !admitted ==> In(view, r, Gone(!cancelled))
      ensures backlogTokens == old(backlogTokens) - if admitted then 1 else 0
      ensures view ==
          Apply(config, old(view), if admitted then Admit(r) else if cancelled then Cancelled(r) else Refuse(r))
    {
      admitted := false;
      if cancelled && (backlogTokens == 0 || takeCancelled) {
        Step(Cancelled(r));
      } else if backlogTokens > 0 {
        Step(Admit(r));
        backlogTokens := backlogTokens - 1;
        admitted := true;
      } else {
        Step(Refuse(r));
      }
    }

    // The inner select once it has something to do.
    method Await(r: Request, expired: bool, takeExpired: bool) returns (serving: bool)
      requires Valid() && In(view, r, Waiting) && (expired || tokens > 0)
      modifies this
      ensures Valid()
      ensures serving <==> old(tokens) > 0 && !(expired && takeExpired)
      ensures tokens == old(tokens) - if serving then 1 else 0
      ensures view == Apply(config, old(view), if serving then Serve(r) else GiveUp(r))
    {
      serving := tokens > 0 && !(expired && takeExpired);
      if serving {
        Step(Serve(r));
        tokens := tokens - 1;
      } else {
        Step(GiveUp(r));
      }
    }

    // The deferred sends, the later deferred one first.  Neither finds its channel full.
    method Return(r: Request, served: bool)
      requires Valid() && In(view, r, if served then Serving else Leaving)
      modifies this
      ensures Valid() && In(view, r, Gone(false))
      ensures tokens == old(tokens) + (if served then 1 else 0) <= config.limit
      ensures backlogTokens == old(backlogTokens) + 1 <= config.limit + config.backlogLimit
      ensures view.phase == old(view).phase[r := Gone(false)]
    {
      if served {
        NonEmpty(All(view, Serving), r);
        Step(Finish(r));
        tokens := tokens + 1;
      }
      NonEmpty(All(view, Leaving), r);
      Step(Leave(r));
      backlogTokens := backlogTokens + 1;
    }

    ghost method Step(ev: Event)
      requires Conserved(config, view) && Enabled(config, view, ev)
      modifies this`view
      ensures Conserved(config, view) && view == Apply(config, old(view), ev)
    {
      ConservedStep(config, view, ev);
      view := Apply(config, view, ev);
    }
  }
}
