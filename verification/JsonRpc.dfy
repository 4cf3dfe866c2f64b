/** The middlewares around the proxy handler: answering denied methods locally, splitting a
    batch into one request per entry, and merging the buffered answers. */
module JsonRpc {
  import opened Wrappers
  import opened RpcFrames
  import opened Failover
  import opened FailoverSafety
  import opened FailoverRuns
  import opened FailoverCrash
  import opened FailoverSources

  // Some(answer): the request is answered here.  None: it is passed to the next handler.
  method DenyRpcMethods(methods: seq<string>, f: Frame) returns (answer: Option<Frame>)
    ensures answer.Some? <==>
        f.methodName != "" && f.id != 0 && exists i :: 0 <= i < |methods| && IgnoringCase(methods[i], f.methodName)
    ensures answer.Some? <==> AnsweredLocally(methods, f)
    ensures answer.Some? ==> answer.value == Denial(f.id)
    ensures answer.Some? ==> answer.value.id == f.id && answer.value.error == Some(-32601)
  {
    forall i | 0 <= i < |methods|
      ensures EqualFold(methods[i], f.methodName) <==> IgnoringCase(methods[i], f.methodName)
    {
      FoldIgnoresCase(methods[i], f.methodName);
    }
    if f.methodName != "" {
      for i := 0 to |methods|
        invariant forall j :: 0 <= j < i ==> !(EqualFold(methods[j], f.methodName) && f.id != 0)
      {
        if EqualFold(methods[i], f.methodName) {
          if f.id != 0 {
            return Some(Denial(f.id));
          }
        }
      }
    }
    return None;
  }

  datatype BatchError = TooLarge | Unparsable(entry: nat) | NoEntries

  method SplitBatchToSubrequests(batch: seq<Frame>) returns (r: Result<seq<Frame>, BatchError>)
    ensures r.Success? <==> |batch| <= 50
    ensures r.Success? ==> r.value == batch
    ensures r.Failure? ==> r.error == TooLarge
  {
    if |batch| > MAX_BATCH {
      return Failure(TooLarge);
    }
    var requests := [];
    for i := 0 to |batch|
      invariant requests == batch[..i]
    {
      requests := requests + [batch[i]];
    }
    return Success(requests);
  }

  // What the buffers of the entries amount to; a buffer nothing was written to does not parse,
  // and without entries there is no header to copy.
  ghost predicate Merges(writers: seq<Option<Frame>>, r: Result<seq<Frame>, BatchError>) {
    match r
    case Success(batch) =>
      |batch| == |writers| > 0 && forall i :: 0 <= i < |writers| ==> writers[i] == Some(batch[i])
    case Failure(Unparsable(k)) =>
      k < |writers| && writers[k].None? && forall i :: 0 <= i < k ==> writers[i].Some?
    case Failure(e) => e == NoEntries && writers == []
  }

  method WriteBatchResponse(writers: seq<Option<Frame>>) returns (r: Result<seq<Frame>, BatchError>)
    ensures Merges(writers, r)
    ensures r.Success? <==> |writers| > 0 && forall i :: 0 <= i < |writers| ==> writers[i].Some?
    ensures r.Success? ==> |r.value| == |writers| && forall i :: 0 <= i < |writers| ==> r.value[i] == writers[i].value
  {
    var batch := [];
    for i := 0 to |writers|
      invariant |batch| == i && forall j :: 0 <= j < i ==> writers[j] == Some(batch[j])
    {
      match writers[i] {
        case None => return Failure(Unparsable(i));
        case Some(frame) => batch := batch + [frame];
      }
    }
    if |writers| == 0 {
      return Failure(NoEntries);
    }
    return Success(batch);
  }

  // The buffers of the `n` goroutines started for one batch.
  function Buffers(s: State, first: Ticket, n: nat): (writers: seq<Option<Frame>>)
    requires first + n <= |s.calls|
    ensures |writers| == n
  {
    seq(n, i requires 0 <= i < n => if s.calls[first + i].phase.Done? then s.calls[first + i].phase.answer else None)
  }

  // Whatever the goroutines, the poll goroutine and the network did while a batch was served:
  // if it is answered at all, entry i of the answer bears the id of entry i of the batch.  It is
  // the denial where the method is denied, and elsewhere a frame read from an upstream meanwhile,
  // for an entry that went upstream under that id.
  lemma BatchAnsweredInPlace(deny: seq<string>, before: seq<Event>, s: State, frames: seq<Frame>,
                             during: seq<Event>, to: State, r: Result<seq<Frame>, BatchError>)
    requires Run(Initial(deny), before, s) && Enabled(s, Begin(frames))
    requires Run(Apply(s, Begin(frames)), during, to)
    ensures |s.calls| + |frames| <= |to.calls|
    ensures Merges(Buffers(to, |s.calls|, |frames|), r) && r.Success? ==>
      && |r.value| == |frames|
      && forall i :: 0 <= i < |frames| ==>
           && r.value[i].id == frames[i].id
           && if AnsweredLocally(deny, frames[i]) then r.value[i] == Denial(frames[i].id)
              else ReadDuring(deny, s, frames, to, i, r.value[i])
  {
    AnswersMatchRequests(deny, before, s, frames, during, to, |frames| - 1);
    if Merges(Buffers(to, |s.calls|, |frames|), r) && r.Success? {
      forall i | 0 <= i < |frames|
        ensures r.value[i].id == frames[i].id
        ensures if AnsweredLocally(deny, frames[i]) then r.value[i] == Denial(frames[i].id)
                else ReadDuring(deny, s, frames, to, i, r.value[i])
      {
        assert Buffers(to, |s.calls|, |frames|)[i] == Some(r.value[i]);
        AnswersMatchRequests(deny, before, s, frames, during, to, i);
        if AnsweredLocally(deny, frames[i]) {
          BatchDenial(deny, before, s, frames, during, to, i);
        } else {
          AnswersComeFromUpstream(deny, before, s, frames, during, to, i);
        }
      }
    }
  }

  // If the batch repeats no id, that entry is entry i itself.
  lemma OwnAnswer(deny: seq<string>, s: State, frames: seq<Frame>, to: State, i: nat, f: Frame)
    requires DistinctIds(deny, frames) && i < |frames| && !AnsweredLocally(deny, frames[i])
    requires ReadDuring(deny, s, frames, to, i, f)
    ensures exists k ::
      && |s.handled| <= k < |to.handled|
      && to.handled[k].frame == f && to.handled[k].to == Some(|s.calls| + i)
  {
  }

  lemma BatchDenial(deny: seq<string>, before: seq<Event>, s: State, frames: seq<Frame>,
                    during: seq<Event>, to: State, i: nat)
    requires Run(Initial(deny), before, s) && Enabled(s, Begin(frames))
    requires Run(Apply(s, Begin(frames)), during, to)
    requires i < |frames| && AnsweredLocally(deny, frames[i]) && |s.calls| + i < |to.calls|
    ensures to.calls[|s.calls| + i].phase in {Fresh, Done(Some(Denial(frames[i].id)))}
  {
    AnswersMatchRequests(deny, before, s, frames, during, to, i);
    assert to.calls[|s.calls| + i].request == frames[i];
    assert Local(to, to.calls[|s.calls| + i]);
  }
}
