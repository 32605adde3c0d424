/** The retry loop of `transcribe_audio`.

    The audio bytes are read once and POSTed to the speech-to-text endpoint
    up to `MaxAttempts` times. The endpoint is modelled as the finite sequence
    of parsed replies it gives to successive calls; a call past the end of
    that sequence stands for a call that raised (a network failure or a body
    that is not JSON), which `transcribe_audio` does not catch. Sleeping is
    recorded as a wait instead of performed. */
module Transcription {
  import opened Wrappers

  const MaxAttempts: nat := 10
  const GiveUpMessage := "Failed to load model after multiple attempts"

  /** A parsed reply: whether it has an `'error'` key, the value of its
      `'estimated_time'` key if it has one (whole seconds), and the rest of
      the JSON document, kept opaque. */
  datatype Response = Response(hasError: bool, estimatedTime: Option<nat>, payload: string)

  /** The payload returned once every attempt reported a loading model. */
  const GiveUp := Response(true, None, GiveUpMessage)

  /** How the loop reads one reply. */
  datatype Verdict =
    | Done              // no 'error' key: returned as is
    | Loading(wait: nat) // 'error' and 'estimated_time': sleep, then retry
    | Terminal          // 'error' without 'estimated_time': returned as is

  function Classify(r: Response): (v: Verdict)
    ensures v.Done? <==> !r.hasError
    ensures v.Loading? <==> r.hasError && r.estimatedTime.Some?
    ensures v.Loading? ==> r.estimatedTime == Some(v.wait)
  {
    if !r.hasError then Done
    else if r.estimatedTime.Some? then Loading(r.estimatedTime.value)
    else Terminal
  }

  predicate IsLoading(r: Response) {
    Classify(r).Loading?
  }

  /** What `transcribe_audio` ends with: a returned dictionary, or an
      exception from the call that found no reply. */
  datatype Outcome = Returned(result: Response) | Raised

  /** The observable run: its outcome, the number of POSTs made, and the
      waits performed, in order. */
  datatype Trace = Trace(outcome: Outcome, calls: nat, waits: seq<nat>)

  /** Reply number `i` reported a loading model and asked for a wait of `w`. */
  ghost predicate WaitedFor(rs: seq<Response>, i: nat, w: nat) {
    i < |rs| && Classify(rs[i]) == Loading(w)
  }

  /** The declarative description of a run that starts with attempt number
      `start`: a stretch of loading replies, each answered by its wait, then
      either the attempt budget is spent, or the next reply is returned, or
      the next call raises. */
  ghost predicate RunFrom(rs: seq<Response>, start: nat, t: Trace) {
    && start + |t.waits| <= MaxAttempts
    && (forall k :: 0 <= k < |t.waits| ==> WaitedFor(rs, start + k, t.waits[k]))
    && var next := start + |t.waits|;
       if next == MaxAttempts then
         t.calls == MaxAttempts && t.outcome == Returned(GiveUp)
       else if next < |rs| then
         t.calls == next + 1 && !IsLoading(rs[next]) && t.outcome == Returned(rs[next])
       else
         t.calls == next + 1 && t.outcome == Raised
  }

  ghost predicate IsRun(rs: seq<Response>, t: Trace) {
    RunFrom(rs, 0, t)
  }

  /** The loop from attempt number `attempt` on. */
  function Poll(rs: seq<Response>, attempt: nat): (t: Trace)
    requires attempt <= MaxAttempts
    ensures RunFrom(rs, attempt, t)
    decreases MaxAttempts - attempt
  {
    if attempt == MaxAttempts then Trace(Returned(GiveUp), MaxAttempts, [])
    else if |rs| <= attempt then Trace(Raised, attempt + 1, [])
    else
      match Classify(rs[attempt])
      case Done => Trace(Returned(rs[attempt]), attempt + 1, [])
      case Terminal => Trace(Returned(rs[attempt]), attempt + 1, [])
      case Loading(w) =>
        var rest := Poll(rs, attempt + 1);
        Trace(rest.outcome, rest.calls, [w] + rest.waits)
  }

  /** `transcribe_audio` against an endpoint that answers `rs`. */
  function Transcribe(rs: seq<Response>): (t: Trace)
    ensures IsRun(rs, t)
    ensures 1 <= t.calls <= MaxAttempts
    ensures |t.waits| < t.calls || (t.calls == MaxAttempts && t.outcome == Returned(GiveUp))
    ensures forall k :: 0 <= k < |t.waits| ==>
              k < |rs| && rs[k].hasError && rs[k].estimatedTime == Some(t.waits[k])
  {
    Poll(rs, 0)
  }

  /** The waits a stretch of loading replies asks for. */
  function LoadingWaits(rs: seq<Response>): (ws: seq<nat>)
    requires forall k :: 0 <= k < |rs| ==> IsLoading(rs[k])
    ensures |ws| == |rs|
    ensures forall k :: 0 <= k < |rs| ==> rs[k].estimatedTime == Some(ws[k])
  {
    if |rs| == 0 then []
    else
      assert IsLoading(rs[0]);
      [Classify(rs[0]).wait] + LoadingWaits(rs[1..])
  }

  // ---------------------------------------------------------------------
  // A run is determined by the replies.

  /** How many loading replies in a row the loop meets from attempt number
      `start` on, before its attempt budget runs out. */
  function LoadingStretch(rs: seq<Response>, start: nat): nat
    requires start <= MaxAttempts
    decreases MaxAttempts - start
  {
    if start == MaxAttempts || |rs| <= start || !IsLoading(rs[start]) then 0
    else 1 + LoadingStretch(rs, start + 1)
  }

  /** A run waits once per reply of the loading stretch, no more, no fewer. */
  lemma {:induction false} RunWaitsForStretch(rs: seq<Response>, start: nat, t: Trace)
    requires start <= MaxAttempts
    requires RunFrom(rs, start, t)
    ensures |t.waits| == LoadingStretch(rs, start)
    decreases MaxAttempts - start
  {
    if |t.waits| > 0 {
      var tail := t.waits[1..];
      var rest := Trace(t.outcome, t.calls, tail);
      var first := t.waits[0];
      assert Classify(rs[start]) == Loading(first);
      forall k | 0 <= k < |tail|
        ensures WaitedFor(rs, start + 1 + k, tail[k])
      {
        var w := t.waits[k + 1];
        assert tail[k] == w;
      }
      assert RunFrom(rs, start + 1, rest);
      RunWaitsForStretch(rs, start + 1, rest);
    }
  }

  /** Two runs over the same replies from the same attempt are the same run. */
  lemma RunDetermined(rs: seq<Response>, start: nat, t1: Trace, t2: Trace)
    requires start <= MaxAttempts
    requires RunFrom(rs, start, t1) && RunFrom(rs, start, t2)
    ensures t1 == t2
  {
    RunWaitsForStretch(rs, start, t1);
    RunWaitsForStretch(rs, start, t2);
    forall k | 0 <= k < |t1.waits|
      ensures t1.waits[k] == t2.waits[k]
    {
      assert Loading(t1.waits[k]) == Classify(rs[start + k]) == Loading(t2.waits[k]);
    }
  }

  /** `Transcribe` is exactly the run the replies determine. */
  lemma TranscribeIsTheRun(rs: seq<Response>, t: Trace)
    ensures IsRun(rs, t) <==> t == Transcribe(rs)
  {
    if IsRun(rs, t) {
      RunDetermined(rs, 0, t, Transcribe(rs));
    }
  }

  // ---------------------------------------------------------------------
  // The retry policy, reply shape by reply shape.

  /** When attempt `i` is the first reply that is not a loading report, that
      reply is returned unchanged after exactly `i + 1` calls, having waited
      once for each earlier reply. */
  lemma StopsAtFirstNonLoading(rs: seq<Response>, i: nat)
    requires i < MaxAttempts && i < |rs|
    requires !IsLoading(rs[i])
    requires forall j :: 0 <= j < i ==> IsLoading(rs[j])
    ensures Transcribe(rs) == Trace(Returned(rs[i]), i + 1, LoadingWaits(rs[..i]))
  {
    var t := Trace(Returned(rs[i]), i + 1, LoadingWaits(rs[..i]));
    assert IsRun(rs, t);
    RunDetermined(rs, 0, t, Transcribe(rs));
  }

  /** The first reply without an `'error'` key ends the loop: it is returned
      unchanged and no further call is made. */
  lemma SuccessReturnedAtOnce(rs: seq<Response>, i: nat)
    requires i < MaxAttempts && i < |rs|
    requires !rs[i].hasError
    requires forall j :: 0 <= j < i ==> IsLoading(rs[j])
    ensures Transcribe(rs).outcome == Returned(rs[i])
    ensures Transcribe(rs).calls == i + 1
  {
    StopsAtFirstNonLoading(rs, i);
  }

  /** A reply with `'error'` but no `'estimated_time'` is returned unchanged,
      without a retry, after as many calls as its position. */
  lemma TerminalErrorNotRetried(rs: seq<Response>, i: nat)
    requires i < MaxAttempts && i < |rs|
    requires rs[i].hasError && rs[i].estimatedTime.None?
    requires forall j :: 0 <= j < i ==> IsLoading(rs[j])
    ensures Transcribe(rs).outcome == Returned(rs[i])
    ensures Transcribe(rs).calls == i + 1
    ensures |Transcribe(rs).waits| == i
  {
    StopsAtFirstNonLoading(rs, i);
  }

  /** Ten loading replies in a row: the loop waits ten times (the last wait
      is followed by no call) and returns the fixed failure payload after
      exactly ten calls. */
  lemma GivesUpAfterTenLoading(rs: seq<Response>)
    requires |rs| >= MaxAttempts
    requires forall j :: 0 <= j < MaxAttempts ==> IsLoading(rs[j])
    ensures Transcribe(rs) == Trace(Returned(GiveUp), MaxAttempts, LoadingWaits(rs[..MaxAttempts]))
  {
    var t := Trace(Returned(GiveUp), MaxAttempts, LoadingWaits(rs[..MaxAttempts]));
    assert IsRun(rs, t);
    RunDetermined(rs, 0, t, Transcribe(rs));
  }

  /** Replies after the one that ends the loop are never asked for: giving
      the endpoint more replies to send changes nothing. */
  lemma LaterRepliesIgnored(rs: seq<Response>, more: seq<Response>)
    requires Transcribe(rs).outcome.Returned?
    ensures Transcribe(rs + more) == Transcribe(rs)
  {
    var t := Transcribe(rs);
    forall k | 0 <= k < |t.waits|
      ensures (rs + more)[k] == rs[k]
    {
    }
    if |t.waits| < MaxAttempts {
      assert (rs + more)[|t.waits|] == rs[|t.waits|];
    }
    assert IsRun(rs + more, t);
    RunDetermined(rs + more, 0, t, Transcribe(rs + more));
  }

  /** A reply with `'estimated_time'` but no `'error'` key counts as success:
      the loop tests for the `'error'` key, not for a `'text'` key. */
  lemma EstimatedTimeAloneIsSuccess(wait: nat, payload: string, rest: seq<Response>)
    ensures var r := Response(false, Some(wait), payload);
      Transcribe([r] + rest) == Trace(Returned(r), 1, [])
  {
    var r := Response(false, Some(wait), payload);
    StopsAtFirstNonLoading([r] + rest, 0);
    assert ([r] + rest)[..0] == [];
  }
}
