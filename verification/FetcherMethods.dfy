/** The methods of the stripe fetcher, each proved to compute a composition of atomic steps. */
module FetcherMethods {
  import Disk
  import opened BufferPool
  import opened Metadata
  import opened Fetcher
  import opened FetcherRuns

  /** The fetcher and the shared state it marks failed stripes in. */
  datatype Pair = Pair(st: State, shared: Shared)

  ghost predicate Ready(p: Pair, n: nat) {
    Valid(p.st, n) && |p.shared.fetch| == n
  }

  /** A stripe that leaves the fetcher without being fetched is marked failed. */
  function Mark(before: State, after: State, s: nat, shared: Shared): Shared
    requires s < |shared.fetch|
  {
    if GivesUp(before, after, s) then shared.SetFailed(s) else shared
  }

  // ----- start_fetches -----

  function StartStep(p: Pair, n: nat, accepted: bool): (r: Pair)
    requires Ready(p, n) && CanStart(p.st)
    ensures Ready(r, n)
    ensures AttemptsLeft(r.st.queue, r.st.retries) < AttemptsLeft(p.st.queue, p.st.retries)
    ensures r.shared.written == p.shared.written
  {
    StartValid(p.st, accepted, n);
    StartUsesAttempt(p.st, accepted, n);
    QueuePopped(p.st.queue, p.st.phases);
    Pair(StartOne(p.st, accepted), Mark(p.st, StartOne(p.st, accepted), p.st.queue[0], p.shared))
  }

  /** accept(i) says whether the source takes the i-th request. */
  function StartAll(p: Pair, n: nat, accept: nat -> bool, i: nat): (r: Pair)
    requires Ready(p, n)
    ensures Ready(r, n) && !CanStart(r.st) && r.shared.written == p.shared.written
    decreases AttemptsLeft(p.st.queue, p.st.retries)
  {
    if !CanStart(p.st) then p else StartAll(StartStep(p, n, accept(i)), n, accept, i + 1)
  }

  // ----- poll_fetches -----

  function Ids(cs: seq<(nat, bool)>): set<nat> {
    set c | c in cs :: c.0
  }

  /** Which requests are outstanding changes for these stripes only. */
  ghost predicate SameOutside(a: State, b: State, ids: set<nat>) {
    forall s | s !in ids ::
      && (s in a.buffers <==> s in b.buffers) && (s in a.reading <==> s in b.reading)
      && (s in a.writing <==> s in b.writing)
      && (InFlight(a.phases, s) <==> InFlight(b.phases, s))
  }

  lemma DoneTouchesOne(st: State, s: nat, success: bool, submitted: bool)
    requires s in st.buffers ==> st.pool.Holds(st.buffers[s])
    ensures SameOutside(st, SourceDone(st, s, success, submitted), {s})
    ensures SameOutside(st, TargetDone(st, s, success, submitted), {s})
  {
  }

  function SourceStep(p: Pair, n: nat, c: (nat, bool), submitted: bool): (r: Pair)
    requires Ready(p, n) && (c.0 in p.st.buffers ==> c.0 in p.st.reading)
    ensures Ready(r, n) && r.shared.written == p.shared.written && SameOutside(p.st, r.st, {c.0})
  {
    SourceDoneValid(p.st, c.0, c.1, submitted, n);
    DoneTouchesOne(p.st, c.0, c.1, submitted);
    hide Valid, SourceDone;
    var after := SourceDone(p.st, c.0, c.1, submitted);
    Pair(after, if c.0 < n then Mark(p.st, after, c.0, p.shared) else p.shared)
  }

  /** A success for a stripe that is not in flight is nobody's. */
  predicate Stray(st: State, c: (nat, bool)) {
    c.1 && !InFlight(st.phases, c.0)
  }

  lemma StrayIgnored(st: State, n: nat, c: (nat, bool), submitted: bool)
    requires Valid(st, n) && Stray(st, c)
    ensures c.0 !in st.buffers && c.0 !in st.writing
    ensures TargetDone(st, c.0, c.1, submitted) == st
  {
  }

  /** A failure for a stripe that is not in flight is not ignored: the stripe is queued, also when it is
      fetched already; the fetcher stays consistent exactly if the stripe was not queued before. */
  lemma StrayFailure(st: State, n: nat, s: nat, submitted: bool)
    requires Valid(st, n) && !InFlight(st.phases, s) && s < n
    ensures s !in st.buffers
    ensures var next := TargetDone(st, s, false, submitted);
            && (!InPhase(st.phases, s, QueuedPhase) ==> InPhase(next.phases, s, QueuedPhase))
            && (Valid(next, n) <==> !InPhase(st.phases, s, QueuedPhase))
  {
    var next := TargetDone(st, s, false, submitted);
    if InPhase(st.phases, s, QueuedPhase) {
      var i :| 0 <= i < |st.queue| && st.queue[i] == s;
      assert next.queue[i] == s;
      assert Exhausted(st, s) || next.queue[|st.queue|] == s;
    } else {
      RequeuedValid(st, n, s, submitted);
    }
  }

  lemma RequeuedValid(st: State, n: nat, s: nat, submitted: bool)
    requires Valid(st, n) && !Active(st.phases, s) && s < n
    ensures s !in st.buffers && Valid(TargetDone(st, s, false, submitted), n)
    ensures InPhase(TargetDone(st, s, false, submitted).phases, s, QueuedPhase)
  {
    assert st.writing - {s} == st.writing && st.buffers - {s} == st.buffers;
    QueueAfter(st.queue, st.phases, s, QueuedPhase);
  }

  function TargetStep(p: Pair, n: nat, c: (nat, bool), submitted: bool): (r: Pair)
    requires Ready(p, n) && (c.0 in p.st.writing || Stray(p.st, c))
    ensures Ready(r, n) && r.shared.written == p.shared.written && SameOutside(p.st, r.st, {c.0})
  {
    if Stray(p.st, c) then p
    else
      TargetDoneValid(p.st, c.0, c.1, submitted, n);
      InFlightHasBuffer(p.st, n, c.0);
      DoneTouchesOne(p.st, c.0, c.1, submitted);
      assert c.0 < n;
      hide Valid, TargetDone;
      var after := TargetDone(p.st, c.0, c.1, submitted);
      Pair(after, Mark(p.st, after, c.0, p.shared))
  }

  /** A batch of completions from the source: known stripes were requested, unknown ones are ignored. */
  predicate SourceBatch(st: State, cs: seq<(nat, bool)>) {
    Disk.DistinctIds(cs) && forall c | c in cs :: c.0 in st.buffers ==> c.0 in st.reading
  }

  /** A batch of completions from the target: of outstanding requests, or successes that are ignored. */
  predicate TargetBatch(st: State, cs: seq<(nat, bool)>) {
    Disk.DistinctIds(cs) && forall c | c in cs :: c.0 in st.writing || Stray(st, c)
  }

  function SourceAll(p: Pair, n: nat, cs: seq<(nat, bool)>, submit: nat -> bool): (r: Pair)
    requires Ready(p, n) && SourceBatch(p.st, cs)
    ensures Ready(r, n) && r.shared.written == p.shared.written
    ensures SameOutside(p.st, r.st, Ids(cs))
  {
    hide Ready, SourceStep;
    if cs == [] then p
    else
      var k := |cs| - 1;
      assert cs[k].0 !in Ids(cs[..k]) && Ids(cs) == Ids(cs[..k]) + {cs[k].0};
      SourceStep(SourceAll(p, n, cs[..k], submit), n, cs[k], submit(k))
  }

  function TargetAll(p: Pair, n: nat, cs: seq<(nat, bool)>, submit: nat -> bool): (r: Pair)
    requires Ready(p, n) && TargetBatch(p.st, cs)
    ensures Ready(r, n) && r.shared.written == p.shared.written
    ensures SameOutside(p.st, r.st, Ids(cs))
  {
    hide Ready, TargetStep;
    if cs == [] then p
    else
      var k := |cs| - 1;
      assert cs[k].0 !in Ids(cs[..k]) && Ids(cs) == Ids(cs[..k]) + {cs[k].0};
      TargetStep(TargetAll(p, n, cs[..k], submit), n, cs[k], submit(k))
  }

  /** poll_fetches: the source's completions first, then the target's. */
  lemma NoneDone(p: Pair, n: nat, submit: nat -> bool)
    requires Ready(p, n)
    ensures SourceBatch(p.st, []) && SourceAll(p, n, [], submit) == p
    ensures TargetBatch(p.st, []) && TargetAll(p, n, [], submit) == p
  {
  }

  lemma SourceNext(p: Pair, n: nat, cs: seq<(nat, bool)>, submit: nat -> bool, i: nat)
    requires Ready(p, n) && SourceBatch(p.st, cs) && i < |cs|
    ensures SourceBatch(p.st, cs[..i]) && SourceBatch(p.st, cs[..i + 1])
    ensures var mid := SourceAll(p, n, cs[..i], submit);
            && (cs[i].0 in mid.st.buffers ==> cs[i].0 in mid.st.reading)
            && SourceAll(p, n, cs[..i + 1], submit) == SourceStep(mid, n, cs[i], submit(i))
  {
    hide Ready, SourceStep;
    assert cs[..i + 1][..i] == cs[..i];
    assert cs[i].0 !in Ids(cs[..i]) && cs[i] in cs;
  }

  lemma TargetNext(p: Pair, n: nat, cs: seq<(nat, bool)>, submit: nat -> bool, i: nat)
    requires Ready(p, n) && TargetBatch(p.st, cs) && i < |cs|
    ensures TargetBatch(p.st, cs[..i]) && TargetBatch(p.st, cs[..i + 1])
    ensures var mid := TargetAll(p, n, cs[..i], submit);
            && (cs[i].0 in mid.st.writing || Stray(mid.st, cs[i]))
            && TargetAll(p, n, cs[..i + 1], submit) == TargetStep(mid, n, cs[i], submit(i))
  {
    hide Ready, TargetStep;
    assert cs[..i + 1][..i] == cs[..i];
    assert cs[i].0 !in Ids(cs[..i]) && cs[i] in cs;
  }

  function PollSpec(p: Pair, n: nat, fromSource: seq<(nat, bool)>, fromTarget: seq<(nat, bool)>,
                    submitWrite: nat -> bool, submitFlush: nat -> bool): (r: Pair)
    requires Ready(p, n) && SourceBatch(p.st, fromSource)
    requires TargetBatch(SourceAll(p, n, fromSource, submitWrite).st, fromTarget)
    ensures Ready(r, n) && r.shared.written == p.shared.written
  {
    TargetAll(SourceAll(p, n, fromSource, submitWrite), n, fromTarget, submitFlush)
  }

  /** The part of an update before completions are polled. */
  function UpdateStarted(p: Pair, n: nat, accept: nat -> bool): (r: Pair)
    requires Ready(p, n)
    ensures Ready(r, n) && r.shared.written == p.shared.written
  {
    AutofetchValid(p.st, p.shared, n);
    StartAll(p.(st := Autofetch(p.st, p.shared)), n, accept, 0)
  }

  predicate Busy(st: State) {
    st.queue != [] || st.reading != {} || st.writing != {} || st.finished != [] || st.autoQueue != []
  }

  /** Ending an attempt marks the stripe failed exactly when it is given up. */
  lemma MarkedOnlyWhenExhausted(before: State, st: State, s: nat, success: bool)
    requires s in st.buffers && st.pool.Holds(st.buffers[s]) && Active(before.phases, s)
    ensures GivesUp(before, Completed(st, s, success), s) <==> !success && Exhausted(st, s)
  {
    CompletedOutcome(st, s, success);
  }

  // ----- the object -----

  datatype TargetOp = WriteAt(offset: nat, count: nat, buffer: nat, id: nat) | FlushTarget(id: nat)

  class StripeFetcher {
    const pool: AlignedBufferPool
    const shared: SharedMetadataState
    const stripes: nat
    const stripeSectors: nat
    const targetSectors: nat
    var fetchQueue: seq<nat>
    var autofetchQueue: seq<nat>
    var autofetch: bool
    var stripeStates: map<nat, Phase>
    var stripeFetchRetries: map<nat, nat>
    var allocatedBuffers: map<nat, nat>
    var finishedFetches: seq<(nat, bool)>
    var disconnected: bool
    /** Requests outstanding at the source and at the target, and what was handed to the target. */
    var sourceBusy: set<nat>
    var targetBusy: set<nat>
    var targetLog: seq<TargetOp>

    function View(): State
      reads this, pool
    {
      State(fetchQueue, autofetchQueue, autofetch, pool.View(), stripeStates, stripeFetchRetries,
            allocatedBuffers, finishedFetches, sourceBusy, targetBusy, disconnected)
    }

    function Both(): Pair
      reads this, pool, shared
    {
      Pair(View(), shared.View())
    }

    ghost predicate Ok()
      reads this, pool, shared
    {
      Ready(Both(), stripes)
    }

    constructor (shared: SharedMetadataState, stripeSectors: nat, targetSectors: nat, sourceStripes: nat,
                 autofetch: bool)
      requires sourceStripes <= |shared.fetch|
      ensures Ok() && this.shared == shared && stripes == |shared.fetch| && fresh(pool)
      ensures View() == NewState(autofetch, sourceStripes)
    {
      NewStateValid(autofetch, sourceStripes, |shared.fetch|);
      var p := new AlignedBufferPool(MAX_CONCURRENT_FETCHES);
      this.shared, pool, stripes := shared, p, |shared.fetch|;
      this.stripeSectors, this.targetSectors := stripeSectors, targetSectors;
      fetchQueue, finishedFetches, this.autofetch, disconnected := [], [], autofetch, false;
      autofetchQueue := if autofetch then seq(sourceStripes, i => i) else [];
      stripeStates, stripeFetchRetries, allocatedBuffers := map[], map[], map[];
      sourceBusy, targetBusy, targetLog := {}, {}, [];
    }

    method HandleFetchRequest(s: nat)
      requires Ok() && s < stripes
      modifies this
      ensures Ok() && Both() == Pair(Request(old(View()), shared.View(), s), old(shared.View()))
    {
      RequestValid(View(), shared.View(), s, stripes);
      if shared.fetch[s] == Fetched || shared.fetch[s] == NoSource {
        return;
      }
      if s in stripeStates {
        return;
      }
      fetchQueue := fetchQueue + [s];
      stripeStates := stripeStates[s := QueuedPhase];
    }

    method UpdateAutofetch()
      requires Ok()
      modifies this
      ensures Ok() && shared.View() == old(shared.View())
      ensures old(View()).autoQueue != [] ==> old(View()).autoQueue[0] < |shared.fetch|
      ensures View() == Autofetch(old(View()), shared.View())
    {
      AutofetchValid(View(), shared.View(), stripes);
      if autofetch && fetchQueue == [] {
        if autofetchQueue != [] {
          var s := autofetchQueue[0];
          autofetchQueue := autofetchQueue[1..];
          HandleFetchRequest(s);
        }
      }
    }

    method FetchCompleted(s: nat, success: bool)
      requires s < |shared.fetch| && pool.View().Valid()
      requires s in allocatedBuffers ==> pool.View().Holds(allocatedBuffers[s])
      modifies this, pool, shared
      ensures View() == Completed(old(View()), s, success)
      ensures shared.View() == if !success
              && Exhausted(old(View()), s) then old(shared.View()).SetFailed(s) else old(shared.View())
      ensures targetLog == old(targetLog)
    {
      if s in allocatedBuffers {
        pool.ReturnBuffer(allocatedBuffers[s]);
      }
      allocatedBuffers := allocatedBuffers - {s};
      if success {
        stripeStates := stripeStates[s := FetchedPhase];
        stripeFetchRetries := stripeFetchRetries - {s};
        finishedFetches := finishedFetches + [(s, true)];
        return;
      }
      var retries := if s in stripeFetchRetries then stripeFetchRetries[s] else 0;
      if retries < MAX_FETCH_RETRIES {
        stripeFetchRetries := stripeFetchRetries[s := retries + 1];
        fetchQueue := fetchQueue + [s];
        stripeStates := stripeStates[s := QueuedPhase];
      } else {
        shared.SetStripeFailed(s);
        stripeStates := stripeStates - {s};
        stripeFetchRetries := stripeFetchRetries - {s};
        finishedFetches := finishedFetches + [(s, false)];
      }
    }

    /** Takes the head of the queue and gives it a buffer. */
    method Allocate() returns (s: nat)
      requires CanStart(View()) && pool.View().Valid()
      modifies this, pool
      ensures s == old(fetchQueue[0]) && View() == Allocated(old(View()))
      ensures targetLog == old(targetLog)
    {
      s := fetchQueue[0];
      fetchQueue := fetchQueue[1..];
      var found, buf := pool.GetBuffer();
      allocatedBuffers := allocatedBuffers[s := buf];
    }

    method StartFront(accepted: bool)
      requires Ok() && CanStart(View())
      modifies this, pool, shared
      ensures Ok() && Both() == StartStep(old(Both()), stripes, accepted)
    {
      hide Completed, QueueValid, BuffersValid, FlightsValid, RetriesValid, Exhausted;
      ghost var before := View();
      AllocatedFacts(before, stripes);
      StartValid(before, accepted, stripes);
      QueuePopped(before.queue, before.phases);
      var s := Allocate();
      if !accepted {
        MarkedOnlyWhenExhausted(before, Allocated(before), s, false);
        FetchCompleted(s, false);
      } else {
        stripeStates := stripeStates[s := FetchingPhase];
        sourceBusy := sourceBusy + {s};
      }
    }

    method StartFetches(accept: nat -> bool)
      requires Ok()
      modifies this, pool, shared
      ensures Ok() && Both() == StartAll(old(Both()), stripes, accept, 0)
    {
      hide Ready, StartStep, CanStart;
      var i := 0;
      while CanStart(View())
        invariant Ok() && StartAll(old(Both()), stripes, accept, 0) == StartAll(Both(), stripes, accept, i)
        decreases AttemptsLeft(fetchQueue, stripeFetchRetries)
      {
        StartFront(accept(i));
        i := i + 1;
      }
    }

    /** The sectors of a stripe that exist on the target. */
    method StartWrite(buf: nat, s: nat, submitOk: bool)
      requires s * stripeSectors <= targetSectors
      modifies this
      ensures View() == old(View()).(writing := if submitOk then old(View()).writing + {s} else old(View()).writing)
      ensures submitOk ==>
                var offset := s * stripeSectors;
                targetLog == old(targetLog) + [WriteAt(offset, Min(stripeSectors, targetSectors - offset), buf, s)]
      ensures !submitOk ==> targetLog == old(targetLog)
    {
      var offset := s * stripeSectors;
      var count := Min(stripeSectors, targetSectors - offset);
      if submitOk {
        targetLog := targetLog + [WriteAt(offset, count, buf, s)];
        targetBusy := targetBusy + {s};
      }
    }

    method FromSource(c: (nat, bool), submitOk: bool)
      requires Ok() && (c.0 in allocatedBuffers ==> c.0 in sourceBusy)
      requires forall s | s < stripes :: s * stripeSectors <= targetSectors
      modifies this, pool, shared
      ensures Ok() && Both() == SourceStep(old(Both()), stripes, c, submitOk)
    {
      hide Valid, Completed, Exhausted;
      var (s, success) := c;
      ghost var before := View();
      SourceDoneValid(before, s, success, submitOk, stripes);
      if s !in allocatedBuffers {
        NoBufferNoFlight(before, stripes, s);
        return;
      }
      InFlightHasBuffer(before, stripes, s);
      sourceBusy := sourceBusy - {s};
      var mid := View();
      if success {
        StartWrite(allocatedBuffers[s], s, submitOk);
      }
      if !success || !submitOk {
        MarkedOnlyWhenExhausted(before, mid, s, false);
        FetchCompleted(s, false);
      }
    }

    method StartFlush(s: nat, submitOk: bool)
      modifies this
      ensures View() == old(View()).(writing := if submitOk then old(View()).writing + {s} else old(View()).writing)
      ensures targetLog == old(targetLog) + if submitOk then [FlushTarget(s)] else []
    {
      if submitOk {
        targetLog := targetLog + [FlushTarget(s)];
        targetBusy := targetBusy + {s};
      }
    }

    method FromTarget(c: (nat, bool), submitOk: bool)
      requires Ok() && (c.0 in targetBusy || Stray(View(), c))
      modifies this, pool, shared
      ensures Ok() && Both() == TargetStep(old(Both()), stripes, c, submitOk)
    {
      hide Valid, Completed, Exhausted;
      var (s, success) := c;
      ghost var before := View();
      if success && (s !in stripeStates || (stripeStates[s] != FetchingPhase && stripeStates[s] != FlushingPhase)) {
        StrayIgnored(before, stripes, c, submitOk);
        return;
      }
      TargetDoneValid(before, s, success, submitOk, stripes);
      InFlightHasBuffer(before, stripes, s);
      MarkedOnlyWhenExhausted(before, before.(writing := before.writing - {s}), s, false);
      MarkedOnlyWhenExhausted(before, before.(writing := before.writing - {s}), s, true);
      targetBusy := targetBusy - {s};
      if success && stripeStates[s] == FetchingPhase {
        StartFlush(s, submitOk);
        if submitOk {
          stripeStates := stripeStates[s := FlushingPhase];
          assert before.writing - {s} + {s} == before.writing;
          return;
        }
      }
      FetchCompleted(s, success && stripeStates[s] == FlushingPhase);
    }

    method Update(accept: nat -> bool, fromSource: seq<(nat, bool)>, fromTarget: seq<(nat, bool)>,
                  submitWrite: nat -> bool, submitFlush: nat -> bool)
      requires Ok()
      requires SourceBatch(UpdateStarted(Both(), stripes, accept).st, fromSource)
      requires TargetBatch(SourceAll(UpdateStarted(Both(), stripes, accept), stripes, fromSource, submitWrite).st,
                           fromTarget)
      requires forall s | s < stripes :: s * stripeSectors <= targetSectors
      modifies this, pool, shared
      ensures Ok()
      ensures Both() == PollSpec(UpdateStarted(old(Both()), stripes, accept), stripes, fromSource, fromTarget,
                                 submitWrite, submitFlush)
    {
      hide Ready, StartAll, Autofetch, PollSpec, SourceAll;
      UpdateAutofetch();
      StartFetches(accept);
      PollFetches(fromSource, fromTarget, submitWrite, submitFlush);
    }

    method PollFetches(fromSource: seq<(nat, bool)>, fromTarget: seq<(nat, bool)>, submitWrite: nat -> bool,
                       submitFlush: nat -> bool)
      requires Ok() && SourceBatch(View(), fromSource)
      requires TargetBatch(SourceAll(Both(), stripes, fromSource, submitWrite).st, fromTarget)
      requires forall s | s < stripes :: s * stripeSectors <= targetSectors
      modifies this, pool, shared
      ensures Ok() && Both() == PollSpec(old(Both()), stripes, fromSource, fromTarget, submitWrite, submitFlush)
    {
      hide Ready, SourceStep, TargetStep, SourceBatch, TargetBatch, SourceAll, TargetAll, Stray;
      ghost var before := Both();
      NoneDone(before, stripes, submitWrite);
      assert fromSource[..0] == [] && fromTarget[..0] == [];
      for i := 0 to |fromSource|
        invariant Ok() && SourceBatch(before.st, fromSource[..i])
        invariant Both() == SourceAll(before, stripes, fromSource[..i], submitWrite)
      {
        SourceNext(before, stripes, fromSource, submitWrite, i);
        FromSource(fromSource[i], submitWrite(i));
      }
      assert fromSource[..|fromSource|] == fromSource;
      ghost var mid := Both();
      NoneDone(mid, stripes, submitFlush);
      for i := 0 to |fromTarget|
        invariant Ok() && TargetBatch(mid.st, fromTarget[..i])
        invariant Both() == TargetAll(mid, stripes, fromTarget[..i], submitFlush)
      {
        TargetNext(mid, stripes, fromTarget, submitFlush, i);
        FromTarget(fromTarget[i], submitFlush(i));
      }
      assert fromTarget[..|fromTarget|] == fromTarget;
    }

    method TakeFinishedFetches() returns (r: seq<(nat, bool)>)
      requires Ok()
      modifies this
      ensures Ok() && r == old(finishedFetches) && View() == old(View()).(finished := [])
    {
      r := finishedFetches;
      finishedFetches := [];
    }

    method IsBusy() returns (busy: bool)
      ensures busy <==> Busy(View())
    {
      busy := fetchQueue != [] || sourceBusy != {} || targetBusy != {} || finishedFetches != [] || autofetchQueue != [];
    }

    /** The source is released only when every stripe that has a source shows as fetched. */
    method DisconnectFromSourceIfAllFetched()
      requires Ok()
      modifies this
      ensures Ok()
      ensures View() == old(View()).(disconnected := disconnected)
      ensures disconnected <==> old(disconnected) || (!Busy(old(View())) && shared.sourceCount == shared.fetchedCount)
      ensures disconnected && !old(disconnected) && shared.View().Counted() ==>
                forall s: nat | s < stripes :: shared.View().FetchedIfNeeded(s)
    {
      var busy := IsBusy();
      if !disconnected && !busy && shared.sourceCount == shared.fetchedCount {
        disconnected := true;
        if shared.View().Counted() {
          forall s: nat | s < stripes ensures shared.View().FetchedIfNeeded(s) {
            AllFetched(shared.fetch, s);
          }
        }
      }
    }
  }

  function Min(a: nat, b: nat): nat {
    if a < b then a else b
  }
}
