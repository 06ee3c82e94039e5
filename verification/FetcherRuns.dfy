/** Whole runs of the fetcher: bounded retries, exact accounting of reports, termination. */
module FetcherRuns {
  import opened BufferPool
  import opened Metadata
  import opened Fetcher

  // ----- starting queued fetches terminates whatever the source answers -----

  function Remaining(retries: map<nat, nat>, s: nat): nat {
    if s !in retries then MAX_FETCH_RETRIES + 1
    else if retries[s] <= MAX_FETCH_RETRIES then MAX_FETCH_RETRIES + 1 - retries[s] else 0
  }

  /** The attempts that the queued stripes still have. */
  function AttemptsLeft(queue: seq<nat>, retries: map<nat, nat>): nat {
    if queue == [] then 0 else Remaining(retries, queue[0]) + AttemptsLeft(queue[1..], retries)
  }

  lemma {:induction false} AttemptsLeftAppend(queue: seq<nat>, retries: map<nat, nat>, s: nat)
    ensures AttemptsLeft(queue + [s], retries) == AttemptsLeft(queue, retries) + Remaining(retries, s)
  {
    if queue == [] {
      assert queue + [s] == [s] && [s][1..] == [];
    } else {
      AttemptsLeftAppend(queue[1..], retries, s);
      assert (queue + [s])[1..] == queue[1..] + [s];
    }
  }

  lemma {:induction false} AttemptsLeftOther(queue: seq<nat>, a: map<nat, nat>, b: map<nat, nat>)
    requires forall s | s in queue :: Remaining(a, s) == Remaining(b, s)
    ensures AttemptsLeft(queue, a) == AttemptsLeft(queue, b)
  {
    if queue != [] {
      assert queue[0] in queue;
      AttemptsLeftOther(queue[1..], a, b);
    }
  }

  /** Every iteration uses up an attempt, also when the source rejects the request. */
  lemma StartUsesAttempt(st: State, accepted: bool, n: nat)
    requires Valid(st, n) && CanStart(st)
    ensures AttemptsLeft(StartOne(st, accepted).queue, StartOne(st, accepted).retries) < AttemptsLeft(st.queue,
          st.retries)
  {
    var s, a, next := st.queue[0], Allocated(st), StartOne(st, accepted);
    AllocatedFacts(st, n);
    assert s !in a.queue by {
      QueueAfter(a.queue, st.phases, s, FetchingPhase);
    }
    hide BuffersValid, QueueValid, FlightsValid;
    assert Remaining(st.retries, s) >= 1;
    if !accepted {
      AttemptsLeftOther(a.queue, st.retries, next.retries);
      AttemptsLeftAppend(a.queue, next.retries, s);
    }
  }

  // ----- runs -----

  datatype Event =
    | Asked(stripe: nat) | Autofetched | Started(accepted: bool)
    | FromSource(stripe: nat, success: bool, submitted: bool)
    | FromTarget(stripe: nat, success: bool, submitted: bool)
    | Taken

  /** The shared state may have been advanced by others before each step. */
  datatype Step = Step(event: Event, shared: Shared)

  ghost predicate Enabled(st: State, n: nat, step: Step) {
    && |step.shared.fetch| == n
    && match step.event
       case Asked(s) => s < n
       case Autofetched => true
       case Started(_) => CanStart(st)
       case FromSource(s, _, _) => s in st.reading
       case FromTarget(s, _, _) => s in st.writing
       case Taken => true
  }

  ghost function Next(st: State, n: nat, step: Step): State
    requires Valid(st, n) && Enabled(st, n, step)
  {
    match step.event
    case Asked(s) => Request(st, step.shared, s)
    case Autofetched => AutofetchValid(st, step.shared, n); Autofetch(st, step.shared)
    case Started(accepted) => StartOne(st, accepted)
    case FromSource(s, success, submitted) => SourceDone(st, s, success, submitted)
    case FromTarget(s, success, submitted) => TargetDone(st, s, success, submitted)
    case Taken => st.(finished := [])
  }

  lemma NextValid(st: State, n: nat, step: Step)
    requires Valid(st, n) && Enabled(st, n, step)
    ensures Valid(Next(st, n, step), n)
  {
    match step.event
    case Asked(s) => RequestValid(st, step.shared, s, n);
    case Autofetched => AutofetchValid(st, step.shared, n);
    case Started(accepted) => StartValid(st, accepted, n);
    case FromSource(s, success, submitted) => SourceDoneValid(st, s, success, submitted, n);
    case FromTarget(s, success, submitted) => TargetDoneValid(st, s, success, submitted, n);
    case Taken =>
  }

  /** Of one stripe: how often it was admitted, how often its end was reported, and the attempts
      made since it was last admitted. */
  datatype Audit = Audit(admitted: nat, reported: nat, attempts: nat)

  ghost function Observe(st: State, n: nat, step: Step, a: Audit, s: nat): Audit
    requires Valid(st, n) && Enabled(st, n, step)
  {
    var next := Next(st, n, step);
    if s !in st.phases && s in next.phases then a.(admitted := a.admitted + 1, attempts := 0)
    else
      var tried := if step.event.Started? && st.queue[0] == s then a.attempts + 1 else a.attempts;
      var ended := |next.finished| > |st.finished| && next.finished[|st.finished|].0 == s;
      a.(attempts := tried, reported := if ended then a.reported + 1 else a.reported)
  }

  ghost predicate Audited(st: State, a: Audit, s: nat) {
    && a.admitted == a.reported + (if Active(st.phases, s) then 1 else 0)
    && (Active(st.phases, s) ==>
          a.attempts == Retries(st, s) + (if InPhase(st.phases, s, QueuedPhase) then 0 else 1))
    && a.attempts <= MAX_FETCH_RETRIES + 1
  }

  /** Ending an attempt of s: reported if it succeeded or no retry is left, else queued again. */
  lemma CompletedOutcome(st: State, s: nat, success: bool)
    requires s in st.buffers && st.pool.Holds(st.buffers[s])
    ensures
      var next := Completed(st, s, success);
      var ends := success || Exhausted(st, s);
      && (Active(next.phases, s) <==> !ends)
      && (!ends ==> InPhase(next.phases, s, QueuedPhase) && Retries(next, s) == Retries(st, s) + 1)
      && next.finished == st.finished + (if ends then [(s, success)] else [])
      && (s in next.phases <==> success || !ends)
      && Reports(st.finished, next.finished, s)
      && forall t | t != s :: SameStripe(st, next, t)
  {
  }

  predicate SameStripe(a: State, b: State, s: nat) {
    && (s in a.phases <==> s in b.phases) && (s in a.phases ==> a.phases[s] == b.phases[s])
    && Retries(a, s) == Retries(b, s)
  }

  /** One step changes the standing of at most one stripe. */
  function Subject(st: State, step: Step): int {
    match step.event
    case Asked(s) => s
    case Autofetched => if st.autoQueue != [] then st.autoQueue[0] else -1
    case Started(_) => if st.queue != [] then st.queue[0] else -1
    case FromSource(s, _, _) => s
    case FromTarget(s, _, _) => s
    case Taken => -1
  }

  lemma InFlightHasBuffer(st: State, n: nat, s: nat)
    requires Valid(st, n) && (s in st.reading || s in st.writing)
    ensures s in st.buffers && st.pool.Holds(st.buffers[s]) && InFlight(st.phases, s) && s < n
    ensures st.pool.Valid()
  {
  }

  lemma HeadReady(st: State, n: nat)
    requires Valid(st, n) && CanStart(st)
    ensures st.queue[0] < n && InPhase(st.phases, st.queue[0], QueuedPhase)
    ensures st.pool.Valid() && st.pool.available[0] < |st.pool.inUse|
  {
    QueuePopped(st.queue, st.phases);
  }

  lemma BufferHeld(st: State, n: nat, s: nat)
    requires Valid(st, n) && s in st.buffers
    ensures st.pool.Holds(st.buffers[s])
  {
  }

  lemma RetriesBounded(st: State, n: nat, s: nat)
    requires Valid(st, n)
    ensures Retries(st, s) <= MAX_FETCH_RETRIES
    ensures Exhausted(st, s) <==> Retries(st, s) == MAX_FETCH_RETRIES
  {
  }

  lemma NoBufferNoFlight(st: State, n: nat, s: nat)
    requires Valid(st, n) && s !in st.buffers
    ensures !InFlight(st.phases, s)
  {
  }

  predicate Reports(before: seq<(nat, bool)>, after: seq<(nat, bool)>, s: nat) {
    after == before || after == before + [(s, true)] || after == before + [(s, false)]
  }

  lemma StartTouchesOne(st: State, n: nat, accepted: bool, t: nat)
    requires Valid(st, n) && CanStart(st) && t != st.queue[0]
    ensures SameStripe(st, StartOne(st, accepted), t)
            && Reports(st.finished, StartOne(st, accepted).finished, st.queue[0])
  {
    AllocatedFacts(st, n);
    hide BuffersValid, QueueValid, FlightsValid, RetriesValid;
    if !accepted {
      CompletedOutcome(Allocated(st), st.queue[0], false);
      hide Completed;
    }
  }

  lemma SourceTouchesOne(st: State, n: nat, s: nat, success: bool, submitted: bool, t: nat)
    requires Valid(st, n) && t != s && s in st.buffers
    ensures SameStripe(st, SourceDone(st, s, success, submitted), t)
    ensures Reports(st.finished, SourceDone(st, s, success, submitted).finished, s)
  {
    hide Valid, Completed;
    BufferHeld(st, n, s);
    var r := st.(reading := st.reading - {s});
    CompletedOutcome(r, s, false);
    assert SameStripe(r, Completed(r, s, false), t);
  }

  lemma TargetTouchesOne(st: State, n: nat, s: nat, success: bool, submitted: bool, t: nat)
    requires Valid(st, n) && t != s && s in st.buffers
    ensures SameStripe(st, TargetDone(st, s, success, submitted), t)
    ensures Reports(st.finished, TargetDone(st, s, success, submitted).finished, s)
  {
    hide Valid, Completed;
    BufferHeld(st, n, s);
    var r := st.(writing := st.writing - {s});
    CompletedOutcome(r, s, false);
    CompletedOutcome(r, s, true);
    assert SameStripe(r, Completed(r, s, false), t) && SameStripe(r, Completed(r, s, true), t);
  }

  lemma OthersUntouched(st: State, n: nat, step: Step, a: Audit, s: nat)
    requires Valid(st, n) && Enabled(st, n, step) && s != Subject(st, step)
    ensures SameStripe(st, Next(st, n, step), s) && Observe(st, n, step, a, s) == a
  {
    hide BuffersValid, QueueValid, RetriesValid, FlightsValid, StartOne, SourceDone, TargetDone;
    match step.event
    case Started(accepted) =>
      StartTouchesOne(st, n, accepted, s);
    case FromSource(u, success, submitted) =>
      InFlightHasBuffer(st, n, u);
      SourceTouchesOne(st, n, u, success, submitted, s);
    case FromTarget(u, success, submitted) =>
      InFlightHasBuffer(st, n, u);
      TargetTouchesOne(st, n, u, success, submitted, s);
    case _ =>
  }

  lemma StartedAudited(st: State, n: nat, step: Step, a: Audit)
    requires Valid(st, n) && Enabled(st, n, step) && step.event.Started? && Audited(st, a, st.queue[0])
    ensures Audited(Next(st, n, step), Observe(st, n, step, a, st.queue[0]), st.queue[0])
  {
    var s, al := st.queue[0], Allocated(st);
    QueuePopped(st.queue, st.phases);
    AllocatedFacts(st, n);
    hide BuffersValid, QueueValid, FlightsValid;
    if !step.event.accepted {
      CompletedOutcome(al, s, false);
      hide Completed;
    }
  }

  lemma EndedAudited(st: State, n: nat, step: Step, a: Audit, s: nat)
    requires Valid(st, n) && Enabled(st, n, step) && Audited(st, a, s)
    requires (step.event.FromSource? || step.event.FromTarget?) && step.event.stripe == s
    ensures Audited(Next(st, n, step), Observe(st, n, step, a, s), s)
  {
    hide Valid, Completed, Reports, Exhausted;
    InFlightHasBuffer(st, n, s);
    RetriesBounded(st, n, s);
    CompletedOutcome(st.(reading := st.reading - {s}), s, false);
    CompletedOutcome(st.(writing := st.writing - {s}), s, false);
    CompletedOutcome(st.(writing := st.writing - {s}), s, true);
  }

  lemma NextAudited(st: State, n: nat, step: Step, a: Audit, s: nat)
    requires Valid(st, n) && Enabled(st, n, step) && Audited(st, a, s)
    ensures Audited(Next(st, n, step), Observe(st, n, step, a, s), s)
  {
    hide QueueValid, BuffersValid, FlightsValid, StartOne, SourceDone, TargetDone;
    if s != Subject(st, step) {
      OthersUntouched(st, n, step, a, s);
    } else {
      match step.event
      case Started(_) => StartedAudited(st, n, step, a);
      case FromSource(_, _, _) => EndedAudited(st, n, step, a, s);
      case FromTarget(_, _, _) => EndedAudited(st, n, step, a, s);
      case _ =>
    }
  }

  ghost predicate Legal(st: State, n: nat, run: seq<Step>)
    requires Valid(st, n)
    decreases |run|
  {
    run != [] ==> Enabled(st, n, run[0]) && (NextValid(st, n, run[0]); Legal(Next(st, n, run[0]), n, run[1..]))
  }

  /** Every reachable state of the fetcher satisfies the invariant. */
  ghost function Final(st: State, n: nat, run: seq<Step>): (end: State)
    requires Valid(st, n) && Legal(st, n, run)
    ensures Valid(end, n)
    decreases |run|
  {
    if run == [] then st else NextValid(st, n, run[0]); Final(Next(st, n, run[0]), n, run[1..])
  }

  ghost function FinalAudit(st: State, n: nat, run: seq<Step>, a: Audit, s: nat): Audit
    requires Valid(st, n) && Legal(st, n, run)
    decreases |run|
  {
    if run == [] then a
    else NextValid(st, n, run[0]); FinalAudit(Next(st, n, run[0]), n, run[1..], Observe(st, n, run[0], a, s), s)
  }

  lemma {:induction false} RunAudited(st: State, n: nat, run: seq<Step>, a: Audit, s: nat)
    requires Valid(st, n) && Legal(st, n, run) && Audited(st, a, s)
    ensures Audited(Final(st, n, run), FinalAudit(st, n, run, a, s), s)
    decreases |run|
  {
    hide Valid, Enabled, Next, Audited, Observe;
    if run != [] {
      NextValid(st, n, run[0]);
      NextAudited(st, n, run[0], a, s);
      RunAudited(Next(st, n, run[0]), n, run[1..], Observe(st, n, run[0], a, s), s);
    }
  }

  lemma NewStateValid(autofetch: bool, sourceStripes: nat, n: nat)
    requires sourceStripes <= n
    ensures Valid(NewState(autofetch, sourceStripes), n)
  {
  }

  /** Over every run: each admission of a stripe is reported at most once, and has been reported
      exactly when the stripe is no longer active; no admission makes more than four attempts. */
  lemma ReportsAndAttempts(autofetch: bool, sourceStripes: nat, n: nat, run: seq<Step>, s: nat)
    requires sourceStripes <= n && Valid(NewState(autofetch, sourceStripes), n)
    requires Legal(NewState(autofetch, sourceStripes), n, run)
    ensures
      var start := NewState(autofetch, sourceStripes);
      var end, a := Final(start, n, run), FinalAudit(start, n, run, Audit(0, 0, 0), s);
      && a.admitted == a.reported + (if Active(end.phases, s) then 1 else 0)
      && a.attempts <= MAX_FETCH_RETRIES + 1
  {
    RunAudited(NewState(autofetch, sourceStripes), n, run, Audit(0, 0, 0), s);
  }

  /** A stripe is given up only by the step that ends its fourth attempt. */
  lemma GivesUpAfterFour(st: State, n: nat, step: Step, a: Audit, s: nat)
    requires Valid(st, n) && Enabled(st, n, step) && Audited(st, a, s)
    requires GivesUp(st, Next(st, n, step), s)
    ensures Observe(st, n, step, a, s).attempts == MAX_FETCH_RETRIES + 1
    ensures Next(st, n, step).finished == st.finished + [(s, false)]
  {
    hide BuffersValid, QueueValid, FlightsValid, RetriesValid;
    if s != Subject(st, step) {
      OthersUntouched(st, n, step, a, s);
      hide Next;
    } else if step.event.Started? {
      StartedGivesUp(st, n, step, a);
      hide Next;
    } else if step.event.FromSource? || step.event.FromTarget? {
      EndedGivesUp(st, n, step, a, s);
      hide Next;
    }
  }

  lemma StartedGivesUp(st: State, n: nat, step: Step, a: Audit)
    requires Valid(st, n) && Enabled(st, n, step) && step.event.Started? && Audited(st, a, st.queue[0])
    requires GivesUp(st, Next(st, n, step), st.queue[0])
    ensures Observe(st, n, step, a, st.queue[0]).attempts == MAX_FETCH_RETRIES + 1
    ensures Next(st, n, step).finished == st.finished + [(st.queue[0], false)]
  {
    QueuePopped(st.queue, st.phases);
    AllocatedFacts(st, n);
    CompletedOutcome(Allocated(st), st.queue[0], false);
    hide BuffersValid, QueueValid, FlightsValid, Completed;
  }

  lemma EndedGivesUp(st: State, n: nat, step: Step, a: Audit, s: nat)
    requires Valid(st, n) && Enabled(st, n, step) && Audited(st, a, s)
    requires (step.event.FromSource? || step.event.FromTarget?) && step.event.stripe == s
    requires GivesUp(st, Next(st, n, step), s)
    ensures Observe(st, n, step, a, s).attempts == MAX_FETCH_RETRIES + 1
    ensures Next(st, n, step).finished == st.finished + [(s, false)]
  {
    assert s in st.buffers && InFlight(st.phases, s) && st.pool.Holds(st.buffers[s]);
    CompletedOutcome(st.(reading := st.reading - {s}), s, false);
    CompletedOutcome(st.(writing := st.writing - {s}), s, false);
    CompletedOutcome(st.(writing := st.writing - {s}), s, true);
    hide BuffersValid, QueueValid, FlightsValid, Completed;
  }
}
