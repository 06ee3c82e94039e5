/** The stripe fetcher: it copies stripes from the source to the target (read, write, flush),
    retrying a bounded number of times. */
module Fetcher {
  import opened BufferPool
  import opened Metadata

  const MAX_CONCURRENT_FETCHES: nat := 16
  const MAX_FETCH_RETRIES: nat := 3

  datatype Phase = QueuedPhase | FetchingPhase | FlushingPhase | FetchedPhase

  /** reading and writing are the requests outstanding at the stripe source and at the target. */
  datatype State = State(
    queue: seq<nat>,
    autoQueue: seq<nat>,
    autofetch: bool,
    pool: Pool,
    phases: map<nat, Phase>,
    retries: map<nat, nat>,
    buffers: map<nat, nat>,
    finished: seq<(nat, bool)>,
    reading: set<nat>,
    writing: set<nat>,
    disconnected: bool)

  function NewState(autofetch: bool, sourceStripes: nat): State {
    State([], if autofetch then seq(sourceStripes, i => i) else [], autofetch, NewPool(MAX_CONCURRENT_FETCHES),
          map[], map[], map[], [], {}, {}, false)
  }

  function Retries(st: State, s: nat): nat {
    if s in st.retries then st.retries[s] else 0
  }

  predicate InPhase(phases: map<nat, Phase>, s: nat, p: Phase) {
    s in phases && phases[s] == p
  }

  predicate InFlight(phases: map<nat, Phase>, s: nat) {
    InPhase(phases, s, FetchingPhase) || InPhase(phases, s, FlushingPhase)
  }

  predicate Active(phases: map<nat, Phase>, s: nat) {
    InPhase(phases, s, QueuedPhase) || InFlight(phases, s)
  }

  /** The state invariant that every method keeps, for a device of n stripes. */
  ghost predicate Valid(st: State, n: nat) {
    && QueueValid(st.queue, st.phases)
    && st.pool.Valid() && BuffersValid(st.buffers, st.pool)
    && FlightsValid(st.phases, st.buffers, st.reading, st.writing)
    && (forall s | s in st.phases :: s < n)
    && (forall s | s in st.autoQueue :: s < n)
    && (forall f | f in st.finished :: f.0 < n)
    && RetriesValid(st.phases, st.retries)
  }

  /** The queue is duplicate-free and lists exactly the queued stripes. */
  ghost predicate QueueValid(queue: seq<nat>, phases: map<nat, Phase>) {
    && (forall i, j :: 0 <= i < j < |queue| ==> queue[i] != queue[j])
    && (forall s :: s in queue <==> InPhase(phases, s, QueuedPhase))
  }

  /** A stripe holds a buffer while it is in flight, which is while one request for it is outstanding. */
  ghost predicate FlightsValid(phases: map<nat, Phase>, buffers: map<nat, nat>, reading: set<nat>, writing: set<nat>) {
    && reading !! writing
    && (forall s :: s in buffers <==> InFlight(phases, s))
    && (forall s :: s in buffers <==> s in reading || s in writing)
    && (forall s | InPhase(phases, s, FlushingPhase) :: s in writing)
  }

  ghost predicate RetriesValid(phases: map<nat, Phase>, retries: map<nat, nat>) {
    forall s | s in retries :: Active(phases, s) && 1 <= retries[s] <= MAX_FETCH_RETRIES
  }

  // ----- the atomic steps -----

  function Request(st: State, shared: Shared, s: nat): State
    requires s < |shared.fetch|
  {
    if shared.FetchedIfNeeded(s) || s in st.phases then st
    else st.(queue := st.queue + [s], phases := st.phases[s := QueuedPhase])
  }

  predicate Exhausted(st: State, s: nat) {
    Retries(st, s) >= MAX_FETCH_RETRIES
  }

  /** The end of an attempt, successful or not; the stripe's buffer goes back to the pool. */
  function Completed(st: State, s: nat, success: bool): State
    requires s in st.buffers ==> st.pool.Holds(st.buffers[s])
  {
    var freed := st.(pool := if s in st.buffers then st.pool.Give(st.buffers[s]) else st.pool,
                     buffers := st.buffers - {s});
    if success then
      freed.(phases := st.phases[s := FetchedPhase], retries := st.retries - {s}, finished := st.finished + [(s, true)])
    else if !Exhausted(st, s) then
      freed.(phases := st.phases[s := QueuedPhase], retries := st.retries[s := Retries(st, s) + 1],
             queue := st.queue + [s])
    else
      freed.(phases := st.phases - {s}, retries := st.retries - {s}, finished := st.finished + [(s, false)])
  }

  predicate CanStart(st: State) {
    st.queue != [] && st.pool.available != []
  }

  /** The head of the queue gets a buffer and is requested from the source. */
  function Allocated(st: State): State
    requires CanStart(st) && st.pool.available[0] < |st.pool.inUse|
  {
    st.(queue := st.queue[1..], pool := st.pool.Take(), buffers := st.buffers[st.queue[0] := st.pool.available[0]])
  }

  function StartOne(st: State, accepted: bool): State
    requires CanStart(st) && st.pool.available[0] < |st.pool.inUse|
  {
    var s, a := st.queue[0], Allocated(st);
    if accepted then a.(phases := st.phases[s := FetchingPhase], reading := st.reading + {s})
    else Completed(a, s, false)
  }

  /** The source has answered; if it has the data, the write to the target is submitted. */
  function SourceDone(st: State, s: nat, success: bool, submitted: bool): State
    requires s in st.buffers ==> st.pool.Holds(st.buffers[s])
  {
    if s !in st.buffers then st
    else
      var r := st.(reading := st.reading - {s});
      if success && submitted then r.(writing := st.writing + {s}) else Completed(r, s, false)
  }

  /** The target has answered; a finished write is followed by a flush. */
  function TargetDone(st: State, s: nat, success: bool, submitted: bool): State
    requires s in st.buffers ==> st.pool.Holds(st.buffers[s])
  {
    var r := st.(writing := st.writing - {s});
    if !success then Completed(r, s, false)
    else if InPhase(st.phases, s, FetchingPhase) then
      if submitted then st.(phases := st.phases[s := FlushingPhase]) else Completed(r, s, false)
    else if InPhase(st.phases, s, FlushingPhase) then Completed(r, s, true)
    else r
  }

  function Autofetch(st: State, shared: Shared): State
    requires st.autoQueue != [] ==> st.autoQueue[0] < |shared.fetch|
  {
    if st.autofetch && st.queue == [] && st.autoQueue != [] then
      Request(st.(autoQueue := st.autoQueue[1..]), shared, st.autoQueue[0])
    else st
  }

  /** Whether this step gives the stripe up for good. */
  predicate GivesUp(before: State, after: State, s: nat) {
    Active(before.phases, s) && s !in after.phases
  }

  // ----- every step keeps the invariant -----

  lemma RequestValid(st: State, shared: Shared, s: nat, n: nat)
    requires Valid(st, n) && s < |shared.fetch| == n
    ensures Valid(Request(st, shared, s), n)
  {
    var next := Request(st, shared, s);
    if next != st {
      assert !InPhase(st.phases, s, QueuedPhase);
      assert forall t, p :: t != s ==> (InPhase(next.phases, t, p) <==> InPhase(st.phases, t, p));
    }
  }

  lemma AutofetchValid(st: State, shared: Shared, n: nat)
    requires Valid(st, n) && |shared.fetch| == n
    ensures st.autoQueue != [] ==> st.autoQueue[0] < n
    ensures Valid(Autofetch(st, shared), n)
  {
    if st.autoQueue != [] {
      assert st.autoQueue[0] in st.autoQueue;
      assert forall t :: t in st.autoQueue[1..] ==> t in st.autoQueue;
      RequestValid(st.(autoQueue := st.autoQueue[1..]), shared, st.autoQueue[0], n);
    }
  }

  lemma QueueAfter(queue: seq<nat>, phases: map<nat, Phase>, s: nat, p: Phase)
    requires QueueValid(queue, phases - {s})
    ensures s !in queue
    ensures QueueValid(if p == QueuedPhase then queue + [s] else queue, phases[s := p])
  {
    assert !InPhase(phases - {s}, s, QueuedPhase);
    assert forall t :: t != s ==> (InPhase(phases - {s}, t, QueuedPhase) <==> InPhase(phases[s := p], t, QueuedPhase));
  }

  lemma QueuePopped(queue: seq<nat>, phases: map<nat, Phase>)
    requires QueueValid(queue, phases) && queue != []
    ensures InPhase(phases, queue[0], QueuedPhase)
    ensures QueueValid(queue[1..], phases - {queue[0]})
  {
    var s := queue[0];
    assert s in queue && queue == [s] + queue[1..];
    assert forall t :: t != s ==> (InPhase(phases - {s}, t, QueuedPhase) <==> InPhase(phases, t, QueuedPhase));
    assert !InPhase(phases - {s}, s, QueuedPhase);
  }

  lemma FlightsWithout(phases: map<nat, Phase>, buffers: map<nat, nat>, reading: set<nat>, writing: set<nat>, s: nat)
    requires FlightsValid(phases, buffers, reading, writing)
    ensures FlightsValid(phases - {s}, buffers - {s}, reading - {s}, writing - {s})
  {
    assert forall t, p :: t != s ==> (InPhase(phases - {s}, t, p) <==> InPhase(phases, t, p));
    assert forall p :: !InPhase(phases - {s}, s, p);
  }

  lemma FlightsGrounded(phases: map<nat, Phase>, buffers: map<nat, nat>, reading: set<nat>, writing: set<nat>, s: nat,
                        p: Phase)
    requires FlightsValid(phases - {s}, buffers, reading, writing)
    requires p == QueuedPhase || p == FetchedPhase
    ensures FlightsValid(phases[s := p], buffers, reading, writing)
  {
    assert forall t, q :: t != s ==> (InPhase(phases - {s}, t, q) <==> InPhase(phases[s := p], t, q));
    assert !InFlight(phases - {s}, s) && !InFlight(phases[s := p], s);
  }

  lemma RetriesAfter(phases: map<nat, Phase>, retries: map<nat, nat>, s: nat, p: Phase, r: nat)
    requires RetriesValid(phases, retries)
    ensures RetriesValid(phases - {s}, retries - {s}) && RetriesValid(phases[s := p], retries - {s})
    ensures p != FetchedPhase && 1 <= r <= MAX_FETCH_RETRIES ==> RetriesValid(phases[s := p], retries[s := r])
    ensures p != FetchedPhase ==> RetriesValid(phases[s := p], retries)
  {
    assert forall t :: t != s ==> (Active(phases - {s}, t) <==> Active(phases, t));
    assert forall t :: t != s ==> (Active(phases[s := p], t) <==> Active(phases, t));
    assert p != FetchedPhase ==> Active(phases[s := p], s);
  }

  /** A stripe with no outstanding request ends its attempt. */
  lemma CompletedValid(st: State, s: nat, success: bool, n: nat)
    requires s in st.buffers && s in st.phases
    requires QueueValid(st.queue, st.phases - {s})
    requires st.pool.Valid() && BuffersValid(st.buffers, st.pool)
    requires FlightsValid(st.phases - {s}, st.buffers - {s}, st.reading, st.writing)
    requires forall t | t in st.phases :: t < n
    requires forall t | t in st.autoQueue :: t < n
    requires forall f | f in st.finished :: f.0 < n
    requires RetriesValid(st.phases, st.retries)
    ensures Valid(Completed(st, s, success), n)
  {
    hide BuffersValid, QueueValid, FlightsValid, RetriesValid;
    GiveBuffer(st.buffers, st.pool, s);
    var p := if success then FetchedPhase else QueuedPhase;
    QueueAfter(st.queue, st.phases, s, p);
    FlightsGrounded(st.phases, st.buffers - {s}, st.reading, st.writing, s, p);
    RetriesAfter(st.phases, st.retries, s, p, Retries(st, s) + 1);
  }

  lemma AllocatedFacts(st: State, n: nat)
    requires Valid(st, n) && CanStart(st)
    ensures
      var s, a := st.queue[0], Allocated(st);
      && InPhase(st.phases, s, QueuedPhase) && s !in st.buffers && a.buffers - {s} == st.buffers
      && QueueValid(a.queue, st.phases - {s}) && a.pool.Valid() && BuffersValid(a.buffers, a.pool)
      && FlightsValid(st.phases - {s}, st.buffers, st.reading, st.writing)
  {
    var s := st.queue[0];
    QueuePopped(st.queue, st.phases);
    hide BuffersValid, QueueValid;
    assert s !in st.reading && s !in st.writing && s !in st.buffers;
    FlightsWithout(st.phases, st.buffers, st.reading, st.writing, s);
    assert st.buffers - {s} == st.buffers && st.reading - {s} == st.reading && st.writing - {s} == st.writing;
    TakeBuffer(st.buffers, st.pool, s);
  }

  lemma StartValid(st: State, accepted: bool, n: nat)
    requires Valid(st, n) && CanStart(st)
    ensures Valid(StartOne(st, accepted), n)
  {
    hide BuffersValid, QueueValid, RetriesValid, Completed;
    var s, a := st.queue[0], Allocated(st);
    AllocatedFacts(st, n);
    if accepted {
      QueueAfter(a.queue, st.phases, s, FetchingPhase);
      RetriesAfter(st.phases, st.retries, s, FetchingPhase, 1);
      var phases := st.phases[s := FetchingPhase];
      assert forall t, p :: t != s ==> (InPhase(phases, t, p) <==> InPhase(st.phases, t, p));
    } else {
      hide FlightsValid;
      CompletedValid(a, s, false, n);
    }
  }

  /** In flight, with the outstanding request taken away: ready to end the attempt. */
  lemma ReleaseValid(st: State, s: nat, success: bool, n: nat)
    requires Valid(st, n) && s in st.buffers
    ensures Valid(Completed(st.(reading := st.reading - {s}, writing := st.writing - {s}), s, success), n)
  {
    assert InFlight(st.phases, s) && !InPhase(st.phases, s, QueuedPhase);
    assert forall t :: InPhase(st.phases - {s}, t, QueuedPhase) <==> InPhase(st.phases, t, QueuedPhase);
    FlightsWithout(st.phases, st.buffers, st.reading, st.writing, s);
    hide BuffersValid, Completed, FlightsValid, RetriesValid;
    CompletedValid(st.(reading := st.reading - {s}, writing := st.writing - {s}), s, success, n);
  }

  lemma SourceDoneValid(st: State, s: nat, success: bool, submitted: bool, n: nat)
    requires Valid(st, n) && (s in st.buffers ==> s in st.reading)
    ensures Valid(SourceDone(st, s, success, submitted), n)
  {
    if s in st.buffers && !(success && submitted) {
      ReleaseValid(st, s, false, n);
      assert st.writing - {s} == st.writing;
    } else if s in st.buffers {
      assert InPhase(st.phases, s, FetchingPhase);
    }
  }

  lemma TargetDoneValid(st: State, s: nat, success: bool, submitted: bool, n: nat)
    requires Valid(st, n) && s in st.writing
    ensures Valid(TargetDone(st, s, success, submitted), n)
  {
    assert st.reading - {s} == st.reading;
    if success && submitted && InPhase(st.phases, s, FetchingPhase) {
      var next := TargetDone(st, s, success, submitted);
      assert forall t, p :: t != s ==> (InPhase(next.phases, t, p) <==> InPhase(st.phases, t, p));
    } else {
      assert s in st.buffers && InFlight(st.phases, s);
      hide Completed;
      ReleaseValid(st, s, false, n);
      ReleaseValid(st, s, true, n);
    }
  }
}
