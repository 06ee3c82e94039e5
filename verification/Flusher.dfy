/** The metadata flusher: it turns requests to set header bits into sector writes and flushes,
    at most one in progress per metadata sector, and publishes a bit once it is durable. */
module Flusher {
  import opened BufferPool
  import opened Metadata

  const MAX_CONCURRENT_CHANGES: nat := 16

  datatype Request = Request(stripe: nat, bit: Bit)

  datatype Stage = Writing | Flushing

  datatype Update = Update(buffer: nat, stage: Stage, header: Header, bit: Bit, sector: nat)

  datatype State = State(
    headers: seq<Header>,
    updating: set<nat>,
    updates: map<nat, Update>,
    queue: seq<Request>,
    pool: Pool)

  function NewState(headers: seq<Header>): State {
    State(headers, {}, map[], [], NewPool(MAX_CONCURRENT_CHANGES))
  }

  predicate Busy(st: State) {
    st.updating != {} || st.queue != []
  }

  /** The state invariant that every method keeps. */
  ghost predicate Valid(st: State) {
    && Sound(st)
    && (forall r | r in st.queue :: r.stripe < |st.headers|)
    && (forall n :: n in st.updating <==> exists s :: s in st.updates && SectorOf(s) == n)
  }

  /** The part of it that also holds while a batch of completions is being processed. */
  ghost predicate Sound(st: State) {
    st.pool.Valid() && ValidUpdates(st) && OneWriterPerBuffer(st.updates, st.pool)
  }

  /** At most one update per sector; each carries the header it will publish. */
  ghost predicate ValidUpdates(st: State) {
    && (forall s | s in st.updates ::
          && s < |st.headers|
          && st.updates[s].sector == SectorOf(s)
          && st.updates[s].header == st.headers[s]
          && st.headers[s].Has(st.updates[s].bit))
    && (forall s, t :: s in st.updates && t in st.updates && SectorOf(s) == SectorOf(t) ==> s == t)
  }

  predicate IsWriter(updates: map<nat, Update>, s: nat, b: nat) {
    s in updates && updates[s].stage.Writing? && updates[s].buffer == b
  }

  /** Buffers in use correspond one to one to the updates in stage Writing. */
  ghost predicate OneWriterPerBuffer(updates: map<nat, Update>, pool: Pool) {
    && (forall s | s in updates && updates[s].stage.Writing? :: pool.Holds(updates[s].buffer))
    && (forall s, t, b :: IsWriter(updates, s, b) && IsWriter(updates, t, b) ==> s == t)
    && (forall b: nat | pool.Holds(b) :: exists s :: IsWriter(updates, s, b))
  }

  // ----- the atomic steps -----

  predicate CanStart(st: State) {
    && st.queue != [] && st.pool.available != []
    && SectorOf(st.queue[0].stripe) !in st.updating
  }

  /** Whether the request at the head of the queue asks for a bit that is already set. */
  predicate Redundant(st: State)
    requires st.queue != [] && st.queue[0].stripe < |st.headers|
  {
    st.headers[st.queue[0].stripe].Has(st.queue[0].bit)
  }

  function StartOne(st: State): State
    requires CanStart(st) && st.queue[0].stripe < |st.headers|
    requires st.pool.available[0] < |st.pool.inUse|
  {
    var req := st.queue[0];
    var popped := st.(queue := st.queue[1..]);
    if Redundant(st) then popped
    else
      var h := st.headers[req.stripe].Set(req.bit);
      popped.(headers := st.headers[req.stripe := h],
              updating := st.updating + {SectorOf(req.stripe)},
              updates := st.updates[req.stripe :=
                                    Update(st.pool.available[0], Writing, h, req.bit, SectorOf(req.stripe))],
              pool := st.pool.Take())
  }

  function WriteDone(st: State, s: nat): State
    requires s in st.updates && st.pool.Holds(st.updates[s].buffer)
  {
    st.(updates := st.updates[s := st.updates[s].(stage := Flushing)],
        pool := st.pool.Give(st.updates[s].buffer))
  }

  function FlushDone(st: State, s: nat): State
    requires s in st.updates
  {
    st.(updating := st.updating - {st.updates[s].sector}, updates := st.updates - {s})
  }

  /** A failed write, flush or submission: the requested bit is withdrawn. */
  function Abandon(st: State, s: nat): State
    requires s in st.updates && s < |st.headers|
    requires st.updates[s].stage.Writing? ==> st.pool.Holds(st.updates[s].buffer)
  {
    var u := st.updates[s];
    var dropped := FlushDone(st, s).(headers := st.headers[s := st.headers[s].Clear(u.bit)]);
    if u.stage.Writing? then dropped.(pool := st.pool.Give(u.buffer)) else dropped
  }

  lemma StartKeepsUpdates(st: State)
    requires Valid(st) && CanStart(st) && !Redundant(st)
    ensures ValidUpdates(StartOne(st)) && st.queue[0].stripe !in st.updates
  {
    var r, next := st.queue[0].stripe, StartOne(st);
    assert SectorOf(r) !in st.updating;
    assert forall s :: s in next.updates ==> s == r || (s in st.updates && next.updates[s] == st.updates[s]);
  }

  lemma StartKeepsSectors(st: State)
    requires Valid(st) && CanStart(st) && !Redundant(st)
    ensures forall n :: n in StartOne(st).updating <==> exists s :: s in StartOne(st).updates && SectorOf(s) == n
  {
    var r, next := st.queue[0].stripe, StartOne(st);
    forall n | n in next.updating ensures exists s :: s in next.updates && SectorOf(s) == n {
      if n == SectorOf(r) {
        assert r in next.updates;
      } else {
        var s :| s in st.updates && SectorOf(s) == n;
        assert s in next.updates;
      }
    }
  }

  /** Updates other than s are untouched, and whatever s became, it holds no buffer that others hold. */
  lemma BuffersAfter(updates: map<nat, Update>, pool: Pool, s: nat, next: map<nat, Update>, pool': Pool, b: nat)
    requires OneWriterPerBuffer(updates, pool)
    requires forall t :: t != s ==> (t in next <==> t in updates) && (t in next ==> next[t] == updates[t])
    requires IsWriter(updates, s, b) || !pool.Holds(b)
    requires forall c :: IsWriter(updates, s, c) || IsWriter(next, s, c) ==> c == b
    requires forall c: nat :: pool'.Holds(c) <==> if c == b then IsWriter(next, s, b) else pool.Holds(c)
    ensures OneWriterPerBuffer(next, pool')
  {
    forall c: nat | pool'.Holds(c) ensures exists t :: IsWriter(next, t, c) {
      if c != b {
        var t :| IsWriter(updates, t, c);
        assert IsWriter(next, t, c);
      }
    }
    forall t | t in next && next[t].stage.Writing? ensures pool'.Holds(next[t].buffer) {
      assert IsWriter(next, t, next[t].buffer);
      if t != s {
        assert IsWriter(updates, t, next[t].buffer);
      }
    }
    forall t, u, c | IsWriter(next, t, c) && IsWriter(next, u, c) ensures t == u {
      if t != s { assert IsWriter(updates, t, c); }
      if u != s { assert IsWriter(updates, u, c); }
    }
  }

  lemma StartKeepsValid(st: State)
    requires Valid(st) && CanStart(st)
    ensures Valid(StartOne(st))
  {
    if !Redundant(st) {
      var next := StartOne(st);
      StartKeepsUpdates(st);
      StartKeepsSectors(st);
      TakeKeepsValid(st.pool);
      BuffersAfter(st.updates, st.pool, st.queue[0].stripe, next.updates, next.pool, st.pool.available[0]);
    }
  }

  lemma RemoveKeepsSectors(st: State, s: nat, updates: map<nat, Update>)
    requires Valid(st) && s in st.updates && updates == st.updates - {s}
    ensures forall n :: n in st.updating - {SectorOf(s)} <==> exists t :: t in updates && SectorOf(t) == n
  {
    forall n | n in st.updating && n != SectorOf(s) ensures exists t :: t in updates && SectorOf(t) == n {
      var t :| t in st.updates && SectorOf(t) == n;
      assert t in updates;
    }
  }

  lemma WriteDoneKeepsSound(st: State, s: nat)
    requires Sound(st) && s in st.updates && st.updates[s].stage.Writing?
    ensures Sound(WriteDone(st, s))
  {
    var b, next := st.updates[s].buffer, WriteDone(st, s);
    assert IsWriter(st.updates, s, b);
    GiveKeepsValid(st.pool, b);
    BuffersAfter(st.updates, st.pool, s, next.updates, next.pool, b);
    assert forall t :: t in next.updates <==> t in st.updates;
  }

  lemma WriteDoneKeepsValid(st: State, s: nat)
    requires Valid(st) && s in st.updates && st.updates[s].stage.Writing?
    ensures Valid(WriteDone(st, s))
  {
    WriteDoneKeepsSound(st, s);
    assert forall t :: t in WriteDone(st, s).updates <==> t in st.updates;
  }

  lemma FlushDoneKeepsValid(st: State, s: nat)
    requires Valid(st) && s in st.updates && st.updates[s].stage.Flushing?
    ensures Valid(FlushDone(st, s))
  {
    var next := FlushDone(st, s);
    RemoveKeepsSectors(st, s, next.updates);
    BuffersAfter(st.updates, st.pool, s, next.updates, next.pool, |st.pool.inUse|);
  }

  lemma AbandonKeepsSound(st: State, s: nat)
    requires Sound(st) && s in st.updates
    ensures Sound(Abandon(st, s))
  {
    var b, next := st.updates[s].buffer, Abandon(st, s);
    if st.updates[s].stage.Writing? {
      assert IsWriter(st.updates, s, b);
      GiveKeepsValid(st.pool, b);
      BuffersAfter(st.updates, st.pool, s, next.updates, next.pool, b);
    } else {
      BuffersAfter(st.updates, st.pool, s, next.updates, next.pool, |st.pool.inUse|);
    }
  }

  lemma AbandonKeepsValid(st: State, s: nat)
    requires Valid(st) && s in st.updates
    ensures Valid(Abandon(st, s))
  {
    AbandonKeepsSound(st, s);
    RemoveKeepsSectors(st, s, Abandon(st, s).updates);
  }
}
