/** The loop of the archiver over what devices and store report, and when it succeeds. */
module ArchiveRuns {
  import opened BufferPool
  import opened Codec
  import opened StripeMapping
  import opened Archive

  /** What one turn of the loop finds: whether the next read can be submitted, which reads have
      completed at the device and at the source, which uploads have. */
  datatype Tick = Tick(startOk: bool, fromDevice: seq<(nat, bool)>, fromSource: seq<(nat, bool)>,
                       uploaded: seq<(Hash, bool)>)

  /** The reports of both channels are in memory. */
  ghost function AllDelivered(job: Job, st: State, fromDevice: seq<(nat, bool)>, fromSource: seq<(nat, bool)>): State {
    DeliveredAll(job, DeliveredAll(job, st, AtDevice, fromDevice), AtSource, fromSource)
  }

  lemma AllDeliveredInv(job: Job, st: State, fromDevice: seq<(nat, bool)>, fromSource: seq<(nat, bool)>)
    requires JobOk(job) && Inv(job, st)
    ensures var r := AllDelivered(job, st, fromDevice, fromSource);
            && Inv(job, r) && Landed(r, fromDevice + fromSource)
            && r.fetching == st.fetching && r.hashes == st.hashes
  {
    hide Inv, Landed, DeliveredAll, JobOk;
    NothingLanded(st);
    DeliveredAllInv(job, st, AtDevice, fromDevice, []);
    assert [] + fromDevice == fromDevice;
    DeliveredAllInv(job, DeliveredAll(job, st, AtDevice, fromDevice), AtSource, fromSource, fromDevice);
  }

  lemma NothingLanded(st: State)
    ensures Landed(st, [])
  {
  }

  /** The reads that were reported are recorded. */
  ghost function Taken(job: Job, st: State, fromDevice: seq<(nat, bool)>,
                       fromSource: seq<(nat, bool)>): (r: Option<State>)
    requires JobOk(job) && Inv(job, st)
    ensures r.Some? ==> Inv(job, r.value)
  {
    hide Inv, Landed, JobOk, AllDelivered;
    AllDeliveredInv(job, st, fromDevice, fromSource);
    UploadedAll(job, AllDelivered(job, st, fromDevice, fromSource), fromDevice + fromSource)
  }

  /** Reads are polled, then uploads; None if anything went wrong. */
  ghost function Turned(job: Job, st: State, tick: Tick): (r: Option<State>)
    requires JobOk(job) && Inv(job, st)
    ensures r.Some? ==> Inv(job, r.value)
  {
    hide Inv, Taken, JobOk;
    match Taken(job, st, tick.fromDevice, tick.fromSource)
    case None => None
    case Some(read) => AcknowledgedAll(job, read, tick.uploaded)
  }

  lemma TurnedReached(job: Job, st: State, tick: Tick, next: nat)
    requires JobOk(job) && Inv(job, st) && Turned(job, st, tick).Some? && Reached(job, st, next)
    ensures Reached(job, Turned(job, st, tick).value, next)
  {
    hide Inv, Landed, UploadedAll, AllDelivered, AcknowledgedAll, JobOk;
    AllDeliveredInv(job, st, tick.fromDevice, tick.fromSource);
    UploadedAllReached(job, AllDelivered(job, st, tick.fromDevice, tick.fromSource),
                       tick.fromDevice + tick.fromSource, next);
  }

  /** What the loop over the stripes comes to: an error, a wait for more reports, or the end. */
  datatype Ran = Failed | Stalled | Done(st: State)

  /** The next stripe is read if a buffer is free. */
  function Begun(job: Job, st: State, next: nat): (State, nat)
    requires next < |job.headers| && (st.pool.available != [] ==> st.pool.available[0] < |st.pool.inUse|)
  {
    if st.pool.available == [] then (st, next) else (Started(job, st, next), next + 1)
  }

  lemma BegunInv(job: Job, st: State, next: nat)
    requires JobOk(job) && Inv(job, st) && Reached(job, st, next) && next < |job.headers| && ShouldBeArchived(job, next)
    ensures st.pool.available != [] ==> st.pool.available[0] < |st.pool.inUse|
    ensures var r := Begun(job, st, next); Inv(job, r.0) && Reached(job, r.0, r.1) && next <= r.1 <= next + 1
  {
    hide Inv, Reached, Started, JobOk, ShouldBeArchived;
    if st.pool.available != [] {
      StartedInv(job, st, next);
    }
  }

  predicate CannotStart(job: Job, st: State, next: nat, tick: Tick)
    requires Sizes(job) && next < |job.headers|
  {
    st.pool.available != [] && (!tick.startOk || Beyond(job, next))
  }

  ghost predicate Idle(st: State) {
    st.fetching == map[] && st.inflight == 0
  }

  ghost function Run(job: Job, st: State, next: nat, script: seq<Tick>): (r: Ran)
    requires JobOk(job) && Inv(job, st) && Reached(job, st, next)
    ensures r.Done? ==> Finished(job, r.st)
    decreases |script|, |job.headers| - next
  {
    hide Inv, Turned, Begun;
    ReachedBound(job, st, next);
    if next < |job.headers| && !ShouldBeArchived(job, next) then
      SkippedReached(job, st, next);
      Run(job, st, next + 1, script)
    else if next == |job.headers| && Idle(st) then Done(st)
    else if script == [] then Stalled
    else if next < |job.headers| && CannotStart(job, st, next, script[0]) then Failed
    else
      var (begun, after) := if next < |job.headers| then BegunInv(job, st, next); Begun(job, st, next) else (st, next);
      match Turned(job, begun, script[0])
      case None => Failed
      case Some(turned) =>
        TurnedReached(job, begun, script[0], after);
        Run(job, turned, after, script[1..])
  }

  // ----- progress -----

  /** What is left to do: reports still to come, at most. */
  function Work(job: Job, st: State, next: nat): nat
    requires next <= |job.headers|
  {
    3 * (|job.headers| - next) + 2 * |st.fetching| + st.inflight
  }

  lemma UploadedWork(job: Job, st: State, s: nat)
    requires JobOk(job) && Inv(job, st) && Uploaded(job, st, s).Some?
    ensures var next := Uploaded(job, st, s).value;
            2 * |next.fetching| + next.inflight + 1 <= 2 * |st.fetching| + st.inflight
  {
    hide Inv, CodeStripe;
    MapShrinks(st.fetching, s);
  }

  lemma {:induction false} UploadedAllWork(job: Job, st: State, done: seq<(nat, bool)>)
    requires JobOk(job) && Inv(job, st) && Landed(st, done) && UploadedAll(job, st, done).Some?
    ensures var next := UploadedAll(job, st, done).value;
            2 * |next.fetching| + next.inflight + |done| <= 2 * |st.fetching| + st.inflight
    decreases |done|
  {
    hide Inv, Uploaded;
    if done != [] {
      UploadedWork(job, st, done[0].0);
      assert done[0] in done;
      UploadedInv(job, st, done[0].0);
      UploadedLanded(job, st, done);
      UploadedAllWork(job, Uploaded(job, st, done[0].0).value, done[1..]);
    }
  }

  lemma {:induction false} AcknowledgedAllWork(job: Job, st: State, results: seq<(Hash, bool)>)
    requires JobOk(job) && Inv(job, st) && AcknowledgedAll(job, st, results).Some?
    ensures AcknowledgedAll(job, st, results).value.inflight + |results| == st.inflight
    decreases |results|
  {
    hide Inv, Acknowledged;
    if results != [] {
      AcknowledgedWork(st, results[0].0, results[0].1);
      AcknowledgedInv(job, st, results[0].0, results[0].1);
      AcknowledgedAllWork(job, Acknowledged(st, results[0].0, results[0].1).value, results[1..]);
    }
  }

  lemma AcknowledgedWork(st: State, h: Hash, ok: bool)
    ensures Acknowledged(st, h, ok).Some? ==> Acknowledged(st, h, ok).value.inflight + 1 == st.inflight
  {
  }

  function Reports(tick: Tick): nat {
    |tick.fromDevice| + |tick.fromSource| + |tick.uploaded|
  }

  lemma {:induction false} DeliveredSame(job: Job, st: State, place: Place, done: seq<(nat, bool)>)
    ensures DeliveredAll(job, st, place, done).inflight == st.inflight
    ensures DeliveredAll(job, st, place, done).pending == st.pending
    ensures DeliveredAll(job, st, place, done).strayPuts == st.strayPuts
  {
    hide Read;
    if done != [] {
      DeliveredSame(job, st, place, done[..|done| - 1]);
    }
  }

  /** Every report of a turn brings the end nearer. */
  lemma TurnedWork(job: Job, st: State, tick: Tick, next: nat)
    requires JobOk(job) && Inv(job, st) && Turned(job, st, tick).Some? && next <= |job.headers|
    ensures Work(job, Turned(job, st, tick).value, next) + Reports(tick) <= Work(job, st, next)
  {
    hide Inv, Landed, UploadedAll, AcknowledgedAll, JobOk, DeliveredAll;
    var done := tick.fromDevice + tick.fromSource;
    AllDeliveredInv(job, st, tick.fromDevice, tick.fromSource);
    var d := AllDelivered(job, st, tick.fromDevice, tick.fromSource);
    DeliveredSame(job, st, AtDevice, tick.fromDevice);
    DeliveredSame(job, DeliveredAll(job, st, AtDevice, tick.fromDevice), AtSource, tick.fromSource);
    UploadedAllWork(job, d, done);
    AcknowledgedAllWork(job, UploadedAll(job, d, done).value, tick.uploaded);
  }

  // ----- a turn without failures -----

  predicate Distinct<T(==)>(xs: seq<(T, bool)>) {
    forall i, j :: 0 <= i < j < |xs| ==> xs[i].0 != xs[j].0
  }

  /** Successes only, each of something outstanding there. */
  predicate Reported(asked: map<nat, nat>, done: seq<(nat, bool)>) {
    Distinct(done) && forall c | c in done :: c.1 && c.0 in asked
  }

  /** No stripe fails to be compressed. */
  ghost predicate Compressible(p: Params)
    requires Sane(p)
  {
    forall s: nat, data: seq<byte> | |data| == StripeBytes(p) :: CodeStripe(p, s, data).Some?
  }

  /** Devices and store report successes, each of something outstanding. What is uploaded may have been
      read in this very turn. */
  ghost predicate GoodTurn(job: Job, st: State, tick: Tick)
    requires JobOk(job) && Inv(job, st)
  {
    hide Inv, JobOk, Taken;
    && Reported(st.atDevice, tick.fromDevice) && Reported(st.atSource, tick.fromSource)
    && Distinct(tick.uploaded)
    && var read := Taken(job, st, tick.fromDevice, tick.fromSource);
       forall r | r in tick.uploaded :: r.1 && (read.Some? ==> r.0 in read.value.pending)
  }

  lemma {:induction false} DeliveredGood(job: Job, st: State, place: Place, done: seq<(nat, bool)>)
    requires Reported(AskedAt(st, place), done)
    ensures var r := DeliveredAll(job, st, place, done);
            && r.strayReads == st.strayReads
            && (place == AtDevice ==> r.atSource == st.atSource)
            && forall s | s in AskedAt(st, place) && (forall c | c in done :: c.0 != s) :: s in AskedAt(r, place)
  {
    hide Read;
    if done != [] {
      var n := |done| - 1;
      assert forall c | c in done[..n] :: c in done;
      DeliveredGood(job, st, place, done[..n]);
      assert done[n] in done;
      forall c | c in done[..n] ensures c.0 != done[n].0 {
        var i :| 0 <= i < n && done[i] == c;
      }
    }
  }

  lemma {:induction false} UploadsGood(job: Job, st: State, done: seq<(nat, bool)>)
    requires JobOk(job) && Inv(job, st) && Landed(st, done) && Compressible(job.p) && Distinct(done)
    requires forall c | c in done :: c.1 && c.0 in st.fetching
    ensures UploadedAll(job, st, done).Some? && UploadedAll(job, st, done).value.strayReads == st.strayReads
    ensures UploadedAll(job, st, done).value.strayPuts == st.strayPuts
    decreases |done|
  {
    hide Inv, CodeStripe, Landed;
    if done != [] {
      var s := done[0].0;
      assert done[0] in done;
      FetchingFacts(job, st, s);
      LandedFirst(st, done);
      UploadedInv(job, st, s);
      UploadedLanded(job, st, done);
      var next := Uploaded(job, st, s).value;
      forall c | c in done[1..] ensures c.1 && c.0 in next.fetching {
        var i :| 0 <= i < |done[1..]| && done[1..][i] == c;
        assert c == done[i + 1] && c in done;
      }
      UploadsGood(job, next, done[1..]);
    }
  }

  lemma LandedFirst(st: State, done: seq<(nat, bool)>)
    requires Landed(st, done) && done != [] && done[0].1
    ensures st.strayReads > 0 || (done[0].0 !in st.atDevice && done[0].0 !in st.atSource)
  {
    assert done[0] in done;
  }

  lemma InflightPending(job: Job, st: State)
    requires JobOk(job) && Inv(job, st) && st.strayPuts == 0
    ensures st.inflight == |st.pending|
  {
    hide ReadsOk, RecordsOk, StoreOk, BuffersValid, Named;
  }

  lemma {:induction false} AcksGood(job: Job, st: State, results: seq<(Hash, bool)>)
    requires JobOk(job) && Inv(job, st) && st.strayPuts == 0 && Distinct(results)
    requires forall r | r in results :: r.1 && r.0 in st.pending
    ensures AcknowledgedAll(job, st, results).Some?
    ensures AcknowledgedAll(job, st, results).value.strayPuts == 0
    ensures AcknowledgedAll(job, st, results).value.strayReads == st.strayReads
    decreases |results|
  {
    hide Inv;
    if results != [] {
      var h := results[0].0;
      assert results[0] in results;
      InflightPending(job, st);
      assert |st.pending| > 0;
      AcknowledgedInv(job, st, h, true);
      var next := Acknowledged(st, h, true).value;
      forall r | r in results[1..] ensures r.1 && r.0 in next.pending {
        var i :| 0 <= i < |results[1..]| && results[1..][i] == r;
        assert r == results[i + 1] && r in results;
      }
      AcksGood(job, next, results[1..]);
    }
  }

  /** Good reports never make the archiver fail, and are not stray. */
  lemma GoodTurnSucceeds(job: Job, st: State, tick: Tick)
    requires JobOk(job) && Inv(job, st) && Compressible(job.p) && st.strayReads == 0 && st.strayPuts == 0
    requires GoodTurn(job, st, tick)
    ensures Turned(job, st, tick).Some?
    ensures Turned(job, st, tick).value.strayReads == 0 && Turned(job, st, tick).value.strayPuts == 0
  {
    hide Inv, Landed, UploadedAll, AcknowledgedAll, DeliveredAll, Compressible;
    var done := tick.fromDevice + tick.fromSource;
    var mid := DeliveredAll(job, st, AtDevice, tick.fromDevice);
    DeliveredGood(job, st, AtDevice, tick.fromDevice);
    DeliveredGood(job, mid, AtSource, tick.fromSource);
    DeliveredSame(job, st, AtDevice, tick.fromDevice);
    DeliveredSame(job, mid, AtSource, tick.fromSource);
    AllDeliveredInv(job, st, tick.fromDevice, tick.fromSource);
    var d := AllDelivered(job, st, tick.fromDevice, tick.fromSource);
    DoneFetching(job, st, tick);
    UploadsGood(job, d, done);
    AcksGood(job, UploadedAll(job, d, done).value, tick.uploaded);
  }

  lemma DoneFetching(job: Job, st: State, tick: Tick)
    requires JobOk(job) && Inv(job, st) && st.strayReads == 0
    requires Reported(st.atDevice, tick.fromDevice) && Reported(st.atSource, tick.fromSource)
    ensures Distinct(tick.fromDevice + tick.fromSource)
    ensures forall c | c in tick.fromDevice + tick.fromSource :: c.1 && c.0 in st.fetching
  {
    hide StoreOk, RecordsOk, Counted, BuffersValid, MemOk, JobOk, LandedOk, ViewsOk, FetchingOk;
    var done, n := tick.fromDevice + tick.fromSource, |tick.fromDevice|;
    forall c | c in done ensures c.1 && c.0 in st.fetching {
      assert c in tick.fromDevice || c in tick.fromSource;
    }
    forall i, j | 0 <= i < j < |done| ensures done[i].0 != done[j].0 {
      if i < n <= j {
        assert done[i] in tick.fromDevice && done[j] in tick.fromSource;
      }
    }
  }

  // ----- a run without failures -----

  /** Every turn is good, starts or reports something, and no stripe has to be read behind the source. */
  ghost predicate GoodRun(job: Job, st: State, next: nat, script: seq<Tick>)
    requires JobOk(job) && Inv(job, st) && Reached(job, st, next)
    decreases |script|, |job.headers| - next
  {
    hide Inv, Turned, Begun, GoodTurn;
    ReachedBound(job, st, next);
    if next < |job.headers| && !ShouldBeArchived(job, next) then
      SkippedReached(job, st, next);
      GoodRun(job, st, next + 1, script)
    else if script == [] || (next == |job.headers| && Idle(st)) then true
    else
      && (next < |job.headers| ==> !CannotStart(job, st, next, script[0]))
      && var (begun, after) :=
           if next < |job.headers| then BegunInv(job, st, next); Begun(job, st, next) else (st, next);
      && GoodTurn(job, begun, script[0])
      && (after > next || Reports(script[0]) > 0)
      && match Turned(job, begun, script[0])
         case None => true
         case Some(turned) =>
           TurnedReached(job, begun, script[0], after);
           GoodRun(job, turned, after, script[1..])
  }

  lemma BegunWork(job: Job, st: State, next: nat)
    requires JobOk(job) && Inv(job, st) && Reached(job, st, next) && next < |job.headers| && ShouldBeArchived(job, next)
    ensures st.pool.available != [] ==> st.pool.available[0] < |st.pool.inUse|
    ensures var (begun, after) := Begun(job, st, next);
            && Work(job, begun, after) + (after - next) <= Work(job, st, next)
            && begun.strayReads == st.strayReads && begun.strayPuts == st.strayPuts
  {
    hide Inv;
    if st.pool.available != [] {
      StartedInv(job, st, next);
      StartedUnknown(job, st, next);
      MapGrows(st.fetching, next, st.pool.available[0]);
    }
  }

  /** If devices and store keep serving what is outstanding, archiving succeeds after at most as many
      turns as there is work. */
  lemma {:induction false} GoodRunSucceeds(job: Job, st: State, next: nat, script: seq<Tick>)
    requires JobOk(job) && Inv(job, st) && Reached(job, st, next) && Compressible(job.p)
    requires st.strayReads == 0 && st.strayPuts == 0 && GoodRun(job, st, next, script)
    requires next <= |job.headers| && |script| >= Work(job, st, next)
    ensures Run(job, st, next, script).Done?
    ensures Run(job, st, next, script).st.strayReads == 0 && Run(job, st, next, script).st.strayPuts == 0
    decreases |script|, |job.headers| - next
  {
    hide Inv, Turned, Begun, GoodTurn, Compressible, Reached, JobOk;
    if next < |job.headers| && !ShouldBeArchived(job, next) {
      SkippedReached(job, st, next);
      GoodRunSucceeds(job, st, next + 1, script);
    } else if !(next == |job.headers| && Idle(st)) {
      if next == |job.headers| {
        BusyWork(job, st);
      }
      assert script != [];
      if next < |job.headers| {
        BegunInv(job, st, next);
        BegunWork(job, st, next);
      }
      var (begun, after) := if next < |job.headers| then Begun(job, st, next) else (st, next);
      GoodTurnSucceeds(job, begun, script[0]);
      TurnedWork(job, begun, script[0], after);
      TurnedReached(job, begun, script[0], after);
      GoodRunSucceeds(job, Turned(job, begun, script[0]).value, after, script[1..]);
    }
  }

  lemma BusyWork(job: Job, st: State)
    requires !Idle(st)
    ensures Work(job, st, |job.headers|) > 0
  {
    if st.fetching != map[] {
      var s :| s in st.fetching;
      assert |st.fetching| > 0;
    }
  }
}
