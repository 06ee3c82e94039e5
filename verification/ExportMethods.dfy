/** The export loop: submit, poll, write. */
module ExportMethods {
  import opened Codec
  import opened StripeMapping
  import opened Archive
  import opened ArchiveSource
  import opened ArchiveManifest
  import opened ArchiveSourceMethods
  import opened Export

  const MAX_FETCHES: nat := 16

  datatype Outcome = Exported | Aborted | Unfinished

  /** Every stripe in flight is owed exactly one result, others none; `left` are results that have
      been delivered but not looked at. */
  ghost predicate Owed(src: Source, store: Trust, st: ArchiveSource.State, left: seq<(nat, bool)>, inFlight: set<nat>,
                       next: nat, size: nat)
    requires Sane(src.p)
  {
    && (forall s: nat :: Waiting(src, st, s) + InResults(left, s) == One(s in inFlight))
    && (forall s | s in inFlight :: s < next && s in st.mem && |st.mem[s]| == size)
    && ResultsRight(src, store, st.mem, left, size)
  }

  /** The file holds the stripes that are done, and zeros elsewhere. */
  ghost predicate Written(src: Source, store: Trust, file: seq<byte>, size: nat, count: nat, next: nat,
                          inFlight: set<nat>)
    requires Sane(src.p)
  {
    && |file| == count * size && next <= count
    && forall s: nat | s < count :: ChunkOk(src, store, file, size, next, inFlight, s)
  }

  ghost predicate ChunkOk(src: Source, store: Trust, file: seq<byte>, size: nat, next: nat, inFlight: set<nat>, s: nat)
    requires Sane(src.p)
  {
    && (s + 1) * size <= |file|
    && if s < next && s !in inFlight
       then Right(src, store, s, Chunk(file, size, s)) else Chunk(file, size, s) == Zeros(size)
  }

  /** The file is the concatenation of count stripes, each of which is what the archive says. */
  ghost predicate IsExport(src: Source, store: Trust, count: nat, file: seq<byte>)
    requires Sane(src.p)
  {
    var size := StripeBytes(src.p);
    && |file| == count * size
    && forall s: nat | s < count :: (s + 1) * size <= |file| && Right(src, store, s, Chunk(file, size, s))
  }

  lemma ZeroFile(src: Source, store: Trust, size: nat, count: nat)
    requires Sane(src.p)
    ensures Written(src, store, Zeros(count * size), size, count, 0, {})
  {
    forall s: nat | s < count ensures ChunkOk(src, store, Zeros(count * size), size, 0, {}, s) {
      assert (s + 1) * size <= count * size by {
        if s + 1 < count {
          Apart(s, s + 1, size);
          Apart(s + 1, count, size);
          assert (s + 1) * size <= (s + 2) * size;
        }
      }
    }
  }

  lemma SkipStripe(src: Source, store: Trust, file: seq<byte>, size: nat, count: nat, next: nat, inFlight: set<nat>)
    requires Sane(src.p) && Written(src, store, file, size, count, next, inFlight) && next < count
    requires next !in src.hashes && forall s | s in inFlight :: s < next
    ensures Written(src, store, file, size, count, next + 1, inFlight)
  {
    hide Chunk, Decode;
    var later := next + 1;
    forall s: nat | s < count ensures ChunkOk(src, store, file, size, later, inFlight, s) {
      assert ChunkOk(src, store, file, size, next, inFlight, s);
    }
  }

  lemma SubmitStripe(src: Source, store: Trust, file: seq<byte>, size: nat, count: nat, next: nat, inFlight: set<nat>)
    requires Sane(src.p) && Written(src, store, file, size, count, next, inFlight) && next < count
    requires forall s | s in inFlight :: s < next
    ensures Written(src, store, file, size, count, next + 1, inFlight + {next})
  {
    hide Chunk, Right;
    var later, more := next + 1, inFlight + {next};
    forall s: nat | s < count ensures ChunkOk(src, store, file, size, later, more, s) {
      assert ChunkOk(src, store, file, size, next, inFlight, s);
    }
  }

  lemma WriteStripe(src: Source, store: Trust, file: seq<byte>, size: nat, count: nat, next: nat, inFlight: set<nat>,
                    s: nat, data: seq<byte>)
    requires Sane(src.p) && Written(src, store, file, size, count, next, inFlight) && s in inFlight && s < next
    requires |data| == size && Right(src, store, s, data)
    ensures (s + 1) * size <= |file|
            && Written(src, store, PutChunk(file, size, s, data), size, count, next, inFlight - {s})
  {
    hide Chunk, Right;
    assert ChunkOk(src, store, file, size, next, inFlight, s);
    var file' := PutChunk(file, size, s, data);
    forall t: nat | t < count ensures ChunkOk(src, store, file', size, next, inFlight - {s}, t) {
      assert ChunkOk(src, store, file, size, next, inFlight, t);
      PutThenChunk(file, size, s, data, t);
    }
  }

  // ----- results, one at a time -----

  lemma FirstResult(left: seq<(nat, bool)>, s: nat)
    requires left != []
    ensures InResults(left, s) == One(left[0].0 == s) + InResults(left[1..], s)
  {
    assert left == [left[0]] + left[1..];
    ResultsAppend([left[0]], left[1..], s);
    var one: seq<(nat, bool)> := [left[0]];
    assert one[..0] == [];
    assert InResults(one, s) == InResults(one[..0], s) + One(left[0].0 == s);
  }

  lemma TakeResult(src: Source, store: Trust, st: ArchiveSource.State, left: seq<(nat, bool)>, inFlight: set<nat>,
                   next: nat, size: nat)
    requires Sane(src.p) && Owed(src, store, st, left, inFlight, next, size) && left != []
    ensures left[0].0 in inFlight && left[0].0 < next
    ensures store.Some? ==> left[0].1
    ensures left[0].1 ==>
              left[0].0 in st.mem && |st.mem[left[0].0]| == size && Right(src, store, left[0].0, st.mem[left[0].0])
    ensures Owed(src, store, st, left[1..], inFlight - {left[0].0}, next, size)
  {
    hide Right, InResults, Waiting, One;
    var id := left[0].0;
    assert left[0] in left;
    OneIs();
    FirstResult(left, id);
    forall s: nat ensures Waiting(src, st, s) + InResults(left[1..], s) == One(s in inFlight - {id}) {
      FirstResult(left, s);
      assert Waiting(src, st, s) + InResults(left, s) == One(s in inFlight);
    }
  }

  lemma OneIs()
    ensures One(true) == 1 && One(false) == 0
  {
  }

  lemma RequestOwed(src: Source, store: Trust, st: ArchiveSource.State, inFlight: set<nat>, next: nat, size: nat)
    requires Sane(src.p) && Tidy(src, store, st, size) && Owed(src, store, st, st.finished, inFlight, next, size)
    requires next in st.mem && |st.mem[next]| == size
    ensures Tidy(src, store, Request(src, st, Want(next, next)), size)
    ensures Owed(src, store, Request(src, st, Want(next, next)), Request(src, st, Want(next, next)).finished,
                 inFlight + {next}, next + 1, size)
  {
    hide Request, Waiting, InResults, ResultsRight, One, Sorted, Right;
    OneIs();
    var w := Want(next, next);
    assert Waiting(src, st, next) + InResults(st.finished, next) == One(next in inFlight);
    assert next !in inFlight;
    RequestTidy(src, store, st, next, size);
    forall s: nat ensures Waiting(src, Request(src, st, w), s) + InResults(Request(src, st, w).finished, s)
        == One(s in inFlight + {next}) {
      RequestCounted(src, st, w, s);
      assert Waiting(src, st, s) + InResults(st.finished, s) == One(s in inFlight);
    }
  }

  lemma PollOwed(src: Source, store: Trust, st: ArchiveSource.State, answers: seq<(Hash, Option<seq<byte>>)>,
                 inFlight: set<nat>, next: nat, size: nat)
    requires Sane(src.p) && BuffersExist(st) && Tidy(src, store, st, size)
             && Owed(src, store, st, st.finished, inFlight, next, size)
    requires Trusted(src, store, size) && forall a | a in answers :: Expected(store, a)
    ensures var polled := ArrivedAll(src, st, answers);
            Owed(src, store, polled.(finished := []), polled.finished, inFlight, next, size)
  {
    hide ArrivedAll, Waiting, InResults, ResultsRight, One, Sorted, Right, BuffersExist, Trusted, Expected;
    var polled := ArrivedAll(src, st, answers);
    PollTidy(src, store, st, answers, size);
    forall s: nat ensures Waiting(src, polled.(finished := []), s) + InResults(polled.finished, s)
        == One(s in inFlight) {
      PollCounted(src, st, answers, s);
      SameWaiting(src, polled, s);
      assert Waiting(src, st, s) + InResults(st.finished, s) == One(s in inFlight);
    }
  }

  lemma SameWaiting(src: Source, st: ArchiveSource.State, s: nat)
    ensures Waiting(src, st.(finished := []), s) == Waiting(src, st, s)
  {
  }

  lemma InFlightBelow(src: Source, store: Trust, st: ArchiveSource.State, left: seq<(nat, bool)>, inFlight: set<nat>,
                      next: nat, size: nat)
    requires Sane(src.p) && Owed(src, store, st, left, inFlight, next, size)
    ensures forall s | s in inFlight :: s < next
  {
  }

  lemma WrittenBound(src: Source, store: Trust, file: seq<byte>, size: nat, count: nat, next: nat, inFlight: set<nat>)
    requires Sane(src.p) && Written(src, store, file, size, count, next, inFlight)
    ensures next <= count && |file| == count * size
  {
  }

  lemma OwedLater(src: Source, store: Trust, st: ArchiveSource.State, left: seq<(nat, bool)>, inFlight: set<nat>,
                  next: nat, size: nat)
    requires Sane(src.p) && Owed(src, store, st, left, inFlight, next, size)
    ensures Owed(src, store, st, left, inFlight, next + 1, size)
  {
    hide Waiting, InResults, ResultsRight;
  }

  /** A new buffer for the next stripe disturbs nothing. */
  lemma NewBuffer(src: Source, store: Trust, st: ArchiveSource.State, inFlight: set<nat>, next: nat, size: nat)
    requires Sane(src.p) && Tidy(src, store, st, size) && Owed(src, store, st, st.finished, inFlight, next, size)
             && BuffersExist(st)
    ensures var more := st.(mem := st.mem[next := Zeros(size)]);
            Tidy(src, store, more, size) && Owed(src, store, more, more.finished, inFlight, next, size)
                && BuffersExist(more)
  {
    hide Right, InResults, InWants, One;
    OneIs();
    assert Waiting(src, st, next) + InResults(st.finished, next) == One(next in inFlight);
    NoResult(st.finished, next);
    var more := st.(mem := st.mem[next := Zeros(size)]);
    assert forall s :: Waiting(src, more, s) == Waiting(src, st, s);
  }

  lemma StartOwed(src: Source, store: Trust, st: ArchiveSource.State, size: nat)
    requires Sane(src.p) && st.pending == map[] && st.finished == []
    ensures Tidy(src, store, st, size) && Owed(src, store, st, st.finished, {}, 0, size)
  {
    hide Right;
  }

  lemma PolledTidy(src: Source, store: Trust, st: ArchiveSource.State, answers: seq<(Hash, Option<seq<byte>>)>,
                   size: nat)
    requires Sane(src.p) && BuffersExist(st) && Tidy(src, store, st, size)
    requires Trusted(src, store, size) && forall a | a in answers :: Expected(store, a)
    ensures Tidy(src, store, ArrivedAll(src, st, answers).(finished := []), size)
  {
    hide ArrivedAll, Waiting, InResults, Right, BuffersExist, Trusted, Expected;
    PollTidy(src, store, st, answers, size);
    var polled := ArrivedAll(src, st, answers);
    forall s ensures Waiting(src, polled.(finished := []), s) + InResults([], s) <= 1 {
      SameWaiting(src, polled, s);
      NoResults(s);
      assert Waiting(src, polled, s) + InResults(polled.finished, s) <= 1;
    }
  }

  lemma NoResults(s: nat)
    ensures InResults([], s) == 0
  {
  }

  lemma AllWritten(src: Source, store: Trust, file: seq<byte>, size: nat, count: nat, next: nat, inFlight: set<nat>)
    requires Sane(src.p) && Written(src, store, file, size, count, next, inFlight) && next - |inFlight| >= count
    requires size == StripeBytes(src.p)
    ensures IsExport(src, store, count, file)
  {
    hide Right, Chunk;
    assert inFlight == {};
    forall s: nat | s < count ensures (s + 1) * size <= |file| && Right(src, store, s, Chunk(file, size, s)) {
      assert ChunkOk(src, store, file, size, next, inFlight, s);
    }
  }

  /** If something is in flight, and the store answers something that is waited for, there are results. */
  lemma SomeResult(src: Source, store: Trust, st: ArchiveSource.State, answers: seq<(Hash, Option<seq<byte>>)>,
                   inFlight: set<nat>, next: nat, size: nat)
    requires Sane(src.p) && BuffersExist(st) && Tidy(src, store, st, size)
             && Owed(src, store, st, st.finished, inFlight, next, size)
    requires inFlight != {} && Lively(st, answers)
    ensures ArrivedAll(src, st, answers).finished != []
  {
    hide ArrivedAll, ResultsRight, Right, Waiting, InResults, One;
    OneIs();
    var s :| s in inFlight;
    assert Waiting(src, st, s) + InResults(st.finished, s) == One(s in inFlight);
    var t := if InResults(st.finished, s) > 0 then s else StripeAnswered(src, st, answers, s);
    PollCounted(src, st, answers, t);
    WaitingLess(src, st, answers, t);
    if InResults(st.finished, s) == 0 {
      AnsweredCounted(src, st, answers, t);
    }
    assert InResults(ArrivedAll(src, st, answers).finished, t) > 0;
    NoResults(t);
  }

  lemma WaitingLess(src: Source, st: ArchiveSource.State, answers: seq<(Hash, Option<seq<byte>>)>, t: nat)
    requires Sane(src.p) && BuffersExist(st)
    ensures Waiting(src, ArrivedAll(src, st, answers), t) <= Waiting(src, st, t)
  {
    hide ArrivedAll;
    if t in src.hashes && src.hashes[t].Object? {
      PendingLeft(src, st, answers, src.hashes[t].hash);
    }
  }

  /** The store answers at least one of the objects that are waited for, if there are any. */
  predicate Lively(st: ArchiveSource.State, answers: seq<(Hash, Option<seq<byte>>)>) {
    st.pending != map[] ==> exists h :: h in st.pending && AnsweredIn(answers, h)
  }

  /** A stripe that waits for an object that is answered. */
  ghost function StripeAnswered(src: Source, st: ArchiveSource.State, answers: seq<(Hash, Option<seq<byte>>)>,
                                s: nat): (t: nat)
    requires Sorted(src, st) && Waited(st) && Lively(st, answers) && Waiting(src, st, s) > 0
    ensures t in src.hashes && src.hashes[t].Object? && src.hashes[t].hash in st.pending && Waiting(src, st, t) > 0
    ensures AnsweredIn(answers, src.hashes[t].hash)
  {
    var h :| h in st.pending && AnsweredIn(answers, h);
    var w := st.pending[h][0];
    assert w in st.pending[h];
    Export.Wanted(st.pending[h], w);
    w.stripe
  }

  lemma AnsweredCounted(src: Source, st: ArchiveSource.State, answers: seq<(Hash, Option<seq<byte>>)>, t: nat)
    requires Sane(src.p) && BuffersExist(st) && t in src.hashes && src.hashes[t].Object?
             && AnsweredIn(answers, src.hashes[t].hash)
    ensures Waiting(src, ArrivedAll(src, st, answers), t) == 0
  {
    hide ArrivedAll;
    PendingLeft(src, st, answers, src.hashes[t].hash);
  }

  // ----- the loop -----

  /** Keeps up to sixteen requests in flight; stripes that the archive lacks are done at once. */
  method Submit(source: ArchiveStripeSource, next0: nat, written0: nat, inFlight0: set<nat>, count: nat, size: nat,
                ghost file: seq<byte>, ghost store: Trust)
    returns (next: nat, written: nat, inFlight: set<nat>)
    requires source.Ok() && Tidy(source.src, store, source.View(), size) && size == StripeBytes(source.src.p)
    requires Owed(source.src, store, source.View(), source.finished, inFlight0, next0, size)
    requires Written(source.src, store, file, size, count, next0, inFlight0) && written0 + |inFlight0| == next0
    modifies source, source.buffers
    ensures source.Ok() && Tidy(source.src, store, source.View(), size)
    ensures Owed(source.src, store, source.View(), source.finished, inFlight, next, size)
    ensures Written(source.src, store, file, size, count, next, inFlight) && written + |inFlight| == next
    ensures written >= written0 && (|inFlight| >= MAX_FETCHES || next == count)
  {
    hide Tidy, Owed, Written, BuffersExist, IsMax;
    next, written, inFlight := next0, written0, inFlight0;
    InFlightBelow(source.src, store, source.View(), source.finished, inFlight, next, size);
    WrittenBound(source.src, store, file, size, count, next, inFlight);
    while |inFlight| < MAX_FETCHES && next < count
      invariant source.Ok() && Tidy(source.src, store, source.View(), size)
      invariant Owed(source.src, store, source.View(), source.finished, inFlight, next, size)
      invariant Written(source.src, store, file, size, count, next, inFlight) && written + |inFlight| == next <= count
      invariant (forall s | s in inFlight :: s < next) && written >= written0
    {
      var has := source.HasStripe(next);
      if !has {
        SkipStripe(source.src, store, file, size, count, next, inFlight);
        OwedLater(source.src, store, source.View(), source.finished, inFlight, next, size);
        written := written + 1;
      } else {
        ghost var before := source.View();
        source.buffers.data := source.buffers.data[next := Zeros(size)];
        NewBuffer(source.src, store, before, inFlight, next, size);
        RequestOwed(source.src, store, source.View(), inFlight, next, size);
        SubmitStripe(source.src, store, file, size, count, next, inFlight);
        source.Request(Want(next, next));
        inFlight := inFlight + {next};
      }
      next := next + 1;
    }
  }

  /** Writes the stripes that have arrived, each at its place. */
  method WriteOut(source: ArchiveStripeSource, results: seq<(nat, bool)>, next: nat, written0: nat,
                  inFlight0: set<nat>, count: nat, size: nat, file0: seq<byte>, ghost store: Trust)
    returns (ok: bool, written: nat, inFlight: set<nat>, file: seq<byte>)
    requires Sane(source.src.p) && Owed(source.src, store, source.View(), results, inFlight0, next, size)
    requires Written(source.src, store, file0, size, count, next, inFlight0) && written0 + |inFlight0| == next
    ensures ok ==> Owed(source.src, store, source.View(), [], inFlight, next, size)
    ensures ok ==> Written(source.src, store, file, size, count, next, inFlight) && written + |inFlight| == next
    ensures store.Some? ==> ok
    ensures ok ==> written == written0 + |results|
  {
    hide Owed, Written, Right;
    written, inFlight, file := written0, inFlight0, file0;
    for i := 0 to |results|
      invariant Owed(source.src, store, source.View(), results[i..], inFlight, next, size)
      invariant Written(source.src, store, file, size, count, next, inFlight) && written + |inFlight| == next
      invariant written == written0 + i
    {
      assert results[i..][1..] == results[i + 1..];
      var (id, success) := results[i];
      TakeResult(source.src, store, source.View(), results[i..], inFlight, next, size);
      if !success {
        return false, written, inFlight, file;
      }
      if id in inFlight {
        WriteStripe(source.src, store, file, size, count, next, inFlight, id, source.buffers.data[id]);
        file := PutChunk(file, size, id, source.buffers.data[id]);
        inFlight := inFlight - {id};
        written := written + 1;
      }
    }
    ok := true;
  }

  /** What the store answers in round t to a reader in this state. */
  type Answers = (nat, ArchiveSource.State) -> seq<(Hash, Option<seq<byte>>)>

  ghost predicate AlwaysExpected(store: Trust, answers: Answers) {
    forall t, st, a | a in answers(t, st) :: Expected(store, a)
  }

  ghost predicate AlwaysLively(answers: Answers) {
    forall t, st :: Lively(st, answers(t, st))
  }

  /** On success the file is exactly the archive: every stripe right, zeros at the holes, for any order in
      which the store answers. With a trusted store the export never aborts, and it succeeds within as many
      rounds as there are stripes if every round answers something that is waited for. */
  method ExportArchive(source: ArchiveStripeSource, answers: Answers, rounds: nat, ghost store: Trust)
    returns (r: Outcome, file: seq<byte>)
    requires source.Ok() && source.pending == map[] && source.finished == []
    requires Trusted(source.src, store, StripeBytes(source.src.p)) && AlwaysExpected(store, answers)
    modifies source, source.buffers
    ensures var count := ArchiveSource.StripeCount(source.src.hashes, source.maxStripe);
            && (r == Exported ==> IsExport(source.src, store, count, file))
            && (store.Some? ==> r != Aborted)
            && (store.Some? && AlwaysLively(answers) && rounds >= count ==> r == Exported)
            && forall s | s in source.src.hashes :: s < count
  {
    hide Right, BuffersExist, IsMax, Owed, Written, Tidy, IsExport, ArrivedAll, StripeBytes, Trusted, Expected, Lively;
    var count := source.StripeCount();
    var size := StripeBytes(source.src.p);
    file := Zeros(count * size);
    ZeroFile(source.src, store, size, count);
    StartOwed(source.src, store, source.View(), size);
    var next: nat, written: nat, inFlight: set<nat> := 0, 0, {};
    var t := 0;
    while written < count && t < rounds
      invariant source.Ok() && Tidy(source.src, store, source.View(), size)
      invariant Owed(source.src, store, source.View(), source.finished, inFlight, next, size)
      invariant Written(source.src, store, file, size, count, next, inFlight) && written + |inFlight| == next
      invariant AlwaysLively(answers) ==> written >= t || written >= count
      decreases rounds - t
    {
      next, written, inFlight := Submit(source, next, written, inFlight, count, size, file, store);
      ghost var before := source.View();
      var batch := answers(t, source.View());
      PollOwed(source.src, store, before, batch, inFlight, next, size);
      PolledTidy(source.src, store, before, batch, size);
      if inFlight != {} && AlwaysLively(answers) {
        SomeResult(source.src, store, before, batch, inFlight, next, size);
      }
      var results := source.Poll(batch);
      var ok;
      ok, written, inFlight, file := WriteOut(source, results, next, written, inFlight, count, size, file, store);
      if !ok {
        return Aborted, file;
      }
      t := t + 1;
    }
    if written < count {
      return Unfinished, file;
    }
    AllWritten(source.src, store, file, size, count, next, inFlight);
    r := Exported;
  }

  /** Archive, then export from a store that returns what was put: the image holds, stripe by stripe, what
      the archiver saw, and zeros where nothing was archived, with the manifest read back from the store. */
  lemma ExportedImage(t: Tools, m: ArchiveMetadata, key: seq<byte>, job: Job, st: Archive.State, count: nat,
                      file: seq<byte>, s: nat)
    requires ToolsOk(t) && Describes(t, m, key, job.p)
    requires JobOk(job) && Finished(job, st) && st.strayPuts == 0 && s < count && Sane(job.p)
    requires Collisionless(job.p, st.views)
    requires IsExport(Source(job.p, st.hashes), Some(st.objects), count, file)
    ensures Opened(t, Some(t.toJson(Tagged(t, m, key))), Some(Serialize(t.format, st.hashes, key, job.p.cipher)))
            == Some(Source(job.p, st.hashes))
    ensures Trusted(Source(job.p, st.hashes), Some(st.objects), StripeBytes(job.p))
    ensures (s + 1) * StripeBytes(job.p) <= |file|
    ensures var chunk := Chunk(file, StripeBytes(job.p), s);
            if s < |job.headers| && ShouldBeArchived(job, s)
            then s in st.views && chunk == st.views[s] && (st.strayReads == 0 ==> ViewOf(job, s) <= chunk)
            else chunk == Zeros(StripeBytes(job.p))
  {
    hide Finished, Opened, Serialize, Contents, JobOk, Chunk, IsExport, Serves, ToolsOk;
    OpenRoundTrip(t, m, key, job.p, st.hashes);
    ExportedChunk(Source(job.p, st.hashes), st.objects, count, file, s);
    ArchiveServes(job, st, s);
  }

  lemma ExportSize(src: Source, store: Trust, count: nat, file: seq<byte>)
    requires Sane(src.p) && IsExport(src, store, count, file)
    ensures |file| == count * StripeBytes(src.p)
  {
  }

  lemma ExportedChunk(src: Source, store: map<Hash, seq<byte>>, count: nat, file: seq<byte>, s: nat)
    requires Sane(src.p) && IsExport(src, Some(store), count, file) && s < count
    ensures (s + 1) * StripeBytes(src.p) <= |file|
    ensures Chunk(file, StripeBytes(src.p), s) == Contents(src, store, s, StripeBytes(src.p))
  {
    hide Contents;
  }
}
