/** A run in which the archiver stores what its buffer held before: a source of two stripes that ends in
    the second one, archived with one buffer. */
module ArchiveTail {
  import opened BufferPool
  import opened Codec
  import opened Metadata
  import opened StripeMapping
  import opened Archive
  import opened ArchiveRuns

  /** A full stripe that does not end in a zero, and a shorter one that begins alike. */
  predicate Stripes(full: seq<byte>, half: seq<byte>) {
    && |full| % SECTOR_SIZE == 0 && |half| % SECTOR_SIZE == 0
    && half != [] && half < full && full[|full| - 1] != 0
  }

  /** Neither compressed nor encrypted, and named by their contents, so that no two objects collide. */
  function PlainParams(sectors: nat): Params {
    Params(NoCompression, None, sectors, (x: seq<byte>) => x)
  }

  function ShortJob(full: seq<byte>, half: seq<byte>): Job {
    var h := Header(false, false, true);
    Job(PlainParams(|full| / SECTOR_SIZE), [h, h], [full, full], [full, half])
  }

  function Script(full: seq<byte>): seq<Tick> {
    [Tick(true, [], [(0, true)], []), Tick(true, [], [(1, true)], [(full, true)])]
  }

  lemma ShortJobOk(full: seq<byte>, half: seq<byte>)
    requires Stripes(full, half)
    ensures JobOk(ShortJob(full, half)) && StripeBytes(ShortJob(full, half).p) == |full|
  {
  }

  lemma CodesItself(full: seq<byte>, half: seq<byte>, s: nat)
    requires Stripes(full, half)
    ensures JobOk(ShortJob(full, half)) && StripeBytes(ShortJob(full, half).p) == |full|
    ensures CodeStripe(ShortJob(full, half).p, s, full) == Some(Coded(Object(full), full))
  {
    ShortJobOk(full, half);
    assert !IsZeroStripe(full);
  }

  /** A new archiver with one buffer. */
  function New(buf: seq<byte>): State {
    NewState(1, map[0 := buf])
  }

  /** Nothing is being read, and the one buffer is free. */
  predicate Resting(st: State, buf: seq<byte>) {
    && st.fetching == map[] && st.pool == Pool([0], [false]) && st.mem == map[0 := buf]
    && st.atDevice == map[] && st.atSource == map[]
  }

  function Reading(st: State, s: nat): State {
    st.(fetching := map[s := 0], pool := Pool([], [true]), atSource := map[s := 0])
  }

  function WasRead(st: State, s: nat, full: seq<byte>): State {
    st.(fetching := map[s := 0], pool := Pool([], [true]), mem := map[0 := full])
  }

  /** The stripe has been read and recorded; its object is handed over unless it was before. */
  function Kept(st: State, s: nat, full: seq<byte>): State {
    var unseen := full !in st.seen;
    st.(mem := map[0 := full], hashes := st.hashes[s := Object(full)], views := st.views[s := full],
        seen := st.seen + {full}, pending := if unseen then st.pending[full := full] else st.pending,
        inflight := if unseen then st.inflight + 1 else st.inflight, puts := if unseen then st.puts + 1 else st.puts)
  }

  lemma Starts(job: Job, st: State, s: nat, buf: seq<byte>)
    requires Resting(st, buf) && s < |job.headers| && PlaceOf(job, s) == AtSource
    ensures Begun(job, st, s) == (Reading(st, s), s + 1)
  {
    assert st.pool.Take() == Pool([], [true]);
    assert st.fetching[s := 0] == map[s := 0];
  }

  lemma Reads(job: Job, st: State, s: nat, buf: seq<byte>, full: seq<byte>)
    requires Resting(st, buf) && s < |job.image| && Filled(buf, job.image[s]) == full
    ensures Delivered(job, Reading(st, s), AtSource, (s, true)) == WasRead(st, s, full)
  {
    hide Filled;
    assert map[s := 0] - {s} == map[];
  }

  lemma Keeps(st: State, s: nat, full: seq<byte>, buf: seq<byte>)
    requires Resting(st, buf)
    ensures WasRead(st, s, full).pool.Holds(0)
    ensures Recorded(WasRead(st, s, full), s, Coded(Object(full), full)) == Kept(st, s, full)
  {
    assert map[s := 0] - {s} == map[];
    assert WasRead(st, s, full).pool.Give(0) == Pool([0], [false]);
    if full in st.seen {
      assert st.seen + {full} == st.seen;
    }
  }

  lemma OneRead(job: Job, st: State, s: nat)
    ensures AllDelivered(job, st, [], [(s, true)]) == Delivered(job, st, AtSource, (s, true))
  {
    var one := [(s, true)];
    assert one[..|one| - 1] == [];
    assert DeliveredAll(job, st, AtSource, []) == st;
  }

  lemma OneTaken(job: Job, st: State, s: nat)
    requires JobOk(job) && Inv(job, st)
    ensures var read := Delivered(job, st, AtSource, (s, true));
            Inv(job, read) && Taken(job, st, [], [(s, true)]) == Uploaded(job, read, s)
  {
    hide Inv, JobOk, Delivered, Uploaded, AllDelivered;
    AllDeliveredInv(job, st, [], [(s, true)]);
    OneRead(job, st, s);
    var done, read := [(s, true)], Delivered(job, st, AtSource, (s, true));
    assert [] + done == done && done[1..] == [] && done[0] in done;
    if Uploaded(job, read, s).Some? {
      UploadedInv(job, read, s);
      assert UploadedAll(job, Uploaded(job, read, s).value, []) == Uploaded(job, read, s);
    }
  }

  /** One stripe, from the free buffer back to it. */
  lemma OneStripe(full: seq<byte>, half: seq<byte>, st: State, s: nat, buf: seq<byte>)
    requires Stripes(full, half) && JobOk(ShortJob(full, half)) && Inv(ShortJob(full, half), st)
    requires Resting(st, buf) && s < 2 && Reached(ShortJob(full, half), st, s)
    requires Filled(buf, ShortJob(full, half).image[s]) == full
    ensures var job := ShortJob(full, half);
            && ShouldBeArchived(job, s) && Begun(job, st, s) == (Reading(st, s), s + 1) && Inv(job, Reading(st, s))
            && Taken(job, Reading(st, s), [], [(s, true)]) == Some(Kept(st, s, full))
  {
    var job := ShortJob(full, half);
    assert ShouldBeArchived(job, s) && PlaceOf(job, s) == AtSource;
    CodesItself(full, half, s);
    hide Inv, JobOk, Reached, CodeStripe, Delivered, Recorded, Filled, Kept, Taken, Reading, Begun;
    Starts(job, st, s, buf);
    BegunInv(job, st, s);
    OneTaken(job, Reading(st, s), s);
    Reads(job, st, s, buf, full);
    Keeps(st, s, full, buf);
  }

  /** A turn of the loop that starts, reads and records one stripe. */
  lemma OneTurn(full: seq<byte>, half: seq<byte>, st: State, s: nat, buf: seq<byte>, acks: seq<(Hash, bool)>,
                rest: seq<Tick>)
    requires Stripes(full, half) && JobOk(ShortJob(full, half)) && Inv(ShortJob(full, half), st)
    requires Resting(st, buf) && s < 2 && Reached(ShortJob(full, half), st, s)
    requires Filled(buf, ShortJob(full, half).image[s]) == full
    ensures var job := ShortJob(full, half);
            && Inv(job, Kept(st, s, full))
            && match AcknowledgedAll(job, Kept(st, s, full), acks)
               case None => true
               case Some(next) =>
                 && Inv(job, next) && Reached(job, next, s + 1)
                 && Run(job, st, s, [Tick(true, [], [(s, true)], acks)] + rest) == Run(job, next, s + 1, rest)
  {
    var job, tick := ShortJob(full, half), Tick(true, [], [(s, true)], acks);
    var script := [tick] + rest;
    assert !CannotStart(job, st, s, tick);
    OneStripe(full, half, st, s, buf);
    hide Inv, JobOk, Reached, Taken, Reading, Begun, Kept, AcknowledgedAll, ShortJob, Stripes, Filled, Resting;
    assert script[0] == tick && script[1..] == rest;
    BegunInv(job, st, s);
    if Turned(job, Reading(st, s), tick).Some? {
      TurnedReached(job, Reading(st, s), tick, s + 1);
    }
  }

  lemma NewRests(buf: seq<byte>)
    ensures Resting(New(buf), buf)
  {
    var p := NewPool(1);
    assert p.available == [0] && !p.Holds(0);
    assert p == Pool([0], [false]);
  }

  lemma BufferFull(full: seq<byte>, half: seq<byte>, buf: seq<byte>)
    requires Stripes(full, half) && |buf| == |full|
    ensures var image := ShortJob(full, half).image;
            Filled(buf, image[0]) == full && Filled(full, image[1]) == full
  {
  }

  lemma RestsAgain(full: seq<byte>, buf: seq<byte>)
    requires Resting(New(buf), buf)
    ensures Resting(Kept(New(buf), 0, full), full)
  {
  }

  lemma NewReady(full: seq<byte>, half: seq<byte>, buf: seq<byte>)
    requires Stripes(full, half) && |buf| == |full|
    ensures var job := ShortJob(full, half);
            JobOk(job) && Inv(job, New(buf)) && Reached(job, New(buf), 0) && Resting(New(buf), buf)
  {
    hide Inv, Reached, JobOk, ShortJob, Resting, StripeBytes;
    ShortJobOk(full, half);
    NewInv(ShortJob(full, half), 1, map[0 := buf]);
    NewRests(buf);
  }

  /** Both stripes are recorded as the same object, which is acknowledged. */
  function Ended(full: seq<byte>, buf: seq<byte>): State {
    NewState(1, map[0 := full]).(pool := New(buf).pool, hashes := map[0 := Object(full), 1 := Object(full)],
                                 views := map[0 := full, 1 := full], seen := {full},
                                 objects := map[full := full], puts := 1)
  }

  lemma Acknowledges(full: seq<byte>, half: seq<byte>, buf: seq<byte>)
    requires JobOk(ShortJob(full, half)) && Inv(ShortJob(full, half), Kept(Kept(New(buf), 0, full), 1, full))
    ensures AcknowledgedAll(ShortJob(full, half), Kept(Kept(New(buf), 0, full), 1, full), [(full, true)])
            == Some(Ended(full, buf))
  {
    var job, kept, acks := ShortJob(full, half), Kept(Kept(New(buf), 0, full), 1, full), [(full, true)];
    assert Acknowledged(kept, full, true) == Some(Ended(full, buf));
    hide Inv, JobOk, Ended, Kept, Acknowledged;
    AcknowledgedInv(job, kept, full, true);
    assert acks[1..] == [];
    assert AcknowledgedAll(job, Ended(full, buf), []) == Some(Ended(full, buf));
  }

  lemma RunEnds(full: seq<byte>, half: seq<byte>, buf: seq<byte>)
    requires JobOk(ShortJob(full, half)) && Inv(ShortJob(full, half), Ended(full, buf))
    requires Reached(ShortJob(full, half), Ended(full, buf), 2)
    ensures Run(ShortJob(full, half), Ended(full, buf), 2, []) == Done(Ended(full, buf))
  {
    hide Inv, JobOk, Reached;
  }

  lemma RunReaches(full: seq<byte>, half: seq<byte>, buf: seq<byte>)
    requires Stripes(full, half) && |buf| == |full|
    ensures var job := ShortJob(full, half);
            && JobOk(job) && Inv(job, New(buf)) && Reached(job, New(buf), 0)
            && Run(job, New(buf), 0, Script(full)) == Done(Ended(full, buf))
  {
    hide Inv, JobOk, Reached, Run, Kept, Resting, Filled, Stripes, New, Ended;
    var job, st := ShortJob(full, half), New(buf);
    NewReady(full, half, buf);
    BufferFull(full, half, buf);
    RestsAgain(full, buf);
    OneTurn(full, half, st, 0, buf, [], [Script(full)[1]]);
    assert AcknowledgedAll(job, Kept(st, 0, full), []) == Some(Kept(st, 0, full));
    OneTurn(full, half, Kept(st, 0, full), 1, full, [(full, true)], []);
    Acknowledges(full, half, buf);
    RunEnds(full, half, buf);
    assert Script(full) == [Script(full)[0]] + [Script(full)[1]] && [Script(full)[1]] + [] == [Script(full)[1]];
  }

  /** The run succeeds, with reports on outstanding requests only. The archive then says that the second
      stripe is like the first, although the source ends inside it, and not that it ends in zeros. */
  lemma StaleTail(full: seq<byte>, half: seq<byte>, buf: seq<byte>)
    requires Stripes(full, half) && |buf| == |full|
    ensures var job := ShortJob(full, half);
            && JobOk(job) && Inv(job, New(buf)) && Reached(job, New(buf), 0) && ViewOf(job, 1) == half
            && var ran := Run(job, New(buf), 0, Script(full));
            && ran.Done? && ran.st.strayReads == 0 && ran.st.strayPuts == 0
            && ran.st.hashes == map[0 := Object(full), 1 := Object(full)] && ran.st.objects == map[full := full]
            && ran.st.views == map[0 := full, 1 := full]
    ensures full != half + Zeros(|full| - |half|)
  {
    hide Inv, JobOk, Reached, Run, Stripes, Zeros, StripeBytes;
    RunReaches(full, half, buf);
    NotPadded(full, half);
  }

  lemma NotPadded(full: seq<byte>, half: seq<byte>)
    requires Stripes(full, half)
    ensures full != half + Zeros(|full| - |half|)
  {
    var padded := half + Zeros(|full| - |half|);
    assert padded[|full| - 1] == 0;
  }
}
