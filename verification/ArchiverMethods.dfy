/** The archiver as an object, driven by what the devices and the store deliver. */
module ArchiverMethods {
  import opened BufferPool
  import opened Codec
  import opened StripeMapping
  import opened Archive
  import opened ArchiveRuns
  import opened ArchiveManifest

  /** What reached the store for good, in order. */
  datatype Entry = DataObject(hash: Hash) | MetadataJson(bytes: seq<byte>) | Mapping(bytes: seq<byte>)

  class ArchiveStore {
    var pending: map<Hash, seq<byte>>
    var objects: map<Hash, seq<byte>>
    var puts: nat
    var log: seq<Entry>

    constructor ()
      ensures pending == map[] && objects == map[] && puts == 0 && log == []
    {
      pending, objects, puts, log := map[], map[], 0, [];
    }

    method StartPutObject(h: Hash, blob: seq<byte>)
      modifies this
      ensures pending == old(pending)[h := blob] && puts == old(puts) + 1
      ensures objects == old(objects) && log == old(log)
    {
      pending, puts := pending[h := blob], puts + 1;
    }

    /** One result of a put that is outstanding. */
    method FinishPut(h: Hash, ok: bool)
      requires h in pending
      modifies this
      ensures pending == old(pending) - {h} && puts == old(puts)
      ensures objects == if ok then old(objects)[h := old(pending)[h]] else old(objects)
      ensures log == old(log) + if ok then [DataObject(h)] else []
    {
      if ok {
        objects, log := objects[h := pending[h]], log + [DataObject(h)];
      }
      pending := pending - {h};
    }

    method PutObject(entry: Entry, ok: bool)
      modifies `log
      ensures log == old(log) + if ok then [entry] else []
    {
      if ok {
        log := log + [entry];
      }
    }
  }

  datatype Outcome = Archived | Aborted | Waiting

  /** The buffers that the archiver shares with the channels it reads from. */
  class Memory {
    var data: map<nat, seq<byte>>

    constructor (data: map<nat, seq<byte>>)
      ensures this.data == data
    {
      this.data := data;
    }
  }

  /** The channel of the device, or the stripe source. */
  class ReadChannel {
    const stripes: seq<seq<byte>>
    const memory: Memory
    var asked: map<nat, nat>

    constructor (stripes: seq<seq<byte>>, memory: Memory)
      ensures this.stripes == stripes && this.memory == memory && asked == map[]
    {
      this.stripes, this.memory, asked := stripes, memory, map[];
    }

    method Request(s: nat, b: nat)
      modifies this
      ensures asked == old(asked)[s := b]
    {
      asked := asked[s := b];
    }

    /** The read of a stripe is reported: with success once its data is in the buffer. */
    method Report(c: (nat, bool))
      modifies this, memory
      ensures memory.data == Read(old(memory.data), old(asked), stripes, c)
      ensures asked == if c.1 then old(asked) - {c.0} else old(asked)
    {
      if c.1 && c.0 in asked && asked[c.0] in memory.data && c.0 < |stripes| {
        memory.data := memory.data[asked[c.0] := Filled(memory.data[asked[c.0]], stripes[c.0])];
      }
      if c.1 {
        asked := asked - {c.0};
      }
    }
  }

  class StripeArchiver {
    const job: Job
    const store: ArchiveStore
    const pool: AlignedBufferPool
    const memory: Memory
    const device: ReadChannel
    const source: ReadChannel
    const tools: Tools
    const metadata: ArchiveMetadata
    const hmacKey: seq<byte>
    var fetchBuffers: map<nat, nat>
    var seenObjectKeys: set<Hash>
    var stripeHashes: map<nat, Content>
    var inflightPuts: nat
    ghost var views: map<nat, seq<byte>>
    ghost var strayReads: nat
    ghost var strayPuts: nat

    ghost function View(): State
      reads this, store, pool, memory, device, source
    {
      State(fetchBuffers, pool.View(), memory.data, device.asked, source.asked, views, strayReads, seenObjectKeys,
            stripeHashes, store.pending, store.objects, inflightPuts, store.puts, strayPuts)
    }

    ghost predicate Ok()
      reads this, store, pool, memory, device, source
    {
      && JobOk(job) && Inv(job, View()) && Fits(metadata)
      && device.stripes == job.device && source.stripes == job.image
      && device.memory == source.memory == memory && device != source
      && (forall h | h in store.objects :: DataObject(h) in store.log)
    }

    /** The objects that the archiver changes. */
    ghost function Parts(): set<object> {
      {this, store, pool, memory, device, source}
    }

    constructor (job: Job, store: ArchiveStore, concurrency: nat, tools: Tools, metadata: ArchiveMetadata,
                 hmacKey: seq<byte>)
      requires JobOk(job) && Fits(metadata) && store.pending == map[] && store.objects == map[] && store.puts == 0
               && store.log == []
      ensures Ok() && fresh(pool) && fresh(memory) && fresh(device) && fresh(source)
      ensures View() == NewState(concurrency, memory.data) && Reached(job, View(), 0)
      ensures this.job == job && this.store == store && this.tools == tools && this.metadata == metadata
              && this.hmacKey == hmacKey
    {
      var p := new AlignedBufferPool(concurrency);
      var m := new Memory(Blank(concurrency, StripeBytes(job.p)));
      var d := new ReadChannel(job.device, m);
      var i := new ReadChannel(job.image, m);
      this.job, this.store, pool, this.hmacKey := job, store, p, hmacKey;
      this.tools, this.metadata := tools, metadata;
      memory, device, source := m, d, i;
      fetchBuffers, seenObjectKeys, stripeHashes, inflightPuts := map[], {}, map[], 0;
      views, strayReads, strayPuts := map[], 0, 0;
      new;
      hide Inv, Reached, NewPool, Blank;
      NewInv(job, concurrency, memory.data);
    }

    /** Asks the device for stripes that were written or fetched, and the source for the others. */
    method StartFetchStripe(s: nat, buf: nat, submitOk: bool) returns (ok: bool)
      requires s < |job.headers| && Sizes(job) && device != source
      modifies device, source
      ensures ok == (submitOk && !Beyond(job, s))
      ensures ok ==> device.asked == if PlaceOf(job, s) == AtDevice
              then old(device.asked)[s := buf] else old(device.asked)
      ensures ok ==> source.asked == if PlaceOf(job, s) == AtSource
              then old(source.asked)[s := buf] else old(source.asked)
    {
      if job.headers[s].written || job.headers[s].fetched {
        device.Request(s, buf);
        ok := submitOk;
      } else if job.image[s] == [] {
        ok := false;
      } else {
        source.Request(s, buf);
        ok := submitOk;
      }
    }

    method MaybeStartNextStripe(s: nat, submitOk: bool) returns (ok: bool, started: bool)
      requires Ok() && Reached(job, View(), s) && s < |job.headers| && ShouldBeArchived(job, s)
      modifies this, pool, device, source
      ensures started <==> old(pool.View().available) != []
      ensures ok <==> !started || (submitOk && !Beyond(job, s))
      ensures ok ==> Ok() && store.log == old(store.log)
      ensures ok ==> (View(), if started then s + 1 else s) == Begun(job, old(View()), s)
    {
      hide Inv, Reached, JobOk;
      JobSizes(job);
      ghost var before := View();
      if before.pool.available != [] {
        StartedInv(job, before, s);
      }
      PoolValid(job, before);
      var found, buf := pool.GetBuffer();
      if !found {
        return true, false;
      }
      fetchBuffers := fetchBuffers[s := buf];
      ok := StartFetchStripe(s, buf, submitOk);
      started := true;
      assert ok ==> View() == Started(job, before, s);
    }

    /** Records what becomes of a stripe, and hands its object over unless it was handed over. */
    method Record(s: nat, x: Coded)
      requires s in fetchBuffers && fetchBuffers[s] in memory.data && pool.View().Valid()
               && pool.View().Holds(fetchBuffers[s])
      modifies this, pool, store
      ensures View() == Recorded(old(View()), s, x)
      ensures store.log == old(store.log) && store.objects == old(store.objects)
    {
      var buffer := fetchBuffers[s];
      fetchBuffers := fetchBuffers - {s};
      views := views[s := memory.data[buffer]];
      pool.ReturnBuffer(buffer);
      stripeHashes := stripeHashes[s := x.content];
      if x.content.ZeroStripe? || x.content.hash in seenObjectKeys {
        return;
      }
      seenObjectKeys := seenObjectKeys + {x.content.hash};
      store.StartPutObject(x.content.hash, x.blob);
      inflightPuts := inflightPuts + 1;
    }

    /** A stripe has been read: its bytes are coded, unless they are all zero. */
    method StartUploadStripe(s: nat) returns (ok: bool)
      requires Ok() && (strayReads > 0 || (s !in device.asked && s !in source.asked))
      modifies this, pool, store
      ensures ok == Uploaded(job, old(View()), s).Some?
      ensures ok ==> Ok() && View() == Uploaded(job, old(View()), s).value
      ensures store.log == old(store.log) && store.objects == old(store.objects)
    {
      hide Inv, Encode, IsZeroStripe, Recorded;
      if s !in fetchBuffers {
        return false;
      }
      FetchingFacts(job, View(), s);
      if Uploaded(job, View(), s).Some? {
        UploadedInv(job, View(), s);
      }
      var data := memory.data[fetchBuffers[s]];
      if IsZeroStripe(data) {
        Record(s, Coded(ZeroStripe, []));
        return true;
      }
      var encoded := Encode(job.p, s, data);
      if encoded.None? {
        return false;
      }
      Record(s, Coded(Object(job.p.sha(encoded.value)), encoded.value));
      ok := true;
    }

    method DeliverOne(place: Place, c: (nat, bool))
      requires device.memory == source.memory == memory && device != source
      requires device.stripes == job.device && source.stripes == job.image
      modifies this, memory, device, source
      ensures View() == Delivered(job, old(View()), place, c)
      ensures fetchBuffers == old(fetchBuffers)
    {
      hide Read;
      var channel := if place == AtDevice then device else source;
      strayReads := strayReads + Miss(channel.asked, c.0);
      channel.Report(c);
    }

    /** What a channel has completed is in memory. */
    method Deliver(place: Place, done: seq<(nat, bool)>, ghost before: seq<(nat, bool)>)
      requires Ok() && Landed(View(), before)
      modifies this, memory, device, source
      ensures Ok() && View() == DeliveredAll(job, old(View()), place, done) && Landed(View(), before + done)
      ensures store.log == old(store.log)
    {
      hide Inv, JobOk, Landed, Delivered;
      DeliveredAllInv(job, View(), place, done, before);
      ghost var was := View();
      for i := 0 to |done|
        invariant Ok() && View() == DeliveredAll(job, was, place, done[..i])
        invariant unchanged(store) && unchanged(pool)
      {
        assert done[..i + 1][..i] == done[..i];
        DeliveredInv(job, View(), place, done[i]);
        DeliverOne(place, done[i]);
      }
      assert done[..|done|] == done;
    }

    method PollFetches(fromDevice: seq<(nat, bool)>, fromSource: seq<(nat, bool)>) returns (ok: bool)
      requires Ok()
      modifies Parts()
      ensures var r := Taken(job, old(View()), fromDevice, fromSource);
              ok == r.Some? && (ok ==> Ok() && View() == r.value)
      ensures store.log == old(store.log) && store.objects == old(store.objects)
    {
      hide Inv, Uploaded, Landed, JobOk, DeliveredAll;
      NothingLanded(View());
      Deliver(AtDevice, fromDevice, []);
      assert [] + fromDevice == fromDevice;
      Deliver(AtSource, fromSource, fromDevice);
      ok := UploadBatch(fromDevice + fromSource);
    }

    method UploadBatch(done: seq<(nat, bool)>) returns (ok: bool)
      requires Ok() && Landed(View(), done)
      modifies this, pool, store
      ensures ok == UploadedAll(job, old(View()), done).Some?
      ensures ok ==> Ok() && View() == UploadedAll(job, old(View()), done).value
      ensures store.log == old(store.log) && store.objects == old(store.objects)
    {
      hide Inv, Uploaded, Landed, JobOk;
      assert done[0..] == done;
      for i := 0 to |done|
        invariant Ok() && Landed(View(), done[i..]) && store.log == old(store.log)
                  && store.objects == old(store.objects)
        invariant UploadedAll(job, old(View()), done) == UploadedAll(job, View(), done[i..])
      {
        assert done[i..][1..] == done[i + 1..] && done[i..][0] == done[i];
        if !done[i].1 {
          return false;
        }
        LandedFirst(View(), done[i..]);
        if Uploaded(job, View(), done[i].0).Some? {
          UploadedLanded(job, View(), done[i..]);
        }
        var uploaded := StartUploadStripe(done[i].0);
        if !uploaded {
          return false;
        }
      }
      ok := true;
    }

    /** One result of the store: counted, whether or not the object was outstanding. */
    method FinishUpload(h: Hash, success: bool) returns (ok: bool)
      requires Ok()
      modifies this, store
      ensures ok == Acknowledged(old(View()), h, success).Some?
      ensures ok ==> Ok() && View() == Acknowledged(old(View()), h, success).value
    {
      hide Inv, JobOk;
      if !success || inflightPuts == 0 {
        return false;
      }
      AcknowledgedInv(job, View(), h, success);
      inflightPuts := inflightPuts - 1;
      if h in store.pending {
        store.FinishPut(h, true);
      } else {
        strayPuts := strayPuts + 1;
      }
      ok := true;
    }

    method PollUploads(results: seq<(Hash, bool)>) returns (ok: bool)
      requires Ok()
      modifies this, store
      ensures ok == AcknowledgedAll(job, old(View()), results).Some?
      ensures ok ==> Ok() && View() == AcknowledgedAll(job, old(View()), results).value
    {
      hide Inv, JobOk, Acknowledged;
      assert results[0..] == results;
      for i := 0 to |results|
        invariant Ok()
        invariant AcknowledgedAll(job, old(View()), results) == AcknowledgedAll(job, View(), results[i..])
      {
        assert results[i..][1..] == results[i + 1..] && results[i..][0] == results[i];
        var done := FinishUpload(results[i].0, results[i].1);
        if !done {
          return false;
        }
      }
      ok := true;
    }

    /** Polls reads, then uploads. */
    method Turn(tick: Tick) returns (ok: bool)
      requires Ok()
      modifies Parts()
      ensures ok == Turned(job, old(View()), tick).Some?
      ensures ok ==> Ok() && View() == Turned(job, old(View()), tick).value
    {
      hide Inv, JobOk, Taken, AcknowledgedAll;
      ok := PollFetches(tick.fromDevice, tick.fromSource);
      if ok {
        ok := PollUploads(tick.uploaded);
      }
    }

    /** Archives every stripe, waits until nothing is under way, then writes the manifest. Waiting is the
        outcome when the script of reports ends before that. */
    method ArchiveAll(script: seq<Tick>, metadataOk: bool, mappingOk: bool) returns (r: Outcome)
      requires Ok() && Reached(job, View(), 0)
      modifies Parts()
      ensures var ran := Run(job, old(View()), 0, script);
              && (r == Archived <==> ran.Done? && metadataOk && mappingOk)
              && (r == Waiting <==> ran.Stalled?)
              && (r == Archived ==> Ok() && View() == ran.st && Finished(job, View()) && ManifestWritten())
    {
      hide Inv, JobOk, Reached, ManifestWritten, Turned, Begun, Finished;
      ghost var start := Run(job, View(), 0, script);
      var next, i := 0, 0;
      ReachedBound(job, View(), 0);
      assert script[0..] == script;
      while next < |job.headers| && (i < |script| || !ShouldBeArchived(job, next))
        invariant Ok() && next <= |job.headers| && Reached(job, View(), next) && i <= |script|
        invariant Run(job, View(), next, script[i..]) == start
        decreases |script| - i, |job.headers| - next
      {
        JobSizes(job);
        if !ShouldBeArchived(job, next) {
          SkippedReached(job, View(), next);
          next := next + 1;
        } else {
          assert script[i..][0] == script[i] && script[i..][1..] == script[i + 1..];
          BegunInv(job, View(), next);
          var ok, started := MaybeStartNextStripe(next, script[i].startOk);
          if !ok {
            return Aborted;
          }
          if started {
            next := next + 1;
          }
          ghost var begun := View();
          ok := Turn(script[i]);
          if !ok {
            return Aborted;
          }
          TurnedReached(job, begun, script[i], next);
          i := i + 1;
        }
      }
      if next < |job.headers| {
        return Waiting;
      }
      r := Drain(script, i, metadataOk, mappingOk);
    }

    /** Everything was started: waits for what is under way, then writes the manifest. */
    method Drain(script: seq<Tick>, from: nat, metadataOk: bool, mappingOk: bool) returns (r: Outcome)
      requires Ok() && Reached(job, View(), |job.headers|) && from <= |script|
      modifies Parts()
      ensures var ran := Run(job, old(View()), |job.headers|, script[from..]);
              && (r == Archived <==> ran.Done? && metadataOk && mappingOk)
              && (r == Waiting <==> ran.Stalled?)
              && (r == Archived ==> Ok() && View() == ran.st && Finished(job, View()) && ManifestWritten())
    {
      hide Inv, JobOk, Reached, ManifestWritten, Turned, Begun;
      ghost var start := Run(job, View(), |job.headers|, script[from..]);
      var i := from;
      while (fetchBuffers != map[] || inflightPuts > 0) && i < |script|
        invariant Ok() && Reached(job, View(), |job.headers|) && from <= i <= |script|
        invariant Run(job, View(), |job.headers|, script[i..]) == start
      {
        assert script[i..][0] == script[i] && script[i..][1..] == script[i + 1..];
        ghost var before := View();
        var ok := Turn(script[i]);
        if !ok {
          return Aborted;
        }
        TurnedReached(job, before, script[i], |job.headers|);
        i := i + 1;
      }
      if fetchBuffers != map[] || inflightPuts > 0 {
        return Waiting;
      }
      var ok := PutManifest(metadataOk, mappingOk);
      r := if ok then Archived else Aborted;
    }

    /** The metadata, then the mapping; both are written only when nothing is waited for. */
    method PutManifest(metadataOk: bool, mappingOk: bool) returns (ok: bool)
      requires Ok() && Finished(job, View())
      modifies store`log
      ensures ok <==> metadataOk && mappingOk
      ensures Ok() && View() == old(View())
      ensures ok ==> ManifestWritten()
    {
      hide Inv, Serialize, Reached, Named, Tagged;
      ManifestComplete(job, View());
      var bytes := Serialize(tools.format, stripeHashes, hmacKey, job.p.cipher);
      store.PutObject(MetadataJson(tools.toJson(Tagged(tools, metadata, hmacKey))), metadataOk);
      if !metadataOk {
        return false;
      }
      store.PutObject(Mapping(bytes), mappingOk);
      ok := mappingOk;
    }

    /** The log of the store ends with the manifest; and every object it names comes before it, if the
        store has reported on outstanding puts only. */
    ghost predicate ManifestWritten()
      reads this, store
      requires JobOk(job) && Fits(metadata)
    {
      && |store.log| >= 2
      && store.log[|store.log| - 2] == MetadataJson(tools.toJson(Tagged(tools, metadata, hmacKey)))
      && store.log[|store.log| - 1] == Mapping(Serialize(tools.format, stripeHashes, hmacKey, job.p.cipher))
      && (strayPuts == 0 ==> forall s | s in stripeHashes && stripeHashes[s].Object? ::
            DataObject(stripeHashes[s].hash) in store.log[..|store.log| - 2])
    }
  }

  /** Buffers of zeros. */
  function Blank(n: nat, size: nat): (m: map<nat, seq<byte>>)
    ensures forall b: nat | b < n :: b in m && |m[b]| == size
  {
    if n == 0 then map[] else Blank(n - 1, size)[n - 1 := Zeros(size)]
  }

  lemma PoolValid(job: Job, st: State)
    requires JobOk(job) && Inv(job, st)
    ensures st.pool.Valid()
  {
  }
}
