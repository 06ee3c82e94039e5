/** Archiving the stripes of a device into a content-addressed object store: the steps of the
    archiver and what they keep. */
module Archive {
  import opened BufferPool
  import opened Codec
  import opened Xts
  import opened Metadata
  import opened StripeMapping

  /** How stripes become objects: compression, encryption by place, naming by hash. */
  datatype Params = Params(compression: Compression, cipher: Option<Cipher>, stripeSectors: nat, sha: seq<byte> -> Hash)

  ghost predicate Sane(p: Params) {
    && (p.compression.Zstd? ==> Lossless(p.compression.zip))
    && (p.cipher.Some? ==> Lawful(p.cipher.value))
  }

  function StripeBytes(p: Params): nat {
    p.stripeSectors * SECTOR_SIZE
  }

  function Encode(p: Params, s: nat, data: seq<byte>): Option<seq<byte>>
    requires |data| % SECTOR_SIZE == 0 && Sane(p)
  {
    match Compress(p.compression, data)
    case None => None
    case Some(x) =>
      CompressionRoundTrip(p.compression, data);
      Some(MaybeEncrypt(p.cipher, x, s * p.stripeSectors))
  }

  /** What a reader makes of an object fetched for stripe s, in a buffer of the given size. */
  function Decode(p: Params, s: nat, blob: seq<byte>, size: nat): Option<seq<byte>>
    requires Sane(p)
  {
    if p.cipher.Some? && |blob| % SECTOR_SIZE != 0 then None
    else
      var plain := if p.cipher.None? then blob else MaybeDecrypt(p.cipher, blob, s * p.stripeSectors);
      match Decompress(p.compression, plain)
      case None => None
      case Some(data) => if |data| > size then None else Some(data + Zeros(size - |data|))
  }

  lemma StripeRoundTrip(p: Params, s: nat, data: seq<byte>)
    requires Sane(p) && |data| % SECTOR_SIZE == 0 && Encode(p, s, data).Some?
    ensures Decode(p, s, Encode(p, s, data).value, |data|) == Some(data)
  {
    CompressionRoundTrip(p.compression, data);
    MaybeCryptRoundTrip(p.cipher, Compress(p.compression, data).value, s * p.stripeSectors);
    assert data + Zeros(0) == data;
  }

  predicate IsZeroStripe(data: seq<byte>) {
    forall i :: 0 <= i < |data| ==> data[i] == 0
  }

  // ----- the job -----

  /** What is archived: headers, and the stripes as the device and as the source hold them. The source
      may end inside a stripe, and before others. */
  datatype Job = Job(p: Params, headers: seq<Header>, device: seq<seq<byte>>, image: seq<seq<byte>>)

  ghost predicate JobOk(job: Job) {
    && Sane(job.p)
    && Sizes(job)
    && (forall s: nat | s < |job.headers| :: |job.image[s]| <= |job.device[s]| == StripeBytes(job.p))
  }

  predicate Sizes(job: Job) {
    |job.headers| == |job.device| == |job.image|
  }

  predicate ShouldBeArchived(job: Job, s: nat)
    requires s < |job.headers|
  {
    job.headers[s].written || job.headers[s].hasSource
  }

  datatype Place = AtDevice | AtSource

  /** Where a stripe is read: the device if it was written or fetched, else the source. */
  function PlaceOf(job: Job, s: nat): Place
    requires s < |job.headers|
  {
    if job.headers[s].written || job.headers[s].fetched then AtDevice else AtSource
  }

  function At(job: Job, place: Place): seq<seq<byte>> {
    if place == AtDevice then job.device else job.image
  }

  /** The archiver's view of a stripe. */
  function ViewOf(job: Job, s: nat): seq<byte>
    requires s < |job.headers| && Sizes(job)
  {
    At(job, PlaceOf(job, s))[s]
  }

  /** The source cannot be asked for a stripe behind its end. */
  predicate Beyond(job: Job, s: nat)
    requires s < |job.headers| && Sizes(job)
  {
    PlaceOf(job, s) == AtSource && job.image[s] == []
  }

  // ----- the state and its steps -----

  /** fetching: stripes being read, with their buffer; mem: the buffers; atDevice, atSource: the reads
      outstanding there, with the buffer to be filled; views: what was in the buffer of each stripe when
      it was recorded; pending and objects: data objects handed to the store, and acknowledged by it;
      puts: how many were handed over. strayReads and strayPuts: how often a channel or the store has
      reported on something that was not outstanding there. */
  datatype State = State(
    fetching: map<nat, nat>,
    pool: Pool,
    mem: map<nat, seq<byte>>,
    atDevice: map<nat, nat>,
    atSource: map<nat, nat>,
    views: map<nat, seq<byte>>,
    strayReads: nat,
    seen: set<Hash>,
    hashes: map<nat, Content>,
    pending: map<Hash, seq<byte>>,
    objects: map<Hash, seq<byte>>,
    inflight: nat,
    puts: nat,
    strayPuts: nat)

  function NewState(concurrency: nat, mem: map<nat, seq<byte>>): State {
    State(map[], NewPool(concurrency), mem, map[], map[], map[], 0, {}, map[], map[], map[], 0, 0, 0)
  }

  /** A buffer is taken and the stripe is read into it, where the header says it is. */
  function Started(job: Job, st: State, s: nat): State
    requires s < |job.headers| && st.pool.available != [] && st.pool.available[0] < |st.pool.inUse|
  {
    var b := st.pool.available[0];
    st.(fetching := st.fetching[s := b], pool := st.pool.Take(),
        atDevice := if PlaceOf(job, s) == AtDevice then st.atDevice[s := b] else st.atDevice,
        atSource := if PlaceOf(job, s) == AtSource then st.atSource[s := b] else st.atSource)
  }

  /** Reading fills the front of the buffer; the rest keeps what it held. */
  function Filled(buf: seq<byte>, data: seq<byte>): (r: seq<byte>)
    ensures |r| == |buf| && (|data| <= |buf| ==> data <= r)
  {
    if |data| <= |buf| then data + buf[|data|..] else buf
  }

  /** The buffers after a channel has reported a read. */
  function Read(mem: map<nat, seq<byte>>, asked: map<nat, nat>, stripes: seq<seq<byte>>,
                c: (nat, bool)): map<nat, seq<byte>> {
    if c.1 && c.0 in asked && asked[c.0] in mem && c.0 < |stripes|
    then mem[asked[c.0] := Filled(mem[asked[c.0]], stripes[c.0])] else mem
  }

  /** The reads outstanding at a place. */
  function AskedAt(st: State, place: Place): map<nat, nat> {
    if place == AtDevice then st.atDevice else st.atSource
  }

  /** A channel reports a read: the data is in its buffer, if it was outstanding there. A failed read
      ends the archiving, so that its buffer does not matter. */
  function Delivered(job: Job, st: State, place: Place, c: (nat, bool)): State {
    var asked := AskedAt(st, place);
    st.(atDevice := if place == AtDevice && c.1 then st.atDevice - {c.0} else st.atDevice,
        atSource := if place == AtSource && c.1 then st.atSource - {c.0} else st.atSource,
        mem := Read(st.mem, asked, At(job, place), c),
        strayReads := st.strayReads + Miss(asked, c.0))
  }

  function Miss(asked: map<nat, nat>, s: nat): nat {
    if s in asked then 0 else 1
  }

  /** A put reported by the store; anything but an expected success ends the archiving. */
  function Acknowledged(st: State, h: Hash, ok: bool): Option<State> {
    if !ok || st.inflight == 0 then None
    else if h in st.pending then
      Some(st.(inflight := st.inflight - 1, pending := st.pending - {h}, objects := st.objects[h := st.pending[h]]))
    else Some(st.(inflight := st.inflight - 1, strayPuts := st.strayPuts + 1))
  }

  // ----- what every step keeps -----

  function Named(hashes: map<nat, Content>): set<Hash> {
    set s | s in hashes && hashes[s].Object? :: hashes[s].hash
  }

  /** Every object is stored, or on its way, under the hash of its contents. */
  ghost predicate StoreOk(p: Params, pending: map<Hash, seq<byte>>, objects: map<Hash, seq<byte>>, seen: set<Hash>) {
    && (forall h | h in pending :: h !in objects)
    && (forall h :: h in seen <==> h in pending || h in objects)
    && (forall h | h in pending :: p.sha(pending[h]) == h)
    && (forall h | h in objects :: p.sha(objects[h]) == h)
  }

  /** What the manifest says of a stripe is what was in its buffer. */
  ghost predicate RecordOk(p: Params, s: nat, data: seq<byte>, content: Content)
    requires Sane(p)
  {
    && |data| == StripeBytes(p)
    && match content
       case ZeroStripe => IsZeroStripe(data)
       case Object(h) => !IsZeroStripe(data) && Encode(p, s, data).Some? && h == p.sha(Encode(p, s, data).value)
  }

  ghost predicate RecordsOk(job: Job, hashes: map<nat, Content>, views: map<nat, seq<byte>>)
    requires JobOk(job)
  {
    && (forall s :: s in hashes <==> s in views)
    && forall s | s in hashes && s in views ::
         s < |job.headers| && ShouldBeArchived(job, s) && RecordOk(job.p, s, views[s], hashes[s])
  }

  /** The object for these bytes at this stripe. */
  predicate IsBlobOf(p: Params, s: nat, data: seq<byte>, blob: seq<byte>)
    requires Sane(p)
  {
    |data| == StripeBytes(p) && !IsZeroStripe(data) && Encode(p, s, data) == Some(blob)
  }

  /** Every object was made from a recorded stripe. */
  ghost predicate BlobsFrom(p: Params, blobs: map<Hash, seq<byte>>, views: map<nat, seq<byte>>)
    requires Sane(p)
  {
    forall h | h in blobs :: exists s :: s in views && IsBlobOf(p, s, views[s], blobs[h])
  }

  /** Every buffer of the pool has the size of a stripe. */
  ghost predicate MemOk(job: Job, pool: Pool, mem: map<nat, seq<byte>>) {
    forall b: nat | b < |pool.inUse| :: b in mem && |mem[b]| == StripeBytes(job.p)
  }

  /** Reads go where the stripe is, into its buffer. */
  ghost predicate AskedOk(job: Job, fetching: map<nat, nat>, asked: map<nat, nat>, place: Place) {
    forall s | s in asked :: s < |job.headers| && PlaceOf(job, s) == place && s in fetching && fetching[s] == asked[s]
  }

  /** A stripe that is not being read any more is in its buffer. */
  ghost predicate LandedOk(job: Job, fetching: map<nat, nat>, mem: map<nat, seq<byte>>, dev: map<nat, nat>,
                           src: map<nat, nat>)
    requires Sizes(job)
  {
    forall s | s in fetching && s !in dev && s !in src ::
      s < |job.headers| && fetching[s] in mem && ViewOf(job, s) <= mem[fetching[s]]
  }

  /** What was recorded is the stripe. */
  ghost predicate ViewsOk(job: Job, views: map<nat, seq<byte>>)
    requires Sizes(job)
  {
    forall s | s in views :: s < |job.headers| && ViewOf(job, s) <= views[s]
  }

  ghost predicate ReadsOk(job: Job, st: State)
    requires Sizes(job)
  {
    && AskedOk(job, st.fetching, st.atDevice, AtDevice) && AskedOk(job, st.fetching, st.atSource, AtSource)
    && LandedOk(job, st.fetching, st.mem, st.atDevice, st.atSource)
    && ViewsOk(job, st.views)
  }

  /** What was handed over is what the records name, each once; every put is waited for or was misreported. */
  ghost predicate Counted(st: State) {
    && st.seen == Named(st.hashes) && st.puts == |st.seen|
    && st.inflight + st.strayPuts == |st.pending|
  }

  lemma SameCounted(a: State, b: State)
    requires Counted(a) && a.seen == b.seen && a.hashes == b.hashes && a.puts == b.puts && a.pending == b.pending
    requires a.inflight == b.inflight && a.strayPuts == b.strayPuts
    ensures Counted(b)
  {
  }

  ghost predicate Inv(job: Job, st: State)
    requires JobOk(job)
  {
    && st.pool.Valid() && BuffersValid(st.fetching, st.pool) && MemOk(job, st.pool, st.mem)
    && StoreOk(job.p, st.pending, st.objects, st.seen)
    && Counted(st)
    && FetchingOk(job, st.fetching, st.hashes)
    && RecordsOk(job, st.hashes, st.views)
    && BlobsFrom(job.p, st.pending, st.views) && BlobsFrom(job.p, st.objects, st.views)
    && (st.strayReads == 0 ==> ReadsOk(job, st))
  }

  /** Every stripe below next that is to be archived has been started. */
  ghost predicate Reached(job: Job, st: State, next: nat) {
    && next <= |job.headers|
    && (forall s: nat | s < next && ShouldBeArchived(job, s) :: s in st.fetching || s in st.hashes)
    && (forall s | s in st.fetching || s in st.hashes :: s < next)
  }

  lemma NewInv(job: Job, concurrency: nat, mem: map<nat, seq<byte>>)
    requires JobOk(job) && forall b: nat | b < concurrency :: b in mem && |mem[b]| == StripeBytes(job.p)
    ensures Inv(job, NewState(concurrency, mem)) && Reached(job, NewState(concurrency, mem), 0)
  {
    var st := NewState(concurrency, mem);
    assert Named(st.hashes) == {};
  }

  lemma FetchingFacts(job: Job, st: State, s: nat)
    requires JobOk(job) && Inv(job, st) && s in st.fetching
    ensures s < |job.headers| && st.pool.Valid() && st.pool.Holds(st.fetching[s]) && ShouldBeArchived(job, s)
    ensures st.fetching[s] in st.mem && |st.mem[st.fetching[s]]| == StripeBytes(job.p) && s !in st.hashes
            && s !in st.views
  {
    hide ReadsOk, StoreOk, Named, RecordOk, BlobsFrom;
  }

  // ----- starting a stripe -----

  lemma AskedMore(job: Job, fetching: map<nat, nat>, asked: map<nat, nat>, place: Place, s: nat, b: nat)
    requires AskedOk(job, fetching, asked, place) && s !in fetching
    ensures AskedOk(job, fetching[s := b], asked, place)
    ensures s < |job.headers| && PlaceOf(job, s) == place ==> AskedOk(job, fetching[s := b], asked[s := b], place)
  {
    hide PlaceOf;
  }

  lemma LandedStarted(job: Job, fetching: map<nat, nat>, mem: map<nat, seq<byte>>, dev: map<nat, nat>,
                      src: map<nat, nat>, s: nat, b: nat)
    requires Sizes(job) && LandedOk(job, fetching, mem, dev, src)
    ensures LandedOk(job, fetching[s := b], mem, dev[s := b], src)
            && LandedOk(job, fetching[s := b], mem, dev, src[s := b])
  {
    hide ViewOf;
  }

  lemma StartedReads(job: Job, st: State, s: nat)
    requires Sizes(job) && ReadsOk(job, st)
    requires s < |job.headers| && s !in st.fetching && st.pool.available != [] && st.pool.available[0] < |st.pool.inUse|
    ensures ReadsOk(job, Started(job, st, s))
  {
    hide PlaceOf, AskedOk, LandedOk, ViewsOk;
    var b := st.pool.available[0];
    AskedMore(job, st.fetching, st.atDevice, AtDevice, s, b);
    AskedMore(job, st.fetching, st.atSource, AtSource, s, b);
    LandedStarted(job, st.fetching, st.mem, st.atDevice, st.atSource, s, b);
  }

  lemma StartedReached(job: Job, st: State, s: nat)
    requires Reached(job, st, s) && s < |job.headers|
    requires st.pool.available != [] && st.pool.available[0] < |st.pool.inUse|
    ensures Reached(job, Started(job, st, s), s + 1) && s !in st.fetching && s !in st.hashes
  {
    hide PlaceOf;
  }

  lemma StartedPool(job: Job, st: State, s: nat)
    requires st.pool.Valid() && BuffersValid(st.fetching, st.pool) && MemOk(job, st.pool, st.mem)
    requires s !in st.fetching && st.pool.available != []
    ensures st.pool.available[0] < |st.pool.inUse|
    ensures var pool := st.pool.Take();
            pool.Valid() && BuffersValid(st.fetching[s := st.pool.available[0]], pool) && MemOk(job, pool, st.mem)
  {
    hide BuffersValid;
    TakeBuffer(st.fetching, st.pool, s);
  }

  ghost predicate FetchingOk(job: Job, fetching: map<nat, nat>, hashes: map<nat, Content>) {
    forall s | s in fetching :: s < |job.headers| && ShouldBeArchived(job, s) && s !in hashes
  }

  lemma StartedFields(job: Job, st: State, s: nat)
    requires s < |job.headers| && st.pool.available != [] && st.pool.available[0] < |st.pool.inUse|
    ensures var next := Started(job, st, s);
            && next.fetching == st.fetching[s := st.pool.available[0]] && next.pool == st.pool.Take()
            && next.mem == st.mem
            && next.views == st.views && next.strayReads == st.strayReads && next.hashes == st.hashes
            && next.pending == st.pending && next.objects == st.objects && next.seen == st.seen
            && next.inflight == st.inflight && next.puts == st.puts && next.strayPuts == st.strayPuts
  {
    hide PlaceOf;
  }

  lemma StartedKeeps(job: Job, st: State, s: nat)
    requires JobOk(job) && Inv(job, st) && s < |job.headers| && ShouldBeArchived(job, s)
    requires s !in st.fetching && s !in st.hashes && st.pool.available != []
    ensures st.pool.available[0] < |st.pool.inUse|
    ensures Inv(job, Started(job, st, s))
  {
    hide StoreOk, RecordsOk, Counted, BuffersValid, MemOk, ReadsOk, PlaceOf, JobOk, FetchingOk, Started, BlobsFrom;
    JobSizes(job);
    StartedPool(job, st, s);
    FetchingMore(job, st.fetching, st.hashes, s, st.pool.available[0]);
    StartedFields(job, st, s);
    SameCounted(st, Started(job, st, s));
    if st.strayReads == 0 {
      StartedReads(job, st, s);
    }
  }

  lemma StartedInv(job: Job, st: State, s: nat)
    requires JobOk(job) && Inv(job, st) && Reached(job, st, s) && s < |job.headers| && ShouldBeArchived(job, s)
    requires st.pool.available != []
    ensures st.pool.available[0] < |st.pool.inUse|
    ensures Inv(job, Started(job, st, s)) && Reached(job, Started(job, st, s), s + 1)
  {
    hide Inv, Started, Reached, JobOk;
    StartedUnknown(job, st, s);
    StartedKeeps(job, st, s);
    StartedReached(job, st, s);
  }

  lemma JobSizes(job: Job)
    requires JobOk(job)
    ensures Sizes(job)
  {
  }

  lemma JobSane(job: Job)
    requires JobOk(job)
    ensures Sane(job.p)
  {
  }

  lemma FetchingMore(job: Job, fetching: map<nat, nat>, hashes: map<nat, Content>, s: nat, b: nat)
    requires FetchingOk(job, fetching, hashes) && s < |job.headers| && ShouldBeArchived(job, s) && s !in hashes
    ensures FetchingOk(job, fetching[s := b], hashes)
  {
  }

  lemma StartedUnknown(job: Job, st: State, s: nat)
    requires Reached(job, st, s)
    ensures s !in st.fetching && s !in st.hashes
  {
  }

  // ----- a read reported -----

  /** Filling the buffer of one stripe leaves the others alone, and the stripe is in its buffer. */
  lemma LandedMore(job: Job, fetching: map<nat, nat>, pool: Pool, mem: map<nat, seq<byte>>,
                   dev: map<nat, nat>, src: map<nat, nat>, s: nat, mem': map<nat, seq<byte>>)
    requires Sizes(job) && LandedOk(job, fetching, mem, dev, src) && BuffersValid(fetching, pool)
    requires s in fetching && s < |job.headers| && fetching[s] in mem && |ViewOf(job, s)| <= |mem[fetching[s]]|
    requires mem' == mem[fetching[s] := Filled(mem[fetching[s]], ViewOf(job, s))]
    ensures LandedOk(job, fetching, mem', dev - {s}, src - {s})
  {
    hide Filled, ViewOf;
    forall t | t in fetching && t !in dev - {s} && t !in src - {s}
      ensures t < |job.headers| && fetching[t] in mem' && ViewOf(job, t) <= mem'[fetching[t]]
    {
      if t != s {
        assert fetching[t] != fetching[s];
      }
    }
  }

  lemma AskedLess(job: Job, fetching: map<nat, nat>, asked: map<nat, nat>, place: Place, s: nat)
    requires AskedOk(job, fetching, asked, place)
    ensures AskedOk(job, fetching, asked - {s}, place)
    ensures s < |job.headers| && PlaceOf(job, s) != place ==> asked - {s} == asked
  {
  }

  lemma DeliveredReads(job: Job, st: State, place: Place, c: (nat, bool))
    requires JobOk(job) && Inv(job, st) && st.strayReads == 0 && c.1 && Delivered(job, st, place, c).strayReads == 0
    ensures ReadsOk(job, Delivered(job, st, place, c))
  {
    hide StoreOk, RecordsOk, Named, BuffersValid, LandedOk, ViewsOk, Filled, Sane, MemOk, BlobsFrom;
    var s := c.0;
    assert s in st.fetching && s < |job.headers| && PlaceOf(job, s) == place;
    FetchingFacts(job, st, s);
    AskedLess(job, st.fetching, st.atDevice, AtDevice, s);
    AskedLess(job, st.fetching, st.atSource, AtSource, s);
    hide AskedOk;
    LandedMore(job, st.fetching, st.pool, st.mem, st.atDevice, st.atSource, s, Delivered(job, st, place, c).mem);
  }

  lemma ReadSizes(job: Job, pool: Pool, mem: map<nat, seq<byte>>, asked: map<nat, nat>, stripes: seq<seq<byte>>,
                  c: (nat, bool))
    requires MemOk(job, pool, mem)
    ensures MemOk(job, pool, Read(mem, asked, stripes, c))
  {
    hide Filled;
  }

  /** Whatever a channel reports. */
  lemma DeliveredInv(job: Job, st: State, place: Place, c: (nat, bool))
    requires JobOk(job) && Inv(job, st)
    ensures Inv(job, Delivered(job, st, place, c))
  {
    hide StoreOk, RecordsOk, Counted, BuffersValid, JobOk, AskedOk, LandedOk, ViewsOk, FetchingOk, MemOk, Filled;
    hide BlobsFrom;
    SameCounted(st, Delivered(job, st, place, c));
    ReadSizes(job, st.pool, st.mem, AskedAt(st, place), At(job, place), c);
    if c.1 && Delivered(job, st, place, c).strayReads == 0 {
      DeliveredReads(job, st, place, c);
    }
  }

  // ----- recording a stripe -----

  datatype Coded = Coded(content: Content, blob: seq<byte>)

  /** What becomes of a stripe: nothing but a record if it is zero, else an object named by its hash. */
  function CodeStripe(p: Params, s: nat, data: seq<byte>): Option<Coded>
    requires Sane(p) && |data| == StripeBytes(p)
  {
    if IsZeroStripe(data) then Some(Coded(ZeroStripe, []))
    else match Encode(p, s, data)
      case None => None
      case Some(blob) => Some(Coded(Object(p.sha(blob)), blob))
  }

  function Recorded(st: State, s: nat, x: Coded): State
    requires s in st.fetching && st.fetching[s] in st.mem && st.pool.Holds(st.fetching[s])
  {
    var unseen := x.content.Object? && x.content.hash !in st.seen;
    st.(fetching := st.fetching - {s}, pool := st.pool.Give(st.fetching[s]), hashes := st.hashes[s := x.content],
        views := st.views[s := st.mem[st.fetching[s]]],
        seen := if unseen then st.seen + {x.content.hash} else st.seen,
        pending := if unseen then st.pending[x.content.hash := x.blob] else st.pending,
        inflight := if unseen then st.inflight + 1 else st.inflight,
        puts := if unseen then st.puts + 1 else st.puts)
  }

  /** A stripe has been read: it is recorded as zero, or as an object, which is handed to the store
      unless an object of the same name was. None is an error, which ends the archiving. */
  function Uploaded(job: Job, st: State, s: nat): Option<State>
    requires JobOk(job) && Inv(job, st)
  {
    if s !in st.fetching then None
    else
      FetchingFacts(job, st, s);
      match CodeStripe(job.p, s, st.mem[st.fetching[s]])
      case None => None
      case Some(x) => Some(Recorded(st, s, x))
  }

  lemma NamedMore(hashes: map<nat, Content>, s: nat, content: Content)
    requires s !in hashes
    ensures Named(hashes[s := content])
            == if content.ZeroStripe? || content.hash in Named(hashes)
               then Named(hashes) else Named(hashes) + {content.hash}
  {
    var more := hashes[s := content];
    forall h | h in Named(hashes) ensures h in Named(more) {
      var t :| t in hashes && hashes[t].Object? && hashes[t].hash == h;
      assert t in more && more[t] == hashes[t];
    }
    assert content.Object? ==> more[s] == content;
  }

  lemma MapGrows<K, V>(m: map<K, V>, k: K, v: V)
    requires k !in m
    ensures |m[k := v]| == |m| + 1
  {
  }

  lemma MapShrinks<K, V>(m: map<K, V>, k: K)
    requires k in m
    ensures |m - {k}| == |m| - 1
  {
    assert m == (m - {k})[k := m[k]];
  }

  lemma StorePut(p: Params, pending: map<Hash, seq<byte>>, objects: map<Hash, seq<byte>>, seen: set<Hash>, h: Hash,
                 blob: seq<byte>)
    requires StoreOk(p, pending, objects, seen) && h !in seen && p.sha(blob) == h
    ensures StoreOk(p, pending[h := blob], objects, seen + {h})
    ensures |pending[h := blob]| == |pending| + 1 && |seen + {h}| == |seen| + 1
  {
    MapGrows(pending, h, blob);
  }

  lemma StoreAck(p: Params, pending: map<Hash, seq<byte>>, objects: map<Hash, seq<byte>>, seen: set<Hash>, h: Hash)
    requires StoreOk(p, pending, objects, seen) && h in pending
    ensures StoreOk(p, pending - {h}, objects[h := pending[h]], seen)
    ensures |pending - {h}| == |pending| - 1
  {
    MapShrinks(pending, h);
  }

  lemma CodedOk(p: Params, s: nat, data: seq<byte>)
    requires Sane(p) && |data| == StripeBytes(p) && CodeStripe(p, s, data).Some?
    ensures var x := CodeStripe(p, s, data).value;
            && RecordOk(p, s, data, x.content)
            && (x.content.Object? ==> p.sha(x.blob) == x.content.hash && IsBlobOf(p, s, data, x.blob))
  {
    hide Encode, IsZeroStripe;
  }

  lemma BlobsMore(p: Params, blobs: map<Hash, seq<byte>>, views: map<nat, seq<byte>>, s: nat, data: seq<byte>, h: Hash,
                  blob: seq<byte>)
    requires Sane(p) && BlobsFrom(p, blobs, views) && s !in views
    ensures BlobsFrom(p, blobs, views[s := data])
    ensures IsBlobOf(p, s, data, blob) ==> BlobsFrom(p, blobs[h := blob], views[s := data])
  {
    hide IsBlobOf;
    var more := views[s := data];
    forall g | g in blobs ensures exists t :: t in more && IsBlobOf(p, t, more[t], blobs[g]) {
      var t :| t in views && IsBlobOf(p, t, views[t], blobs[g]);
      assert t in more && more[t] == views[t];
    }
    assert s in more && more[s] == data;
  }

  lemma BlobsAck(p: Params, pending: map<Hash, seq<byte>>, objects: map<Hash, seq<byte>>, views: map<nat, seq<byte>>,
                 h: Hash)
    requires Sane(p) && BlobsFrom(p, pending, views) && BlobsFrom(p, objects, views) && h in pending
    ensures BlobsFrom(p, pending - {h}, views) && BlobsFrom(p, objects[h := pending[h]], views)
  {
    hide IsBlobOf;
  }

  lemma AskedWithout(job: Job, fetching: map<nat, nat>, asked: map<nat, nat>, place: Place, s: nat)
    requires AskedOk(job, fetching, asked, place) && s !in asked
    ensures AskedOk(job, fetching - {s}, asked, place)
  {
    hide PlaceOf;
  }

  lemma LandedRecorded(job: Job, st: State, s: nat)
    requires Sizes(job) && LandedOk(job, st.fetching, st.mem, st.atDevice, st.atSource) && ViewsOk(job, st.views)
    requires s in st.fetching && st.fetching[s] in st.mem && s !in st.atDevice && s !in st.atSource
    ensures LandedOk(job, st.fetching - {s}, st.mem, st.atDevice, st.atSource)
    ensures ViewsOk(job, st.views[s := st.mem[st.fetching[s]]])
  {
    hide ViewOf;
  }

  lemma RecordedReads(job: Job, st: State, s: nat, x: Coded)
    requires Sizes(job) && ReadsOk(job, st) && s in st.fetching && st.fetching[s] in st.mem
             && st.pool.Holds(st.fetching[s])
    requires s !in st.atDevice && s !in st.atSource
    ensures ReadsOk(job, Recorded(st, s, x))
  {
    hide AskedOk, LandedOk, ViewsOk;
    AskedWithout(job, st.fetching, st.atDevice, AtDevice, s);
    AskedWithout(job, st.fetching, st.atSource, AtSource, s);
    LandedRecorded(job, st, s);
  }

  lemma RecordsMore(job: Job, hashes: map<nat, Content>, views: map<nat, seq<byte>>, s: nat, content: Content,
                    data: seq<byte>)
    requires JobOk(job) && RecordsOk(job, hashes, views) && s < |job.headers| && ShouldBeArchived(job, s)
    requires RecordOk(job.p, s, data, content)
    ensures RecordsOk(job, hashes[s := content], views[s := data])
  {
    hide RecordOk, JobOk;
  }

  lemma RecordedCounted(p: Params, st: State, s: nat, x: Coded)
    requires StoreOk(p, st.pending, st.objects, st.seen) && Counted(st) && s !in st.hashes
    requires s in st.fetching && st.fetching[s] in st.mem && st.pool.Holds(st.fetching[s])
    requires x.content.Object? ==> p.sha(x.blob) == x.content.hash
    ensures var next := Recorded(st, s, x); StoreOk(p, next.pending, next.objects, next.seen) && Counted(next)
  {
    hide StoreOk, Named;
    NamedMore(st.hashes, s, x.content);
    if x.content.Object? && x.content.hash !in st.seen {
      StorePut(p, st.pending, st.objects, st.seen, x.content.hash, x.blob);
    }
  }

  lemma FetchingLess(job: Job, fetching: map<nat, nat>, hashes: map<nat, Content>, s: nat, content: Content)
    requires FetchingOk(job, fetching, hashes)
    ensures FetchingOk(job, fetching - {s}, hashes[s := content])
  {
  }

  lemma RecordedBlobs(job: Job, st: State, s: nat, x: Coded)
    requires JobOk(job) && s in st.fetching && st.fetching[s] in st.mem && st.pool.Holds(st.fetching[s])
    requires BlobsFrom(job.p, st.pending, st.views) && BlobsFrom(job.p, st.objects, st.views) && s !in st.views
    requires x.content.Object? ==> IsBlobOf(job.p, s, st.mem[st.fetching[s]], x.blob)
    ensures var next := Recorded(st, s, x);
            BlobsFrom(job.p, next.pending, next.views) && BlobsFrom(job.p, next.objects, next.views)
  {
    hide BlobsFrom, IsBlobOf;
    var data := st.mem[st.fetching[s]];
    BlobsMore(job.p, st.objects, st.views, s, data, [], []);
    BlobsMore(job.p, st.pending, st.views, s, data, if x.content.Object? then x.content.hash else [], x.blob);
  }

  lemma RecordedInv(job: Job, st: State, s: nat, x: Coded)
    requires JobOk(job) && Inv(job, st) && s in st.fetching && st.fetching[s] in st.mem && st.pool.Holds(st.fetching[s])
    requires RecordOk(job.p, s, st.mem[st.fetching[s]], x.content)
    requires x.content.Object? ==>
               job.p.sha(x.blob) == x.content.hash && IsBlobOf(job.p, s, st.mem[st.fetching[s]], x.blob)
    requires st.strayReads > 0 || (s !in st.atDevice && s !in st.atSource)
    ensures Inv(job, Recorded(st, s, x))
  {
    hide BuffersValid, RecordOk, RecordsOk, Counted, StoreOk, JobOk, ReadsOk, FetchingOk, BlobsFrom, IsBlobOf;
    JobSizes(job);
    FetchingFacts(job, st, s);
    GiveBuffer(st.fetching, st.pool, s);
    RecordedBlobs(job, st, s, x);
    RecordsMore(job, st.hashes, st.views, s, x.content, st.mem[st.fetching[s]]);
    RecordedCounted(job.p, st, s, x);
    FetchingLess(job, st.fetching, st.hashes, s, x.content);
    if st.strayReads == 0 {
      RecordedReads(job, st, s, x);
    }
  }

  lemma UploadedInv(job: Job, st: State, s: nat)
    requires JobOk(job) && Inv(job, st) && Uploaded(job, st, s).Some?
    requires st.strayReads > 0 || (s !in st.atDevice && s !in st.atSource)
    ensures Inv(job, Uploaded(job, st, s).value)
  {
    hide Inv, CodeStripe, RecordOk, Recorded, IsBlobOf;
    FetchingFacts(job, st, s);
    CodedOk(job.p, s, st.mem[st.fetching[s]]);
    RecordedInv(job, st, s, CodeStripe(job.p, s, st.mem[st.fetching[s]]).value);
  }

  lemma AcknowledgedInv(job: Job, st: State, h: Hash, ok: bool)
    requires JobOk(job) && Inv(job, st) && Acknowledged(st, h, ok).Some?
    ensures Inv(job, Acknowledged(st, h, ok).value)
  {
    hide BuffersValid, RecordsOk, Named, StoreOk, JobOk, AskedOk, LandedOk, ViewsOk, MemOk, BlobsFrom;
    if h in st.pending {
      JobSane(job);
      BlobsAck(job.p, st.pending, st.objects, st.views, h);
      StoreAck(job.p, st.pending, st.objects, st.seen, h);
    }
  }

  lemma ReachedBound(job: Job, st: State, next: nat)
    requires Reached(job, st, next)
    ensures next <= |job.headers|
  {
  }

  lemma SkippedReached(job: Job, st: State, next: nat)
    requires Reached(job, st, next) && next < |job.headers| && !ShouldBeArchived(job, next)
    ensures Reached(job, st, next + 1)
  {
  }

  lemma UploadedReached(job: Job, st: State, s: nat, next: nat)
    requires JobOk(job) && Inv(job, st) && Uploaded(job, st, s).Some? && Reached(job, st, next)
    ensures Reached(job, Uploaded(job, st, s).value, next)
  {
    hide Inv, CodeStripe, ShouldBeArchived;
  }

  // ----- batches -----

  /** The reports of one channel; the data of a failed read is not looked at. */
  function DeliveredAll(job: Job, st: State, place: Place, done: seq<(nat, bool)>): (r: State)
    ensures r.fetching == st.fetching && r.hashes == st.hashes
    decreases |done|
  {
    if done == [] then st else Delivered(job, DeliveredAll(job, st, place, done[..|done| - 1]), place, done[|done| - 1])
  }

  /** No completed read of the batch is still outstanding, unless a channel has misreported. */
  predicate Landed(st: State, done: seq<(nat, bool)>) {
    st.strayReads == 0 ==> forall c | c in done && c.1 :: c.0 !in st.atDevice && c.0 !in st.atSource
  }

  lemma DeliveredLands(job: Job, st: State, place: Place, c: (nat, bool), before: seq<(nat, bool)>)
    requires JobOk(job) && Inv(job, st) && Landed(st, before)
    ensures Landed(Delivered(job, st, place, c), before + [c])
  {
    hide StoreOk, RecordsOk, Named, BuffersValid, MemOk, JobOk, LandedOk, ViewsOk, Read;
    var next := Delivered(job, st, place, c);
    if next.strayReads == 0 {
      forall d | d in before + [c] && d.1 ensures d.0 !in next.atDevice && d.0 !in next.atSource {
        assert d in before || d == c;
      }
    }
  }

  lemma {:induction false} DeliveredAllInv(job: Job, st: State, place: Place, done: seq<(nat, bool)>,
                                           before: seq<(nat, bool)>)
    requires JobOk(job) && Inv(job, st) && Landed(st, before)
    ensures Inv(job, DeliveredAll(job, st, place, done)) && Landed(DeliveredAll(job, st, place, done), before + done)
    decreases |done|
  {
    hide Inv, Landed, Delivered;
    if done == [] {
      assert before + done == before;
    } else {
      var n := |done| - 1;
      var mid := DeliveredAll(job, st, place, done[..n]);
      DeliveredAllInv(job, st, place, done[..n], before);
      DeliveredInv(job, mid, place, done[n]);
      DeliveredLands(job, mid, place, done[n], before + done[..n]);
      assert before + done == before + done[..n] + [done[n]];
    }
  }

  /** A batch of completed reads, recorded one by one; the first failure ends the archiving. */
  function UploadedAll(job: Job, st: State, done: seq<(nat, bool)>): (r: Option<State>)
    requires JobOk(job) && Inv(job, st) && Landed(st, done)
    ensures r.Some? ==> Inv(job, r.value)
    decreases |done|
  {
    if done == [] then Some(st)
    else if !done[0].1 then None
    else match Uploaded(job, st, done[0].0)
      case None => None
      case Some(next) =>
        assert done[0] in done;
        UploadedInv(job, st, done[0].0);
        UploadedLanded(job, st, done);
        UploadedAll(job, next, done[1..])
  }

  lemma UploadedLanded(job: Job, st: State, done: seq<(nat, bool)>)
    requires JobOk(job) && Inv(job, st) && Landed(st, done) && done != [] && Uploaded(job, st, done[0].0).Some?
    ensures Landed(Uploaded(job, st, done[0].0).value, done[1..])
  {
    hide Inv, CodeStripe;
  }

  /** A batch of results of the store. */
  function AcknowledgedAll(job: Job, st: State, results: seq<(Hash, bool)>): (r: Option<State>)
    requires JobOk(job) && Inv(job, st)
    ensures r.Some? ==> Inv(job, r.value) && r.value.fetching == st.fetching && r.value.hashes == st.hashes
    decreases |results|
  {
    if results == [] then Some(st)
    else match Acknowledged(st, results[0].0, results[0].1)
      case None => None
      case Some(next) =>
        AcknowledgedInv(job, st, results[0].0, results[0].1);
        AcknowledgedAll(job, next, results[1..])
  }

  lemma {:induction false} UploadedAllReached(job: Job, st: State, done: seq<(nat, bool)>, next: nat)
    requires JobOk(job) && Inv(job, st) && Landed(st, done) && UploadedAll(job, st, done).Some?
             && Reached(job, st, next)
    ensures Reached(job, UploadedAll(job, st, done).value, next)
    decreases |done|
  {
    hide Inv, Uploaded, Reached;
    if done != [] {
      assert done[0] in done;
      UploadedInv(job, st, done[0].0);
      UploadedLanded(job, st, done);
      UploadedReached(job, st, done[0].0, next);
      UploadedAllReached(job, Uploaded(job, st, done[0].0).value, done[1..], next);
    }
  }

  // ----- the whole job -----

  /** Nothing is waited for any more and every stripe was considered. */
  ghost predicate Finished(job: Job, st: State)
    requires JobOk(job)
  {
    Inv(job, st) && st.fetching == map[] && st.inflight == 0 && Reached(job, st, |job.headers|)
  }

  /** The manifest lists exactly the stripes that are written or have a source. Every object it names is
      stored, and was handed over once, exactly if the store has reported on outstanding puts only. */
  lemma ManifestComplete(job: Job, st: State)
    requires JobOk(job) && Finished(job, st)
    ensures forall s: nat :: s in st.hashes <==> s < |job.headers| && ShouldBeArchived(job, s)
    ensures st.puts == |Named(st.hashes)|
    ensures (forall s | s in st.hashes && st.hashes[s].Object? :: st.hashes[s].hash in st.objects) <==>
            st.strayPuts == 0
    ensures st.strayPuts == 0 ==> st.pending == map[] && st.objects.Keys == Named(st.hashes)
  {
    hide BuffersValid, RecordOk, ReadsOk, MemOk, BlobsFrom;
    forall s | s in st.hashes && st.hashes[s].Object? ensures st.hashes[s].hash in Named(st.hashes) {
    }
    if st.strayPuts != 0 {
      assert st.pending != map[];
      var h :| h in st.pending;
      assert h in Named(st.hashes);
    } else {
      assert st.pending == map[];
    }
    forall s: nat | s in st.hashes ensures s < |job.headers| && ShouldBeArchived(job, s) {
      assert s in st.views;
    }
  }

  /** No two objects made from these stripes have the same hash. */
  ghost predicate Collisionless(p: Params, views: map<nat, seq<byte>>)
    requires Sane(p)
  {
    forall s, t, a, b | s in views && t in views && IsBlobOf(p, s, views[s], a) && IsBlobOf(p, t, views[t], b) ::
      p.sha(a) == p.sha(b) ==> a == b
  }

  /** Of each archived stripe: its bytes came from where the header says, unless a channel has
      misreported; and all of them, exactly if the stripe lies within the device or source. */
  lemma ArchivedBytes(job: Job, st: State, s: nat)
    requires JobOk(job) && Finished(job, st) && s in st.hashes
    ensures s < |job.headers| && s in st.views && |st.views[s]| == StripeBytes(job.p)
    ensures st.strayReads == 0 ==> ViewOf(job, s) <= st.views[s]
    ensures st.strayReads == 0 ==> (st.views[s] == ViewOf(job, s) <==> |ViewOf(job, s)| == StripeBytes(job.p))
  {
    hide BuffersValid, StoreOk, Named, MemOk, BlobsFrom;
    assert s in st.views;
  }

  lemma StoredObject(job: Job, st: State, s: nat)
    requires JobOk(job) && Finished(job, st) && st.strayPuts == 0 && s in st.hashes
    ensures s in st.views && RecordOk(job.p, s, st.views[s], st.hashes[s])
    ensures st.hashes[s].Object? ==>
            st.hashes[s].hash in st.objects && job.p.sha(st.objects[st.hashes[s].hash]) == st.hashes[s].hash
    ensures BlobsFrom(job.p, st.objects, st.views)
  {
    ManifestComplete(job, st);
    hide BuffersValid, RecordOk, ReadsOk, MemOk, Named, BlobsFrom;
    assert s in st.views;
  }

  /** Reading a stripe back: the object that the manifest names decodes to the bytes that the archiver
      had in its buffer, even if several stripes share it. */
  lemma ArchivedStripe(job: Job, st: State, s: nat)
    requires JobOk(job) && Finished(job, st) && st.strayPuts == 0 && Collisionless(job.p, st.views)
    requires s in st.hashes
    ensures s in st.views && |st.views[s]| == StripeBytes(job.p)
    ensures st.hashes[s].ZeroStripe? ==> st.views[s] == Zeros(StripeBytes(job.p))
    ensures st.hashes[s].Object? ==>
              && st.hashes[s].hash in st.objects && job.p.sha(st.objects[st.hashes[s].hash]) == st.hashes[s].hash
              && Decode(job.p, s, st.objects[st.hashes[s].hash], StripeBytes(job.p)) == Some(st.views[s])
  {
    hide Finished, Decode, Encode;
    StoredObject(job, st, s);
    if st.hashes[s].Object? {
      var h := st.hashes[s].hash;
      var t :| t in st.views && IsBlobOf(job.p, t, st.views[t], st.objects[h]);
      assert IsBlobOf(job.p, s, st.views[s], Encode(job.p, s, st.views[s]).value);
      StripeRoundTrip(job.p, s, st.views[s]);
    }
  }

  /** Buffers are not cleared between stripes: a read of a stripe that the source ends in leaves, behind
      the end, what the buffer held before. */
  lemma ShortStripeTail(job: Job, st: State, s: nat)
    requires JobOk(job) && Inv(job, st) && s < |job.headers| && PlaceOf(job, s) == AtSource && s in st.atSource
    requires st.strayReads == 0 && Delivered(job, st, AtSource, (s, true)).strayReads == 0
    ensures s in st.fetching && st.fetching[s] in st.mem
            && st.fetching[s] in Delivered(job, st, AtSource, (s, true)).mem
    ensures var buf := st.mem[st.fetching[s]];
            Delivered(job, st, AtSource, (s, true)).mem[st.fetching[s]] == job.image[s] + buf[|job.image[s]|..]
  {
    hide StoreOk, RecordsOk, Named, LandedOk, ViewsOk, BuffersValid, Sane;
    FetchingFacts(job, st, s);
  }
}
