/** The whole lazy device as a step system: guest channels, background worker, fetcher, flusher,
    the two caching devices, and crashes. A plain disk runs alongside as the reference: it starts
    with the source's contents and sees the guest's operations only. The sectors of a sourced stripe
    that the source is too short for have no defined contents at first; what they hold is settled
    when the stripe is published, which is before any guest can see them. */
module Protocol {
  import opened Disk
  import opened Metadata
  import opened Mirror
  import BP = BufferPool
  import F = Fetcher
  import FX = FetcherRuns
  import FL = Flusher
  import FC = FlusherCrash
  import FR = FlusherRuns
  import LC = LazyChannel
  import LR = LazyChannelRuns
  import W = Worker

  /** Of each sector of the target, its stripe and its place in the stripe; the contents of the
      source; and which stripes have a source. */
  datatype Conf = Conf(stripe: seq<nat>, slot: seq<nat>, source: seq<Val>, src: seq<bool>)

  function NewConf(stripeSectors: nat, sectors: nat, source: seq<Val>, src: seq<bool>): (conf: Conf)
    requires stripeSectors > 0 && |source| <= sectors <= stripeSectors * |src|
    ensures ConfOk(conf)
  {
    StripesOrdered(stripeSectors, sectors, |src|);
    Conf(seq(sectors, k requires 0 <= k < sectors => k / stripeSectors),
         seq(sectors, k requires 0 <= k < sectors => k % stripeSectors), source, src)
  }

  lemma StripesOrdered(size: nat, sectors: nat, stripes: nat)
    requires size > 0 && sectors <= size * stripes
    ensures forall k: nat | k < sectors :: 0 <= k / size < stripes
    ensures forall i: nat, k: nat | i <= k < sectors :: i / size <= k / size
  {
    forall k: nat | k < sectors ensures 0 <= k / size < stripes {
      if k / size >= stripes {
        Scaled(stripes, k / size, size);
        assert false;
      }
    }
    forall i: nat, k: nat | i <= k < sectors ensures i / size <= k / size {
      RangeOrdered(i, k, size);
    }
  }

  /** The fetcher's request at the target: copying a stripe, applied to some of its sectors at these
      positions of their histories; then a flush, covering what was acknowledged before. */
  datatype FetchOp = Copying(at: map<nat, nat>) | Syncing(covers: seq<nat>)

  /** done: the stripes whose contents are on the target for good. */
  datatype G = G(
    conf: Conf,
    w: FC.World,
    fe: F.State,
    bufs: map<nat, map<nat, Val>>,
    fops: map<nat, FetchOp>,
    done: set<nat>,
    disk: seq<Cell>,
    plain: seq<Cell>,
    chans: seq<LC.State>,
    msgs: seq<LC.Msg>)

  datatype Step =
    // the guest's calls on one channel; room: how many messages the worker still receives
    | Add(c: nat, rw: LC.RW, room: nat) | AddFlush(c: nat, id: nat) | Submit(c: nat, imageOk: bool, baseOk: bool)
    | ProcessHead(c: nat) | SubmitAdded(c: nat, added: seq<nat>, ok: bool) | TakeResults(c: nat)
    // the target and the image serve the guest's requests
    | ReadSector(c: nat, id: nat, k: nat) | WriteSector(c: nat, id: nat, k: nat) | BeginFlush(c: nat, id: nat)
    | BaseDone(c: nat, id: nat, ok: bool) | ReadImage(c: nat, id: nat, k: nat) | ImageDone(c: nat, id: nat)
    // the worker and the stripe fetcher
    | Receive | Autofetch | StartFetch(accepted: bool) | Fill(s: nat, j: nat, v: Val)
    | SourceDone(s: nat, ok: bool, submitted: bool) | CopySector(s: nat, k: nat)
    | TargetDone(s: nat, ok: bool, submitted: bool) | HandOver
    // the metadata flusher, and a crash
    | Meta(e: FC.Event) | Crash(picks: seq<nat>, images: seq<seq<Header>>, autofetch: bool, sourceStripes: nat)

  // ----- sectors -----

  function Published(shared: Shared, conf: Conf, k: nat): bool
    requires k < |conf.stripe| && conf.stripe[k] < |shared.fetch|
  {
    shared.FetchedIfNeeded(conf.stripe[k])
  }

  /** Whether the contents of the sector are defined: by the target itself, by the source, or since
      the publication of its stripe. */
  predicate Defined(conf: Conf, shared: Shared, k: nat)
    requires k < |conf.stripe| && conf.stripe[k] < |conf.src| == |shared.fetch|
  {
    !conf.src[conf.stripe[k]] || k < |conf.source| || Published(shared, conf, k)
  }

  function SourceAt(conf: Conf, k: nat): Val {
    if k < |conf.source| then conf.source[k] else 0
  }

  predicate ConfOk(conf: Conf) {
    && |conf.source| <= |conf.stripe| == |conf.slot|
    && (forall k: nat | k < |conf.stripe| :: conf.stripe[k] < |conf.src|)
    && (forall i: nat, k: nat | i <= k < |conf.stripe| :: conf.stripe[i] <= conf.stripe[k])
  }

  predicate Shapes(conf: Conf, shared: Shared, disk: seq<Cell>, plain: seq<Cell>) {
    && ConfOk(conf)
    && |shared.fetch| == |shared.written| == |conf.src|
    && |disk| == |plain| == |conf.stripe|
  }

  ghost predicate SectorsOk(conf: Conf, shared: Shared, done: set<nat>, disk: seq<Cell>, plain: seq<Cell>)
    requires Shapes(conf, shared, disk, plain)
  {
    forall k: nat | k < |conf.stripe| :: OneSectorOk(conf, shared, done, disk[k], plain[k], k)
  }

  ghost predicate OneSectorOk(conf: Conf, shared: Shared, done: set<nat>, c: Cell, p: Cell, k: nat)
    requires ConfOk(conf) && |shared.fetch| == |conf.src| && k < |conf.stripe|
  {
    SectorOk(conf.src[conf.stripe[k]], conf.stripe[k] in done, Published(shared, conf, k), k < |conf.source|, c, p,
             SourceAt(conf, k))
  }

  /** The plain disk after the publication of more stripes. */
  function Settled(conf: Conf, a: Shared, b: Shared, disk: seq<Cell>, plain: seq<Cell>): (r: seq<Cell>)
    requires Shapes(conf, a, disk, plain) && |b.fetch| == |conf.src|
    ensures |r| == |plain|
  {
    seq(|plain|, k requires 0 <= k < |plain| =>
      if !Defined(conf, a, k) && Published(b, conf, k) then Cell([Newest(disk[k])], 0, 0) else plain[k])
  }

  // ----- guest requests -----

  predicate WellFormed(conf: Conf, rw: LC.RW) {
    && rw.cnt > 0 && rw.off + rw.cnt <= |conf.stripe|
    && rw.first == conf.stripe[rw.off] && rw.last == conf.stripe[rw.off + rw.cnt - 1]
    && (rw.out ==> |rw.data| == rw.cnt)
  }

  ghost predicate OpOk(conf: Conf, shared: Shared, track: bool, disk: seq<Cell>, plain: seq<Cell>, op: DevOp)
    requires Shapes(conf, shared, disk, plain)
  {
    && (forall k: nat | op.Touches(k) :: k < |conf.stripe| && Published(shared, conf, k))
    && match op
       case ReadOp(_, _, _) => true
       case WriteOp(_, _, at, reference) =>
         && at.Keys == reference.Keys
         && (forall k | k in at ::
              op.Touches(k) && WriteRel(disk[k], plain[k], at[k], reference[k], op.data[k - op.off]))
         && (track ==> forall k: nat | op.Touches(k) :: shared.written[conf.stripe[k]])
       case FlushOp(begun, covers, reference) =>
         begun ==>
           && |covers| == |reference| == |conf.stripe|
           && forall k: nat | k < |conf.stripe| :: FlushRel(disk[k], plain[k], covers[k], reference[k])
  }

  ghost predicate ImageOpOk(conf: Conf, op: DevOp) {
    op.ReadOp? && forall k | k in op.got :: k < |conf.source| && op.got[k] == conf.source[k]
  }

  ghost predicate ChanOk(conf: Conf, shared: Shared, disk: seq<Cell>, plain: seq<Cell>, ch: LC.State)
    requires Shapes(conf, shared, disk, plain)
  {
    && (forall rw | rw in ch.queue :: WellFormed(conf, rw))
    && (forall id | id in ch.base.live :: OpOk(conf, shared, ch.trackWritten, disk, plain, ch.base.live[id]))
    && (forall id | id in ch.image.live :: ImageOpOk(conf, ch.image.live[id]))
    && Tidy(ch)
  }

  /** No request is in two places of a channel. */
  ghost predicate Tidy(ch: LC.State) {
    LR.HeldOnce(ch) && ch.base.Valid()
  }

  ghost predicate ChansOk(conf: Conf, shared: Shared, disk: seq<Cell>, plain: seq<Cell>, chans: seq<LC.State>)
    requires Shapes(conf, shared, disk, plain)
  {
    forall c: nat | c < |chans| :: ChanOk(conf, shared, disk, plain, chans[c])
  }

  // ----- fetches -----

  function BufAt(bufs: map<nat, map<nat, Val>>, b: nat, j: nat): Val {
    if b in bufs && j in bufs[b] then bufs[b][j] else 0
  }

  /** The buffer holds the part of the stripe that the source has. */
  predicate Loaded(conf: Conf, bufs: map<nat, map<nat, Val>>, b: nat, s: nat)
    requires ConfOk(conf)
  {
    forall k: nat | k < |conf.source| && conf.stripe[k] == s :: BufAt(bufs, b, conf.slot[k]) == conf.source[k]
  }

  /** The newest value of the sector was copied from the source. */
  predicate Copied(conf: Conf, c: Cell, i: nat, k: nat) {
    c.Valid() && i == |c.hist| - 1 && (k < |conf.source| ==> c.Current() == conf.source[k])
  }

  ghost predicate FetchOpOk(conf: Conf, fe: F.State, bufs: map<nat, map<nat, Val>>, disk: seq<Cell>, s: nat,
                            op: FetchOp)
    requires ConfOk(conf) && |disk| == |conf.stripe|
  {
    match op
    case Copying(at) =>
      && F.InPhase(fe.phases, s, F.FetchingPhase)
      && s in fe.buffers && Loaded(conf, bufs, fe.buffers[s], s)
      && (forall k | k in at :: k < |conf.stripe| && conf.stripe[k] == s && Copied(conf, disk[k], at[k], k))
    case Syncing(covers) =>
      && F.InPhase(fe.phases, s, F.FlushingPhase)
      && |covers| == |conf.stripe|
      && (forall k: nat | k < |conf.stripe| :: covers[k] <= disk[k].acked)
      && (forall k: nat | k < |conf.stripe| && conf.stripe[k] == s ::
           Copied(conf, disk[k], covers[k], k) && disk[k].acked == covers[k])
  }

  ghost predicate FetchOpsOk(conf: Conf, fe: F.State, bufs: map<nat, map<nat, Val>>, fops: map<nat, FetchOp>,
                             disk: seq<Cell>)
    requires ConfOk(conf) && |disk| == |conf.stripe|
  {
    fops.Keys == fe.writing && forall s | s in fops :: FetchOpOk(conf, fe, bufs, disk, s, fops[s])
  }

  /** A stripe that is done is never fetched again; only stripes with a source are fetched at all. */
  ghost predicate FetchesOk(conf: Conf, fe: F.State, done: set<nat>, shared: Shared)
    requires |shared.fetch| == |conf.src|
  {
    && (forall s | s in done :: s < |conf.src| && conf.src[s] && !F.Active(fe.phases, s)
                                && (shared.fetch[s] == Fetched || s in fe.phases))
    && (forall s: nat | F.InPhase(fe.phases, s, F.FetchedPhase) :: s in done)
    && (forall s: nat | F.Active(fe.phases, s) :: s < |conf.src| && conf.src[s])
    && (forall f | f in fe.finished && f.1 :: f.0 in done)
  }

  // ----- the invariant -----

  ghost predicate WorldOk(conf: Conf, w: FC.World, done: set<nat>) {
    && FC.Inv(w) && FR.FetchedWithin(w, done)
    && |w.fl.headers| == |conf.src|
    && forall s: nat | s < |conf.src| :: w.fl.headers[s].hasSource == conf.src[s]
  }

  ghost predicate Inv(g: G) {
    && Shapes(g.conf, g.w.shared, g.disk, g.plain)
    && WorldOk(g.conf, g.w, g.done)
    && F.Valid(g.fe, |g.conf.src|)
    && FetchesOk(g.conf, g.fe, g.done, g.w.shared)
    && SectorsOk(g.conf, g.w.shared, g.done, g.disk, g.plain)
    && FetchOpsOk(g.conf, g.fe, g.bufs, g.fops, g.disk)
    && ChansOk(g.conf, g.w.shared, g.disk, g.plain, g.chans)
    && forall m | m in g.msgs :: W.Known(m, |g.conf.src|)
  }

  // ----- steps -----

  predicate LiveOp(g: G, c: nat, id: nat) {
    c < |g.chans| && id in g.chans[c].base.live
  }

  function OpAt(g: G, c: nat, id: nat): DevOp
    requires LiveOp(g, c, id)
  {
    g.chans[c].base.live[id]
  }

  function WithOp(g: G, c: nat, id: nat, op: DevOp): G
    requires c < |g.chans|
  {
    var ch := g.chans[c];
    g.(chans := g.chans[c := ch.(base := ch.base.(live := ch.base.live[id := op]))])
  }

  /** All sectors that the request has to serve before it can succeed. */
  ghost predicate Served(op: DevOp) {
    match op
    case ReadOp(_, _, got) => forall k: nat | op.Touches(k) :: k in got
    case WriteOp(_, _, at, _) => forall k: nat | op.Touches(k) :: k in at
    case FlushOp(begun, _, _) => begun
  }

  /** These requests are staged, and listed once. */
  ghost predicate Staged(c: Chan, added: seq<nat>) {
    forall id :: LR.InResults(LC.Failures(added), id) <= LR.One(id in c.staged)
  }

  ghost predicate Enabled(g: G, step: Step)
    requires Inv(g)
  {
    match step
    case Add(c, rw, _) => c < |g.chans| && WellFormed(g.conf, rw) && LR.Held(g.chans[c], rw.id) == 0
    case AddFlush(c, id) => c < |g.chans| && LR.Held(g.chans[c], id) == 0
    case Submit(c, _, _) => c < |g.chans|
    case ProcessHead(c) => c < |g.chans| && g.chans[c].queue != []
    case SubmitAdded(c, added, _) => c < |g.chans| && Staged(g.chans[c].base, added)
    case TakeResults(c) => c < |g.chans|
    case ReadSector(c, id, k) => LiveOp(g, c, id) && OpAt(g, c, id).ReadOp? && OpAt(g, c, id).Touches(k)
    case WriteSector(c, id, k) =>
      LiveOp(g, c, id) && OpAt(g, c, id).WriteOp? && OpAt(g, c, id).Touches(k) && k !in OpAt(g, c, id).at
    case BeginFlush(c, id) => LiveOp(g, c, id) && OpAt(g, c, id).FlushOp? && !OpAt(g, c, id).begun
    case BaseDone(c, id, ok) => LiveOp(g, c, id) && (ok ==> Served(OpAt(g, c, id)))
    case ReadImage(c, id, k) => c < |g.chans| && id in g.chans[c].image.live && k < |g.conf.source|
    case ImageDone(c, id) => c < |g.chans|
    case Receive => g.msgs != []
    case Autofetch => true
    case StartFetch(_) => F.CanStart(g.fe)
    case Fill(s, _, _) => s in g.fe.reading
    case SourceDone(s, ok, _) =>
      s in g.fe.reading && (ok ==> s in g.fe.buffers && Loaded(g.conf, g.bufs, g.fe.buffers[s], s))
    case CopySector(s, k) =>
      s in g.fops && g.fops[s].Copying? && k < |g.conf.stripe| && g.conf.stripe[k] == s && k !in g.fops[s].at
    case TargetDone(s, ok, _) =>
      s in g.fops && (ok && g.fops[s].Copying? ==>
                      forall k: nat | k < |g.conf.stripe| && g.conf.stripe[k] == s :: k in g.fops[s].at)
    case HandOver => g.fe.finished != []
    case Meta(e) => !e.Ask? && !e.MarkFailed? && FC.Enabled(g.w, e)
    case Crash(picks, images, _, sourceStripes) =>
      && |picks| == |g.disk| && (forall k: nat | k < |picks| :: g.disk[k].durable <= picks[k] < |g.disk[k].hist|)
      && FR.CrashChoice(g.w.disk, images) && sourceStripes <= |g.conf.src|
  }

  function AckAll(cells: seq<Cell>, at: map<nat, nat>): (r: seq<Cell>)
    ensures |r| == |cells|
  {
    seq(|cells|, k requires 0 <= k < |cells| => if k in at then cells[k].Acknowledge(at[k]) else cells[k])
  }

  function HardenAll(cells: seq<Cell>, covers: seq<nat>): (r: seq<Cell>)
    requires |covers| == |cells|
    ensures |r| == |cells|
  {
    seq(|cells|, k requires 0 <= k < |cells| => cells[k].Harden(covers[k]))
  }

  function Acked(cells: seq<Cell>): seq<nat> {
    seq(|cells|, k requires 0 <= k < |cells| => cells[k].acked)
  }

  /** The guest's calls change one channel, and may send messages to the worker. */
  ghost function DoGuest(g: G, step: Step): G
    requires Inv(g) && Enabled(g, step)
    requires step.Add? || step.AddFlush? || step.Submit? || step.ProcessHead? || step.SubmitAdded? || step.TakeResults?
  {
    hide FC.Inv, FR.FetchedWithin, F.Valid, FetchesOk, SectorsOk, FetchOpsOk, LC.Add, LC.Messages, LC.ProcessFront;
    var c, ch := step.c, g.chans[step.c];
    match step
    case Add(_, rw, room) =>
      RequestInRange(g.conf, rw);
      g.(chans := g.chans[c := LC.Add(ch, g.w.shared, rw, room)],
         msgs := g.msgs + LC.Messages(ch, g.w.shared, rw, room))
    case AddFlush(_, id) => g.(chans := g.chans[c := LC.AddFlush(ch, id)])
    case Submit(_, imageOk, baseOk) => g.(chans := g.chans[c := LC.Submit(ch, imageOk, baseOk)])
    case ProcessHead(_) =>
      assert ChanOk(g.conf, g.w.shared, g.disk, g.plain, ch);
      assert ch.queue[0] in ch.queue;
      RequestInRange(g.conf, ch.queue[0]);
      g.(chans := g.chans[c := LC.ProcessFront(ch, g.w.shared)])
    case SubmitAdded(_, added, ok) => g.(chans := g.chans[c := LC.SubmitProcessed(LC.Processed(ch, added), ok)])
    case TakeResults(_) => g.(chans := g.chans[c := ch.(finished := [])])
  }

  lemma RequestInRange(conf: Conf, rw: LC.RW)
    requires ConfOk(conf) && WellFormed(conf, rw)
    ensures rw.first <= rw.last < |conf.src|
    ensures forall k: nat | rw.off <= k < rw.off + rw.cnt ::
              k < |conf.stripe| && rw.first <= conf.stripe[k] <= rw.last
  {
  }

  /** The target serves a guest request: one sector read or written, a flush begun, a completion. */
  ghost function DoDevice(g: G, step: Step): G
    requires Inv(g) && Enabled(g, step)
    requires step.ReadSector? || step.WriteSector? || step.BeginFlush? || step.BaseDone?
  {
    hide FC.Inv, FR.FetchedWithin, F.Valid, FetchesOk, FetchOpsOk;
    var op := OpAt(g, step.c, step.id);
    assert ChanOk(g.conf, g.w.shared, g.disk, g.plain, g.chans[step.c]);
    assert OpOk(g.conf, g.w.shared, g.chans[step.c].trackWritten, g.disk, g.plain, op);
    match step
    case ReadSector(c, id, k) =>
      assert OneSectorOk(g.conf, g.w.shared, g.done, g.disk[k], g.plain[k], k);
      WithOp(g, c, id, op.(got := op.got[k := g.disk[k].Current()]))
    case WriteSector(c, id, k) =>
      var v := op.data[k - op.off];
      WithOp(g, c, id, op.(at := op.at[k := |g.disk[k].hist|], reference := op.reference[k := |g.plain[k].hist|]))
      .(disk := g.disk[k := g.disk[k].Apply(v)], plain := g.plain[k := g.plain[k].Apply(v)])
    case BeginFlush(c, id) => WithOp(g, c, id, FlushOp(true, Acked(g.disk), Acked(g.plain)))
    case BaseDone(c, id, ok) =>
      var ch := g.chans[c];
      var g1 := g.(chans := g.chans[c := ch.(base := ch.base.Remove({id}))]);
      if !ok then g1
      else match op
        case ReadOp(_, _, _) => g1
        case WriteOp(_, _, at, reference) => g1.(disk := AckAll(g.disk, at), plain := AckAll(g.plain, reference))
        case FlushOp(_, covers, reference) => g1.(disk := HardenAll(g.disk, covers),
                                                  plain := HardenAll(g.plain, reference))
  }

  function DoImage(g: G, step: Step): G
    requires step.ReadImage? || step.ImageDone?
    requires step.c < |g.chans|
    requires step.ReadImage? ==> step.id in g.chans[step.c].image.live && step.k < |g.conf.source|
    requires step.ReadImage? ==> g.chans[step.c].image.live[step.id].ReadOp?
  {
    var ch := g.chans[step.c];
    match step
    case ReadImage(c, id, k) =>
      var op := ch.image.live[id];
      g.(chans := g.chans[c := ch.(image :=
                                   ch.image.(live := ch.image.live[id := op.(got := op.got[k := g.conf.source[k]])]))])
    case ImageDone(c, id) => g.(chans := g.chans[c := ch.(image := ch.image.Remove({id}))])
  }

  /** A stripe given up by the fetcher is marked failed. */
  function Marked(w: FC.World, before: F.State, after: F.State, s: nat): FC.World
    requires s < |w.shared.fetch|
  {
    if F.GivesUp(before, after, s) then w.(shared := w.shared.SetFailed(s)) else w
  }

  /** The worker takes a message, asks for the next stripe itself, or passes a result on. */
  ghost function DoWorker(g: G, step: Step): G
    requires Inv(g) && Enabled(g, step) && (step.Receive? || step.Autofetch? || step.HandOver?)
  {
    hide FC.HeadersAgree, FC.ImagesShaped, FC.PublishedDurable, FC.StagesAgree, FL.Valid, FR.FetchedWithin;
    hide FetchesOk, SectorsOk, FetchOpsOk, ChansOk, F.Request, F.Autofetch, FC.Next, FC.Sized;
    hide F.QueueValid, F.RetriesValid, F.FlightsValid, BP.BuffersValid;
    match step
    case Receive =>
      var m := g.msgs[0];
      assert m in g.msgs;
      var rest := g.(msgs := g.msgs[1..]);
      (match m
       case Fetch(s) => rest.(fe := F.Request(g.fe, g.w.shared, s))
       case SetWritten(s) => rest.(w := FC.Next(g.w, FC.Ask(FL.Request(s, WrittenBit))))
       case Shutdown => rest)
    case Autofetch =>
      F.AutofetchValid(g.fe, g.w.shared, |g.conf.src|);
      g.(fe := F.Autofetch(g.fe, g.w.shared))
    case HandOver =>
      var (s, ok) := g.fe.finished[0];
      assert (s, ok) in g.fe.finished;
      var rest := g.(fe := g.fe.(finished := g.fe.finished[1..]));
      if ok then rest.(w := FC.Next(g.w, FC.Ask(FL.Request(s, FetchedBit)))) else rest
  }

  /** The fetcher reads stripes from the source. */
  ghost function DoFetch(g: G, step: Step): G
    requires Inv(g) && Enabled(g, step) && (step.StartFetch? || step.Fill? || step.SourceDone?)
  {
    hide WorldOk, FetchesOk, SectorsOk, FetchOpsOk, ChansOk, F.Valid, F.StartOne, F.SourceDone, F.GivesUp;
    match step
    case StartFetch(accepted) =>
      FX.HeadReady(g.fe, |g.conf.src|);
      var fe := F.StartOne(g.fe, accepted);
      g.(fe := fe, w := Marked(g.w, g.fe, fe, g.fe.queue[0]))
    case Fill(s, j, v) =>
      FX.InFlightHasBuffer(g.fe, |g.conf.src|, s);
      var b := g.fe.buffers[s];
      g.(bufs := g.bufs[b := (if b in g.bufs then g.bufs[b] else map[])[j := v]])
    case SourceDone(s, ok, submitted) =>
      FX.InFlightHasBuffer(g.fe, |g.conf.src|, s);
      var fe := F.SourceDone(g.fe, s, ok, submitted);
      g.(fe := fe, w := Marked(g.w, g.fe, fe, s), fops := if ok
         && submitted then g.fops[s := Copying(map[])] else g.fops)
  }

  /** The fetcher's copy of a stripe: a sector written, the write or the flush answered. */
  ghost function DoCopy(g: G, step: Step): G
    requires Inv(g) && Enabled(g, step) && (step.CopySector? || step.TargetDone?)
  {
    hide WorldOk, FetchesOk, SectorsOk, ChansOk, F.Valid, F.TargetDone, F.GivesUp;
    assert FetchOpOk(g.conf, g.fe, g.bufs, g.disk, step.s, g.fops[step.s]);
    FX.InFlightHasBuffer(g.fe, |g.conf.src|, step.s);
    match step
    case CopySector(s, k) =>
      var v := BufAt(g.bufs, g.fe.buffers[s], g.conf.slot[k]);
      g.(disk := g.disk[k := g.disk[k].Apply(v)], fops := g.fops[s := Copying(g.fops[s].at[k := |g.disk[k].hist|])])
    case TargetDone(s, ok, submitted) =>
      var fe := F.TargetDone(g.fe, s, ok, submitted);
      var g1 := g.(fe := fe, w := Marked(g.w, g.fe, fe, s), fops := g.fops - {s});
      if !ok then g1
      else match g.fops[s]
        case Copying(at) =>
          var d := AckAll(g.disk, at);
          if submitted then g1.(disk := d, fops := g.fops[s := Syncing(Acked(d))]) else g1.(disk := d)
        case Syncing(covers) => g1.(disk := HardenAll(g.disk, covers), done := g.done + {s})
  }

  function CrashedDisk(disk: seq<Cell>, picks: seq<nat>): (r: seq<Cell>)
    requires |picks| == |disk|
    ensures |r| == |disk|
  {
    seq(|disk|, k requires 0 <= k < |disk| => disk[k].Crash(picks[k]))
  }

  function CorrespondingAt(g: G, picks: seq<nat>, k: nat): nat
    requires ConfOk(g.conf) && |picks| == |g.disk| == |g.plain| == |g.conf.stripe| && k < |g.disk|
  {
    Corresponding(g.conf.stripe[k] in g.done || !g.conf.src[g.conf.stripe[k]], g.disk[k], g.plain[k], picks[k])
  }

  function FetchedIn(headers: seq<Header>): set<nat> {
    set s: nat | s < |headers| && headers[s].fetched
  }

  /** What the crash leaves of the plain disk. */
  function CrashedPlain(g: G, picks: seq<nat>, headers: seq<Header>): (r: seq<Cell>)
    requires Shapes(g.conf, g.w.shared, g.disk, g.plain) && |picks| == |g.disk|
    requires forall k: nat | k < |picks| :: picks[k] < |g.disk[k].hist|
    ensures |r| == |g.plain|
  {
    seq(|g.plain|, k requires 0 <= k < |g.plain| =>
      if !Defined(g.conf, g.w.shared, k) && g.conf.stripe[k] in FetchedIn(headers)
      then Cell([g.disk[k].hist[picks[k]]], 0, 0)
      else g.plain[k].Crash(CorrespondingAt(g, picks, k)))
  }

  /** The crash leaves one value per sector, one image per metadata sector, and no memory. */
  ghost function DoCrash(g: G, step: Step): G
    requires Inv(g) && Enabled(g, step) && step.Crash?
  {
    hide FC.Inv, FR.FetchedWithin, FetchesOk, ChansOk, F.Valid, FetchOpsOk, SectorsOk;
    var headers := FR.Reloaded(g.w, step.images);
    G(g.conf, FC.NewWorld(headers), F.NewState(step.autofetch, step.sourceStripes), map[], map[],
      FetchedIn(headers),
      CrashedDisk(g.disk, step.picks),
      CrashedPlain(g, step.picks, headers),
      seq(|g.chans|, c requires 0 <= c < |g.chans| => LC.NewState(g.chans[c].hasImage, g.chans[c].trackWritten)),
      [])
  }
}
