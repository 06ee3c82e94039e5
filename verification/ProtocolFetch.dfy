/** The worker's, the fetcher's and the flusher's steps keep the invariant. */
module ProtocolFetch {
  import opened Disk
  import opened Metadata
  import opened Mirror
  import opened Protocol
  import opened ProtocolDevice
  import BP = BufferPool
  import F = Fetcher
  import FX = FetcherRuns
  import FL = Flusher
  import FC = FlusherCrash
  import FR = FlusherRuns

  // ----- the metadata side -----

  /** No published stripe is withdrawn. */
  ghost predicate Grows(a: Shared, b: Shared) {
    Advances(a, b) && forall s: nat | s < |a.fetch| :: a.fetch[s] == Fetched ==> b.fetch[s] == Fetched
  }

  lemma NextGrows(w: FC.World, e: FC.Event)
    requires FC.Inv(w) && FC.Enabled(w, e)
    ensures Grows(w.shared, FC.Next(w, e).shared)
  {
    hide FC.HeadersAgree, FC.ImagesShaped, FC.PublishedDurable, FC.StagesAgree;
  }

  lemma NextSources(w: FC.World, e: FC.Event, s: nat)
    requires FC.Inv(w) && FC.Enabled(w, e) && s < |w.fl.headers|
    ensures |FC.Next(w, e).fl.headers| == |w.fl.headers|
    ensures FC.Next(w, e).fl.headers[s].hasSource == w.fl.headers[s].hasSource
  {
    hide FC.HeadersAgree, FC.ImagesShaped, FC.PublishedDurable, FC.StagesAgree;
  }

  lemma WorldNext(conf: Conf, w: FC.World, done: set<nat>, e: FC.Event)
    requires WorldOk(conf, w, done) && FC.Enabled(w, e)
    requires e.Ask? && e.req.bit == FetchedBit ==> e.req.stripe in done
    ensures WorldOk(conf, FC.Next(w, e), done) && Grows(w.shared, FC.Next(w, e).shared)
  {
    hide FC.Inv, FC.Next, FC.Enabled, FR.FetchedWithin, Grows;
    FC.NextInv(w, e);
    FR.NextFetchedWithin(w, e, done);
    NextGrows(w, e);
    if |w.fl.headers| > 0 {
      NextSources(w, e, 0);
    } else {
      NextEmpty(w, e);
    }
    forall s: nat | s < |conf.src| ensures FC.Next(w, e).fl.headers[s].hasSource == conf.src[s] {
      NextSources(w, e, s);
    }
  }

  lemma NextEmpty(w: FC.World, e: FC.Event)
    requires FC.Inv(w) && FC.Enabled(w, e)
    ensures |FC.Next(w, e).fl.headers| == |w.fl.headers|
  {
    hide FC.HeadersAgree, FC.ImagesShaped, FC.PublishedDurable, FC.StagesAgree;
  }

  lemma WorldMore(conf: Conf, w: FC.World, done: set<nat>, more: set<nat>)
    requires WorldOk(conf, w, done) && done <= more
    ensures WorldOk(conf, w, more)
  {
  }

  /** Publishing more stripes settles the sectors of theirs that the source does not reach. */
  lemma SectorsSettle(conf: Conf, a: Shared, w': FC.World, done: set<nat>, disk: seq<Cell>, plain: seq<Cell>)
    requires Shapes(conf, a, disk, plain) && SectorsOk(conf, a, done, disk, plain)
    requires WorldOk(conf, w', done) && Grows(a, w'.shared)
    ensures |w'.shared.fetch| == |conf.src|
    ensures var p' := Settled(conf, a, w'.shared, disk, plain);
            && Shapes(conf, w'.shared, disk, p') && SectorsOk(conf, w'.shared, done, disk, p')
            && DiskEvolves(conf, a, disk, plain, disk, p')
  {
    hide Aligned, WorldOk;
    var p' := Settled(conf, a, w'.shared, disk, plain);
    forall k: nat | k < |disk|
      ensures OneSectorOk(conf, w'.shared, done, disk[k], p'[k], k) && Evolves(disk[k], plain[k], disk[k], p'[k])
    {
      var s := conf.stripe[k];
      assert OneSectorOk(conf, a, done, disk[k], plain[k], k);
      PublishedDone(conf, w', done, s);
      if conf.src[s] && Published(w'.shared, conf, k) {
        PublishBoth(true, Published(a, conf, k), k < |conf.source|, disk[k], plain[k], SourceAt(conf, k));
      }
    }
  }

  /** Publishing more keeps everything else. */
  lemma WorldInv(g: G, w': FC.World)
    requires Inv(g) && WorldOk(g.conf, w', g.done) && Grows(g.w.shared, w'.shared)
    ensures |w'.shared.fetch| == |g.conf.src|
    ensures Inv(g.(w := w', plain := Settled(g.conf, g.w.shared, w'.shared, g.disk, g.plain)))
  {
    hide WorldOk, F.Valid, SectorsOk, ChansOk, FetchOpsOk, DiskEvolves, Settled;
    SectorsSettle(g.conf, g.w.shared, w', g.done, g.disk, g.plain);
    ChansKept(g.conf, g.w.shared, w'.shared, g.disk, g.plain, g.disk,
              Settled(g.conf, g.w.shared, w'.shared, g.disk, g.plain), g.chans);
  }

  /** Nothing is published that was not. */
  predicate SamePublished(a: Shared, b: Shared) {
    |a.fetch| == |b.fetch| && forall s: nat | s < |a.fetch| :: b.FetchedIfNeeded(s) ==> a.FetchedIfNeeded(s)
  }

  lemma NothingSettled(conf: Conf, a: Shared, b: Shared, disk: seq<Cell>, plain: seq<Cell>)
    requires Shapes(conf, a, disk, plain) && |b.fetch| == |conf.src| && SamePublished(a, b)
    ensures Settled(conf, a, b, disk, plain) == plain
  {
  }

  lemma QuietWorldInv(g: G, w': FC.World)
    requires Inv(g) && WorldOk(g.conf, w', g.done) && Grows(g.w.shared, w'.shared)
             && SamePublished(g.w.shared, w'.shared)
    ensures Inv(g.(w := w'))
  {
    hide WorldOk, F.Valid, SectorsOk, ChansOk, FetchOpsOk, FetchesOk, Settled, Grows, SamePublished;
    WorldInv(g, w');
    NothingSettled(g.conf, g.w.shared, w'.shared, g.disk, g.plain);
    assert g.(w := w', plain := g.plain) == g.(w := w');
  }

  lemma MetaInv(g: G, e: FC.Event)
    requires Inv(g) && FC.Enabled(g.w, e)
    requires e.Ask? && e.req.bit == FetchedBit ==> e.req.stripe in g.done
    ensures |FC.Next(g.w, e).shared.fetch| == |g.conf.src|
    ensures var w' := FC.Next(g.w, e);
            Inv(g.(w := w', plain := Settled(g.conf, g.w.shared, w'.shared, g.disk, g.plain)))
  {
    hide FC.Inv, FC.Next, FC.Enabled, FR.FetchedWithin, F.Valid, SectorsOk, ChansOk, FetchOpsOk, FetchesOk, Settled;
    WorldNext(g.conf, g.w, g.done, e);
    WorldInv(g, FC.Next(g.w, e));
  }

  lemma AskInv(g: G, req: FL.Request)
    requires Inv(g) && FC.Enabled(g.w, FC.Ask(req)) && (req.bit == FetchedBit ==> req.stripe in g.done)
    ensures Inv(g.(w := FC.Next(g.w, FC.Ask(req))))
  {
    hide FC.Inv, FR.FetchedWithin, F.Valid, SectorsOk, ChansOk, FetchOpsOk, FetchesOk, Settled;
    WorldNext(g.conf, g.w, g.done, FC.Ask(req));
    QuietWorldInv(g, FC.Next(g.w, FC.Ask(req)));
  }

  /** Marking a stripe that the fetcher gives up is an event of the flusher's world. */
  lemma MarkedWorld(g: G, after: F.State, s: nat)
    requires Inv(g) && s < |g.conf.src|
    ensures WorldOk(g.conf, Marked(g.w, g.fe, after, s), g.done)
    ensures Grows(g.w.shared, Marked(g.w, g.fe, after, s).shared)
    ensures SamePublished(g.w.shared, Marked(g.w, g.fe, after, s).shared)
  {
    hide FR.FetchedWithin, F.Valid, SectorsOk, ChansOk, FetchOpsOk;
    if F.GivesUp(g.fe, after, s) {
      PublishedDone(g.conf, g.w, g.done, s);
      WorldNext(g.conf, g.w, g.done, FC.MarkFailed(s));
    }
  }

  // ----- the fetcher's bookkeeping -----

  /** The standing of every stripe but s is as it was. */
  ghost predicate OthersKept(a: F.State, b: F.State, s: nat) {
    forall t | t != s ::
      && (t in a.phases <==> t in b.phases) && (t in a.phases ==> a.phases[t] == b.phases[t])
      && (t in a.buffers <==> t in b.buffers) && (t in a.buffers ==> a.buffers[t] == b.buffers[t])
      && (t in a.writing <==> t in b.writing)
  }

  lemma FetchesAfter(conf: Conf, a: F.State, b: F.State, done: set<nat>, shared: Shared, shared': Shared, s: nat)
    requires |shared.fetch| == |shared'.fetch| == |conf.src| && Grows(shared, shared')
    requires FetchesOk(conf, a, done, shared) && OthersKept(a, b, s)
    requires s < |conf.src| && conf.src[s] && s !in done
    requires !F.InPhase(b.phases, s, F.FetchedPhase)
    requires forall f | f in b.finished && f.1 :: f in a.finished
    ensures FetchesOk(conf, b, done, shared')
  {
    forall t | t in done ensures !F.Active(b.phases, t) && (shared'.fetch[t] == Fetched || t in b.phases) {
      assert t != s;
    }
    forall t: nat | F.Active(b.phases, t) ensures t < |conf.src| && conf.src[t] {
      assert t != s ==> F.Active(a.phases, t);
    }
    forall t: nat | F.InPhase(b.phases, t, F.FetchedPhase) ensures t in done {
      assert F.InPhase(a.phases, t, F.FetchedPhase);
    }
  }

  /** A fetch operation stays as it is if its stripe does. */
  lemma FetchOpFrame(conf: Conf, a: F.State, b: F.State, bufs: map<nat, map<nat, Val>>, disk: seq<Cell>, s: nat,
                     t: nat, op: FetchOp)
    requires ConfOk(conf) && |disk| == |conf.stripe| && OthersKept(a, b, s) && t != s
    requires FetchOpOk(conf, a, bufs, disk, t, op)
    ensures FetchOpOk(conf, b, bufs, disk, t, op)
  {
  }

  lemma FetchOpsFrame(conf: Conf, a: F.State, b: F.State, bufs: map<nat, map<nat, Val>>,
                      fops: map<nat, FetchOp>, fops': map<nat, FetchOp>, disk: seq<Cell>, s: nat)
    requires ConfOk(conf) && |disk| == |conf.stripe| && OthersKept(a, b, s)
    requires FetchOpsOk(conf, a, bufs, fops, disk)
    requires forall t | t != s :: (t in fops <==> t in fops') && (t in fops ==> fops'[t] == fops[t])
    requires s in fops' <==> s in b.writing
    requires s in fops' ==> FetchOpOk(conf, b, bufs, disk, s, fops'[s])
    ensures FetchOpsOk(conf, b, bufs, fops', disk)
  {
    hide FetchOpOk;
    forall t | t in fops' ensures FetchOpOk(conf, b, bufs, disk, t, fops'[t]) {
      if t != s {
        FetchOpFrame(conf, a, b, bufs, disk, s, t, fops[t]);
      }
    }
    assert fops'.Keys == b.writing;
  }

  lemma RequestInv(g: G, s: nat)
    requires Inv(g) && s < |g.conf.src|
    ensures Inv(g.(fe := F.Request(g.fe, g.w.shared, s)))
  {
    hide WorldOk, SectorsOk, ChansOk, FetchOpsOk, F.QueueValid, BP.BuffersValid, F.RetriesValid;
    F.RequestValid(g.fe, g.w.shared, s, |g.conf.src|);
    PublishedDone(g.conf, g.w, g.done, s);
    var fe := F.Request(g.fe, g.w.shared, s);
    if fe != g.fe {
      assert !F.InFlight(g.fe.phases, s) && s !in g.fe.writing;
      assert s !in g.fops by { assert FetchOpsOk(g.conf, g.fe, g.bufs, g.fops, g.disk); FetchOpsKeys(g); }
      FetchesAfter(g.conf, g.fe, fe, g.done, g.w.shared, g.w.shared, s);
      FetchOpsFrame(g.conf, g.fe, fe, g.bufs, g.fops, g.fops, g.disk, s);
    }
  }

  lemma FetchOpsKeys(g: G)
    requires Inv(g)
    ensures g.fops.Keys == g.fe.writing
  {
    hide WorldOk, SectorsOk, ChansOk, F.Valid, FetchesOk, FetchOpOk;
  }

  lemma WorkerInv(g: G, step: Step)
    requires Inv(g) && (step.Receive? || step.Autofetch? || step.HandOver?) && Enabled(g, step)
    ensures Inv(DoWorker(g, step))
  {
    hide FR.FetchedWithin, FC.Inv, SectorsOk, ChansOk, FetchOpsOk, FetchesOk, F.QueueValid, BP.BuffersValid,
         F.RetriesValid, F.FlightsValid;
    match step
    case Receive =>
      var m := g.msgs[0];
      assert m in g.msgs;
      match m {
        case Fetch(s) => RequestInv(g, s);
        case SetWritten(s) => AskInv(g, FL.Request(s, WrittenBit));
        case Shutdown =>
      }
    case Autofetch =>
      if g.fe.autofetch && g.fe.queue == [] && g.fe.autoQueue != [] {
        F.AutofetchValid(g.fe, g.w.shared, |g.conf.src|);
        var g1 := g.(fe := g.fe.(autoQueue := g.fe.autoQueue[1..]));
        SameFetches(g, g1.fe);
        RequestInv(g1, g.fe.autoQueue[0]);
      }
    case HandOver =>
      var (s, ok) := g.fe.finished[0];
      assert (s, ok) in g.fe.finished;
      var g1 := g.(fe := g.fe.(finished := g.fe.finished[1..]));
      SameFetches(g, g1.fe);
      if ok {
        FinishedDone(g, s);
        AskInv(g1, FL.Request(s, FetchedBit));
      }
  }

  lemma FinishedDone(g: G, s: nat)
    requires Inv(g) && (s, true) in g.fe.finished
    ensures s in g.done
  {
    hide WorldOk, F.Valid, SectorsOk, ChansOk, FetchOpsOk;
  }

  /** The queues of wishes and of results may shrink at any time. */
  lemma SameFetches(g: G, fe: F.State)
    requires Inv(g) && fe == g.fe.(autoQueue := fe.autoQueue, finished := fe.finished)
    requires (forall s | s in fe.autoQueue :: s in g.fe.autoQueue) && forall f | f in fe.finished :: f in g.fe.finished
    ensures Inv(g.(fe := fe))
  {
    hide WorldOk, SectorsOk, ChansOk, F.QueueValid, BP.BuffersValid, F.RetriesValid, F.FlightsValid;
  }

  /** What has to be shown of a step of the fetcher that does not touch the disks. */
  lemma FetcherInv(g: G, fe: F.State, w: FC.World, fops: map<nat, FetchOp>)
    requires Inv(g) && F.Valid(fe, |g.conf.src|)
    requires WorldOk(g.conf, w, g.done) && Grows(g.w.shared, w.shared) && SamePublished(g.w.shared, w.shared)
    requires FetchesOk(g.conf, fe, g.done, w.shared)
    requires FetchOpsOk(g.conf, fe, g.bufs, fops, g.disk)
    ensures Inv(g.(fe := fe, w := w, fops := fops))
  {
    hide WorldOk, F.Valid, SectorsOk, ChansOk, FetchOpsOk, FetchesOk, Grows, SamePublished;
    QuietWorldInv(g, w);
  }

  /** The attempt on s has moved on without success; s may be tried again, or was given up. */
  ghost predicate MovedOn(a: F.State, b: F.State, s: nat) {
    && OthersKept(a, b, s)
    && !F.InPhase(b.phases, s, F.FetchedPhase)
    && forall f | f in b.finished && f.1 :: f in a.finished
  }

  lemma MovedOnInv(g: G, fe: F.State, s: nat, fops: map<nat, FetchOp>)
    requires Inv(g) && F.Valid(fe, |g.conf.src|) && F.Active(g.fe.phases, s) && MovedOn(g.fe, fe, s)
    requires forall t | t != s :: (t in fops <==> t in g.fops) && (t in fops ==> fops[t] == g.fops[t])
    requires s in fops <==> s in fe.writing
    requires s in fops ==> FetchOpOk(g.conf, fe, g.bufs, g.disk, s, fops[s])
    ensures s < |g.conf.src| && Inv(g.(fe := fe, w := Marked(g.w, g.fe, fe, s), fops := fops))
  {
    hide WorldOk, F.Valid, SectorsOk, ChansOk, FetchOpsOk, FetchOpOk, Grows, SamePublished, Marked;
    MarkedWorld(g, fe, s);
    var w := Marked(g.w, g.fe, fe, s);
    GrowsSizes(g.w.shared, w.shared);
    FetchesAfter(g.conf, g.fe, fe, g.done, g.w.shared, w.shared, s);
    FetchOpsFrame(g.conf, g.fe, fe, g.bufs, g.fops, fops, g.disk, s);
    FetcherInv(g, fe, w, fops);
  }

  lemma GrowsSizes(a: Shared, b: Shared)
    requires Grows(a, b)
    ensures |a.fetch| == |b.fetch| && |a.written| == |b.written|
  {
  }

  lemma CompletedMovedOn(fe: F.State, s: nat)
    requires s in fe.buffers ==> fe.pool.Holds(fe.buffers[s])
    ensures MovedOn(fe, F.Completed(fe, s, false), s)
  {
  }

  lemma HeadIdle(fe: F.State, n: nat)
    requires F.Valid(fe, n) && F.CanStart(fe)
    ensures F.InPhase(fe.phases, fe.queue[0], F.QueuedPhase) && fe.queue[0] !in fe.writing
  {
    hide BP.BuffersValid, F.RetriesValid;
    F.QueuePopped(fe.queue, fe.phases);
  }

  lemma StartMovedOn(fe: F.State, n: nat, accepted: bool)
    requires F.Valid(fe, n) && F.CanStart(fe)
    ensures MovedOn(fe, F.StartOne(fe, accepted), fe.queue[0])
    ensures F.Active(fe.phases, fe.queue[0])
    ensures fe.queue[0] !in fe.writing && fe.queue[0] !in F.StartOne(fe, accepted).writing
  {
    hide F.Completed, F.QueueValid, BP.BuffersValid, F.RetriesValid, F.FlightsValid;
    var s := fe.queue[0];
    HeadIdle(fe, n);
    F.AllocatedFacts(fe, n);
    if !accepted {
      CompletedMovedOn(F.Allocated(fe), s);
      CompletedWriting(F.Allocated(fe), s);
    }
  }

  lemma CompletedWriting(fe: F.State, s: nat)
    requires s in fe.buffers ==> fe.pool.Holds(fe.buffers[s])
    ensures F.Completed(fe, s, false).writing == fe.writing && F.Completed(fe, s, false).reading == fe.reading
  {
  }

  lemma StartInv(g: G, step: Step)
    requires Inv(g) && step.StartFetch? && Enabled(g, step)
    ensures Inv(DoFetch(g, step))
  {
    hide WorldOk, SectorsOk, ChansOk, FetchOpsOk, FetchesOk, MovedOn, F.StartOne, Marked;
    hide F.QueueValid, BP.BuffersValid, F.RetriesValid, F.FlightsValid;
    var s, fe := g.fe.queue[0], F.StartOne(g.fe, step.accepted);
    StartMovedOn(g.fe, |g.conf.src|, step.accepted);
    F.StartValid(g.fe, step.accepted, |g.conf.src|);
    FetchOpsKeys(g);
    MovedOnInv(g, fe, s, g.fops);
  }

  lemma SourceMovedOn(fe: F.State, n: nat, s: nat, ok: bool, submitted: bool)
    requires F.Valid(fe, n) && s in fe.reading
    ensures s in fe.buffers && fe.pool.Holds(fe.buffers[s])
    ensures var after := F.SourceDone(fe, s, ok, submitted);
            && MovedOn(fe, after, s)
            && (s in after.writing <==> ok && submitted)
            && (ok && submitted ==> after.phases == fe.phases && after.buffers == fe.buffers)
    ensures F.InPhase(fe.phases, s, F.FetchingPhase) && s !in fe.writing
  {
    hide F.Completed, F.QueueValid, F.RetriesValid;
    FX.InFlightHasBuffer(fe, n, s);
    var r := fe.(reading := fe.reading - {s});
    CompletedMovedOn(r, s);
    CompletedWriting(r, s);
    assert s !in fe.writing;
    assert F.InPhase(fe.phases, s, F.FetchingPhase);
  }

  lemma SourceDoneInv(g: G, step: Step)
    requires Inv(g) && step.SourceDone? && Enabled(g, step)
    ensures Inv(DoFetch(g, step))
  {
    hide WorldOk, SectorsOk, ChansOk, FetchOpsOk, FetchesOk, MovedOn, F.SourceDone, Marked, F.Valid;
    var s, n := step.s, |g.conf.src|;
    SourceMovedOn(g.fe, n, s, step.ok, step.submitted);
    var fe := F.SourceDone(g.fe, s, step.ok, step.submitted);
    F.SourceDoneValid(g.fe, s, step.ok, step.submitted, n);
    FetchOpsKeys(g);
    MovedOnInv(g, fe, s, if step.ok && step.submitted then g.fops[s := Copying(map[])] else g.fops);
  }

  /** Filling a buffer for one stripe does not disturb the buffers of others. */
  lemma FillInv(g: G, step: Step)
    requires Inv(g) && step.Fill? && Enabled(g, step)
    ensures Inv(DoFetch(g, step))
  {
    hide WorldOk, SectorsOk, ChansOk, FetchesOk, F.QueueValid, F.RetriesValid;
    FX.InFlightHasBuffer(g.fe, |g.conf.src|, step.s);
    var g' := DoFetch(g, step);
    forall t | t in g.fops ensures FetchOpOk(g.conf, g.fe, g'.bufs, g.disk, t, g.fops[t]) {
      assert FetchOpOk(g.conf, g.fe, g.bufs, g.disk, t, g.fops[t]);
      if g.fops[t].Copying? {
        assert g.fe.buffers[t] != g.fe.buffers[step.s];
        assert forall j :: BufAt(g'.bufs, g.fe.buffers[t], j) == BufAt(g.bufs, g.fe.buffers[t], j);
      }
    }
  }
}
