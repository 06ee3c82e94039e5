/** Whole runs of the lazy device, crashes included. */
module ProtocolRuns {
  import opened Disk
  import opened Metadata
  import opened Protocol
  import opened ProtocolGuest
  import opened ProtocolDevice
  import opened ProtocolFetch
  import opened ProtocolCopy
  import opened ProtocolCrash
  import F = Fetcher
  import FX = FetcherRuns
  import FC = FlusherCrash
  import FR = FlusherRuns
  import LC = LazyChannel

  predicate DeviceStep(step: Step) {
    step.ReadSector? || step.WriteSector? || step.BeginFlush? || step.BaseDone?
  }

  predicate ImageStep(step: Step) {
    step.ReadImage? || step.ImageDone?
  }

  predicate WorkerStep(step: Step) {
    step.Receive? || step.Autofetch? || step.HandOver?
  }

  predicate FetchStep(step: Step) {
    step.StartFetch? || step.Fill? || step.SourceDone?
  }

  predicate CopyStep(step: Step) {
    step.CopySector? || step.TargetDone?
  }

  ghost function Next(g: G, step: Step): G
    requires Inv(g) && Enabled(g, step)
  {
    hide Inv, Enabled;
    if GuestStep(step) then DoGuest(g, step)
    else if DeviceStep(step) then DoDevice(g, step)
    else if ImageStep(step) then ImageDefined(g, step); DoImage(g, step)
    else if WorkerStep(step) then DoWorker(g, step)
    else if FetchStep(step) then DoFetch(g, step)
    else if CopyStep(step) then DoCopy(g, step)
    else if step.Meta? then MetaDefined(g, step); DoMeta(g, step.e)
    else DoCrash(g, step)
  }

  lemma ImageDefined(g: G, step: Step)
    requires Inv(g) && ImageStep(step) && Enabled(g, step)
    ensures step.c < |g.chans|
    ensures step.ReadImage? ==> step.id in g.chans[step.c].image.live && step.k < |g.conf.source|
                                && g.chans[step.c].image.live[step.id].ReadOp?
  {
    hide WorldOk, F.Valid, FetchesOk, SectorsOk, FetchOpsOk, OpOk;
    assert ChanOk(g.conf, g.w.shared, g.disk, g.plain, g.chans[step.c]);
  }

  lemma MetaDefined(g: G, step: Step)
    requires Inv(g) && step.Meta? && Enabled(g, step)
    ensures FC.Inv(g.w) && FC.Enabled(g.w, step.e) && !step.e.Ask?
    ensures |FC.Next(g.w, step.e).shared.fetch| == |g.conf.src|
  {
    hide FC.Inv, FR.FetchedWithin, F.Valid, FetchesOk, SectorsOk, FetchOpsOk, ChansOk, FC.Enabled, FC.Next;
    NextGrows(g.w, step.e);
  }

  /** The flusher's event; what it publishes is settled. */
  ghost function DoMeta(g: G, e: FC.Event): G
    requires Inv(g) && FC.Inv(g.w) && FC.Enabled(g.w, e) && |FC.Next(g.w, e).shared.fetch| == |g.conf.src|
  {
    hide FC.Inv, FR.FetchedWithin, F.Valid, FetchesOk, SectorsOk, FetchOpsOk, ChansOk, FC.Enabled, FC.Next;
    var w := FC.Next(g.w, e);
    g.(w := w, plain := Settled(g.conf, g.w.shared, w.shared, g.disk, g.plain))
  }

  /** Every step keeps the invariant. */
  lemma NextInv(g: G, step: Step)
    requires Inv(g) && Enabled(g, step)
    ensures Inv(Next(g, step))
  {
    hide Inv, Enabled;
    if GuestStep(step) {
      GuestInv(g, step);
    } else if DeviceStep(step) {
      DeviceInv(g, step);
    } else if ImageStep(step) {
      ImageInv(g, step);
    } else if WorkerStep(step) {
      WorkerInv(g, step);
    } else if FetchStep(step) {
      FetchInv(g, step);
    } else if CopyStep(step) {
      if step.CopySector? { CopyInv(g, step); } else { TargetDoneInv(g, step); }
    } else if step.Meta? {
      MetaStepInv(g, step);
    } else {
      CrashInv(g, step);
    }
  }

  lemma DeviceInv(g: G, step: Step)
    requires Inv(g) && DeviceStep(step) && Enabled(g, step)
    ensures Inv(DoDevice(g, step))
  {
    hide Inv, Enabled, DoDevice;
    match step
    case ReadSector(_, _, _) => ReadInv(g, step);
    case WriteSector(_, _, _) => WriteInv(g, step);
    case BeginFlush(_, _) => BeginFlushInv(g, step);
    case BaseDone(_, _, _) => BaseDoneInv(g, step);
  }

  lemma FetchInv(g: G, step: Step)
    requires Inv(g) && FetchStep(step) && Enabled(g, step)
    ensures Inv(DoFetch(g, step))
  {
    hide Inv, Enabled, DoFetch;
    match step
    case StartFetch(_) => StartInv(g, step);
    case Fill(_, _, _) => FillInv(g, step);
    case SourceDone(_, _, _) => SourceDoneInv(g, step);
  }

  lemma MetaStepInv(g: G, step: Step)
    requires Inv(g) && step.Meta? && Enabled(g, step)
    ensures FC.Inv(g.w) && FC.Enabled(g.w, step.e) && |FC.Next(g.w, step.e).shared.fetch| == |g.conf.src|
    ensures Inv(DoMeta(g, step.e))
  {
    hide Inv, Enabled, FC.Next, FC.Enabled, Settled;
    MetaDefined(g, step);
    MetaInv(g, step.e);
  }

  // ----- runs -----

  ghost predicate Legal(g: G, run: seq<Step>)
    requires Inv(g)
    decreases |run|
  {
    run != [] ==> Enabled(g, run[0]) && (NextInv(g, run[0]); Legal(Next(g, run[0]), run[1..]))
  }

  /** Every reachable state satisfies the invariant. */
  ghost function Final(g: G, run: seq<Step>): (end: G)
    requires Inv(g) && Legal(g, run)
    ensures Inv(end)
    decreases |run|
  {
    if run == [] then g else NextInv(g, run[0]); Final(Next(g, run[0]), run[1..])
  }

  // ----- a new device -----

  /** The device as it is opened: what the metadata calls fetched is on the target. The plain disk
      holds the source where a stripe is still to be fetched, and the target's own contents elsewhere. */
  ghost function Fresh(conf: Conf, headers: seq<Header>, initial: seq<Val>, channels: seq<(bool, bool)>,
                       autofetch: bool, sourceStripes: nat): G
    requires ConfOk(conf) && |initial| == |conf.stripe| && |headers| == |conf.src|
  {
    G(conf, FC.NewWorld(headers), F.NewState(autofetch, sourceStripes), map[], map[], FetchedIn(headers),
      seq(|initial|, k requires 0 <= k < |initial| => Cell([initial[k]], 0, 0)),
      seq(|initial|, k requires 0 <= k < |initial| =>
        var s := conf.stripe[k];
        Cell([if conf.src[s] && !headers[s].fetched then SourceAt(conf, k) else initial[k]], 0, 0)),
      seq(|channels|, c requires 0 <= c < |channels| => LC.NewState(channels[c].0, channels[c].1)), [])
  }

  lemma FreshInv(conf: Conf, headers: seq<Header>, initial: seq<Val>, channels: seq<(bool, bool)>, autofetch: bool,
                 sourceStripes: nat)
    requires ConfOk(conf) && |initial| == |conf.stripe| && sourceStripes <= |conf.src| == |headers|
    requires forall s: nat | s < |headers| ::
               headers[s].hasSource == conf.src[s] && (headers[s].fetched ==> headers[s].hasSource)
    ensures Inv(Fresh(conf, headers, initial, channels, autofetch, sourceStripes))
  {
    hide WorldOk, F.Valid, FetchOpsOk, FetchesOk, FC.NewWorld;
    NewWorldOk(conf, headers);
    FX.NewStateValid(autofetch, sourceStripes, |conf.src|);
    var g := Fresh(conf, headers, initial, channels, autofetch, sourceStripes);
    NewFetches(conf, g.done, g.w.shared, autofetch, sourceStripes);
    NoFetchOps(conf, autofetch, sourceStripes, g.disk);
    forall k: nat | k < |g.disk| ensures OneSectorOk(conf, g.w.shared, g.done, g.disk[k], g.plain[k], k) {
    }
    forall c: nat | c < |g.chans| ensures ChanOk(conf, g.w.shared, g.disk, g.plain, g.chans[c]) {
    }
  }
}
