/** What the lazy device promises, over every run. */
module ProtocolTheorems {
  import opened Disk
  import opened Metadata
  import opened Mirror
  import opened Protocol
  import opened ProtocolGuest
  import opened ProtocolDevice
  import opened ProtocolFetch
  import opened ProtocolCopy
  import opened ProtocolCrash
  import opened ProtocolRuns
  import F = Fetcher
  import FC = FlusherCrash
  import FR = FlusherRuns
  import LC = LazyChannel
  import LR = LazyChannelRuns

  // ----- the reference really is a plain disk -----

  /** What may happen to a plain disk: a guest's write reaches one sector; a write or a flush of the
      guest is acknowledged; a crash leaves a value that is not older than the durable one. Publishing
      a stripe, by the flusher or by a crash that keeps its record, defines undefined sectors. */
  ghost predicate PlainStep(g: G, step: Step, plain: seq<Cell>)
    requires Inv(g) && Enabled(g, step)
  {
    && |plain| == |g.plain|
    && match step
       case WriteSector(c, id, k) =>
         var op := OpAt(g, c, id);
         k < |plain| && plain == g.plain[k := g.plain[k].Apply(op.data[k - op.off])]
       case BaseDone(c, id, ok) =>
         var op := OpAt(g, c, id);
         if ok && op.WriteOp? then plain == AckAll(g.plain, op.reference)
         else if ok && op.FlushOp? then |op.referenceCovers| == |plain|
             && plain == HardenAll(g.plain, op.referenceCovers)
         else plain == g.plain
       case Crash(_, _, _, _) =>
         forall k: nat | k < |plain| :: CrashOutcome(g.plain[k], plain[k]) || BecomesDefined(g, k, plain[k])
       case Meta(_) => forall k: nat | k < |plain| :: plain[k] == g.plain[k] || BecomesDefined(g, k, plain[k])
       case _ => plain == g.plain
  }

  ghost predicate CrashOutcome(before: Cell, after: Cell) {
    exists j: nat :: before.durable <= j < |before.hist| && after == before.Crash(j)
  }

  /** The sector had no defined contents; now it has some, and they are durable. */
  predicate BecomesDefined(g: G, k: nat, after: Cell) {
    Undefined(g, k) && |after.hist| == 1 && after.Valid()
  }

  predicate Undefined(g: G, k: nat) {
    Shapes(g.conf, g.w.shared, g.disk, g.plain) && k < |g.plain| && !Defined(g.conf, g.w.shared, k)
  }

  lemma CrashIsPlain(g: G, step: Step)
    requires Inv(g) && Enabled(g, step) && step.Crash?
    ensures PlainStep(g, step, Next(g, step).plain)
  {
    hide FC.Inv, FR.FetchedWithin, F.Valid, FetchesOk, ChansOk, FetchOpsOk, SectorsOk, CorrespondingAt, FC.NewWorld,
         FR.Reloaded;
    var plain := Next(g, step).plain;
    forall k: nat | k < |g.plain| ensures CrashOutcome(g.plain[k], plain[k]) || BecomesDefined(g, k, plain[k]) {
      CrashedSector(g, step.picks, step.images, k);
      if !Undefined(g, k) {
        assert plain[k] == g.plain[k].Crash(CorrespondingAt(g, step.picks, k));
      }
    }
  }

  lemma DevicePlain(g: G, step: Step)
    requires Inv(g) && Enabled(g, step) && DeviceStep(step)
    ensures PlainStep(g, step, Next(g, step).plain)
  {
    hide WorldOk, F.Valid, FetchesOk, SectorsOk, FetchOpsOk, ChansOk, AckAll, HardenAll;
    LiveOpOk(g, step.c, step.id);
  }

  lemma MetaPlain(g: G, step: Step)
    requires Inv(g) && Enabled(g, step) && step.Meta?
    ensures PlainStep(g, step, Next(g, step).plain)
  {
    hide FC.Inv, FR.FetchedWithin, F.Valid, FetchesOk, SectorsOk, FetchOpsOk, ChansOk, FC.Next;
    MetaDefined(g, step);
  }

  lemma OtherPlain(g: G, step: Step)
    requires Inv(g) && Enabled(g, step) && !DeviceStep(step) && !step.Crash? && !step.Meta?
    ensures Next(g, step).plain == g.plain
  {
    hide WorldOk, F.Valid, FetchesOk, SectorsOk, FetchOpsOk, ChansOk, FC.Next;
  }

  lemma PlainEvolves(g: G, step: Step)
    requires Inv(g) && Enabled(g, step)
    ensures PlainStep(g, step, Next(g, step).plain)
  {
    hide Inv, Enabled;
    if step.Crash? {
      CrashIsPlain(g, step);
    } else if DeviceStep(step) {
      DevicePlain(g, step);
    } else if step.Meta? {
      MetaPlain(g, step);
    } else {
      OtherPlain(g, step);
    }
  }

  // ----- linearizable reads -----

  /** The request is at the target and stays there. */
  ghost predicate Persists(g: G, run: seq<Step>, c: nat, id: nat)
    requires Inv(g) && Legal(g, run)
    decreases |run|
  {
    && LiveOp(g, c, id)
    && (run != [] ==> (NextInv(g, run[0]); Persists(Next(g, run[0]), run[1..], c, id)))
  }

  /** At some moment of the run the plain disk held this value. */
  ghost predicate HeldAtSomeMoment(g: G, run: seq<Step>, k: nat, v: Val)
    requires Inv(g) && Legal(g, run) && k < |g.plain|
    decreases |run|
  {
    || (g.plain[k].Valid() && g.plain[k].Current() == v)
    || (run != [] && (NextInv(g, run[0]); SameSize(g, run[0]); HeldAtSomeMoment(Next(g, run[0]), run[1..], k, v)))
  }

  lemma SameSize(g: G, step: Step)
    requires Inv(g) && Enabled(g, step)
    ensures |Next(g, step).plain| == |g.plain| && Next(g, step).conf == g.conf
  {
    hide Inv, Enabled, OpOk;
    PlainEvolves(g, step);
    SameConf(g, step);
  }

  lemma SameConf(g: G, step: Step)
    requires Inv(g) && Enabled(g, step)
    ensures Next(g, step).conf == g.conf
  {
    hide WorldOk, F.Valid, FetchesOk, SectorsOk, FetchOpsOk, ChansOk, FC.Next;
  }

  /** What one step does to a request that stays at the target: reading a sector returns what the
      plain disk holds. */
  lemma ReadStep(g: G, step: Step, c: nat, id: nat, k: nat)
    requires Inv(g) && Enabled(g, step) && LiveOp(g, c, id) && LiveOp(Next(g, step), c, id)
    requires OpAt(g, c, id).ReadOp? && k < |g.conf.stripe|
    ensures OpAt(Next(g, step), c, id).ReadOp?
    ensures k in OpAt(Next(g, step), c, id).got ==>
              || (k in OpAt(g, c, id).got && OpAt(g, c, id).got[k] == OpAt(Next(g, step), c, id).got[k])
              || (g.plain[k].Valid() && OpAt(Next(g, step), c, id).got[k] == g.plain[k].Current())
  {
    hide Inv, Enabled, DoGuest, DoDevice, LiveOp, OpAt;
    if GuestStep(step) {
      GuestKeepsOp(g, step, c, id);
    } else if DeviceStep(step) {
      DeviceReads(g, step, c, id, k);
    } else {
      OthersKeepOp(g, step, c, id);
    }
  }

  lemma OthersKeepOp(g: G, step: Step, c: nat, id: nat)
    requires Inv(g) && Enabled(g, step) && !GuestStep(step) && !DeviceStep(step)
    requires LiveOp(g, c, id) && LiveOp(Next(g, step), c, id)
    ensures OpAt(Next(g, step), c, id) == OpAt(g, c, id)
  {
    hide FC.Inv, FR.FetchedWithin, F.Valid, FetchesOk, SectorsOk, FetchOpsOk, ChansOk, FC.Next, CorrespondingAt,
         FC.NewWorld, FR.Reloaded;
  }

  lemma GuestKeepsOp(g: G, step: Step, c: nat, id: nat)
    requires Inv(g) && Enabled(g, step) && GuestStep(step) && LiveOp(g, c, id) && LiveOp(DoGuest(g, step), c, id)
    ensures OpAt(DoGuest(g, step), c, id) == OpAt(g, c, id)
  {
    hide WorldOk, F.Valid, FetchesOk, SectorsOk, FetchOpsOk, OpOk, LC.RouteOf, LC.FateOf, LC.FetchesFrom, LC.ToMark;
    assert ChanOk(g.conf, g.w.shared, g.disk, g.plain, g.chans[c]);
    assert LR.Held(g.chans[c], id) <= 1;
  }

  lemma DeviceReads(g: G, step: Step, c: nat, id: nat, k: nat)
    requires Inv(g) && Enabled(g, step) && DeviceStep(step) && LiveOp(g, c, id) && LiveOp(DoDevice(g, step), c, id)
    requires OpAt(g, c, id).ReadOp? && k < |g.conf.stripe|
    ensures var op, op' := OpAt(g, c, id), OpAt(DoDevice(g, step), c, id);
            && op'.ReadOp?
            && (k in op'.got ==> || (k in op.got && op.got[k] == op'.got[k])
                                 || (g.plain[k].Valid() && op'.got[k] == g.plain[k].Current()))
  {
    hide WorldOk, F.Valid, FetchesOk, SectorsOk, FetchOpsOk, ChansOk, OpOk;
    if step == ReadSector(c, id, k) {
      LiveOpTouches(g, c, id, k);
      PublishedAligned(g, k);
      ReadsPlain(g.disk[k], g.plain[k]);
    }
  }

  /** Over every interleaving: each sector that a read at the target returns was held by the plain
      disk at some moment while the read was there. */
  lemma {:induction false} LinearizableRead(g: G, run: seq<Step>, c: nat, id: nat, k: nat)
    requires Inv(g) && Legal(g, run) && Persists(g, run, c, id)
    requires OpAt(g, c, id).ReadOp? && k < |g.conf.stripe|
    ensures LiveOp(Final(g, run), c, id) && OpAt(Final(g, run), c, id).ReadOp? && k < |g.plain|
    ensures k in OpAt(Final(g, run), c, id).got ==>
              || (k in OpAt(g, c, id).got && OpAt(g, c, id).got[k] == OpAt(Final(g, run), c, id).got[k])
              || HeldAtSomeMoment(g, run, k, OpAt(Final(g, run), c, id).got[k])
    decreases |run|
  {
    assert k < |g.plain| by { hide WorldOk, F.Valid, FetchesOk, SectorsOk, FetchOpsOk, ChansOk; }
    hide Inv, Enabled, Next;
    if run != [] {
      NextInv(g, run[0]);
      SameSize(g, run[0]);
      var g' := Next(g, run[0]);
      assert LiveOp(g', c, id);
      ReadStep(g, run[0], c, id, k);
      LinearizableRead(g', run[1..], c, id, k);
    }
  }

  /** A read that was just dispatched and has been served: every sector of it. */
  lemma ServedReadIsLinearizable(g: G, run: seq<Step>, c: nat, id: nat, k: nat)
    requires Inv(g) && Legal(g, run) && Persists(g, run, c, id)
    requires OpAt(g, c, id).ReadOp? && OpAt(g, c, id).got == map[]
    requires k < |g.conf.stripe|
    requires LiveOp(Final(g, run), c, id) && Served(OpAt(Final(g, run), c, id)) && OpAt(Final(g, run), c, id).Touches(k)
    ensures k < |g.plain| && OpAt(Final(g, run), c, id).ReadOp? && k in OpAt(Final(g, run), c, id).got
    ensures HeldAtSomeMoment(g, run, k, OpAt(Final(g, run), c, id).got[k])
  {
    hide Inv, Legal, Final, Persists, HeldAtSomeMoment;
    LinearizableRead(g, run, c, id, k);
  }

  /** The image serves reads of one stripe that is not fetched; then the plain sector is untouched. */
  lemma ImageReadAtAdd(g: G, c: nat, rw: LC.RW, room: nat, k: nat)
    requires Inv(g) && Enabled(g, Add(c, rw, room)) && rw.last < |g.w.shared.fetch| == |g.w.shared.written|
    requires LC.RouteOf(g.chans[c], g.w.shared, rw) == LC.ToImage
    requires rw.off <= k < rw.off + rw.cnt && k < |g.conf.source|
    ensures k < |g.plain| && g.plain[k].Valid() && g.plain[k].Current() == g.conf.source[k]
  {
    hide WorldOk, F.Valid, FetchesOk, FetchOpsOk, ChansOk, Aligned;
    RequestInRange(g.conf, rw);
    assert OneSectorOk(g.conf, g.w.shared, g.done, g.disk[k], g.plain[k], k);
    PublishedDone(g.conf, g.w, g.done, g.conf.stripe[k]);
  }

  lemma {:induction false} RunConf(g: G, run: seq<Step>)
    requires Inv(g) && Legal(g, run)
    ensures Final(g, run).conf == g.conf
    decreases |run|
  {
    hide Inv, Enabled, Next;
    if run != [] {
      NextInv(g, run[0]);
      SameConf(g, run[0]);
      RunConf(Next(g, run[0]), run[1..]);
    }
  }

  /** Whatever happens after a read was handed to the image, what it returns for a sector is what the
      plain disk held when the read was added. */
  lemma ImageReadIsLinearizable(g: G, c: nat, rw: LC.RW, room: nat, run: seq<Step>, k: nat)
    requires Inv(g) && Legal(g, [Add(c, rw, room)] + run) && Enabled(g, Add(c, rw, room))
    requires rw.last < |g.w.shared.fetch| == |g.w.shared.written|
             && LC.RouteOf(g.chans[c], g.w.shared, rw) == LC.ToImage
    requires var end := Final(g, [Add(c, rw, room)] + run);
             && c < |end.chans| && rw.id in end.chans[c].image.live && rw.off <= k < rw.off + rw.cnt
             && end.chans[c].image.live[rw.id].ReadOp? && k in end.chans[c].image.live[rw.id].got
    ensures k < |g.plain| && g.plain[k].Valid()
    ensures Final(g, [Add(c, rw, room)] + run).chans[c].image.live[rw.id].got[k] == g.plain[k].Current()
  {
    hide Inv, Legal, Final, Next, Enabled, LC.RouteOf;
    var end := Final(g, [Add(c, rw, room)] + run);
    RunConf(g, [Add(c, rw, room)] + run);
    ImageGot(end, c, rw.id, k);
    ImageReadAtAdd(g, c, rw, room, k);
  }

  lemma ImageGot(g: G, c: nat, id: nat, k: nat)
    requires Inv(g) && c < |g.chans| && id in g.chans[c].image.live
    requires g.chans[c].image.live[id].ReadOp? && k in g.chans[c].image.live[id].got
    ensures k < |g.conf.source| && g.chans[c].image.live[id].got[k] == g.conf.source[k]
  {
    hide WorldOk, F.Valid, FetchesOk, SectorsOk, FetchOpsOk, OpOk;
    assert ChanOk(g.conf, g.w.shared, g.disk, g.plain, g.chans[c]);
  }

  // ----- no guest write is overwritten by a fetch -----

  /** Publication survives every step, including a crash. */
  lemma PublishedKept(g: G, step: Step, s: nat)
    requires Inv(g) && Enabled(g, step) && s < |g.w.shared.fetch| && g.w.shared.FetchedIfNeeded(s)
    ensures s < |Next(g, step).w.shared.fetch| && Next(g, step).w.shared.FetchedIfNeeded(s)
  {
    hide Inv, Enabled, DoFetch, DoCopy;
    if FetchStep(step) {
      FetchPublished(g, step, s);
    } else if CopyStep(step) {
      CopyPublished(g, step, s);
    } else if step.Crash? {
      CrashPublished(g, step, s);
    } else {
      WorldPublished(g, step, s);
    }
  }

  lemma ActiveUnpublished(g: G, s: nat)
    requires Inv(g) && F.Active(g.fe.phases, s)
    ensures s < |g.conf.src| && s < |g.w.shared.fetch| && !g.w.shared.FetchedIfNeeded(s)
  {
    hide FC.Inv, FR.FetchedWithin, F.Valid, SectorsOk, FetchOpsOk, ChansOk;
    PublishedDone(g.conf, g.w, g.done, s);
  }

  lemma FetchPublished(g: G, step: Step, s: nat)
    requires Inv(g) && Enabled(g, step) && FetchStep(step) && s < |g.w.shared.fetch| && g.w.shared.FetchedIfNeeded(s)
    ensures s < |DoFetch(g, step).w.shared.fetch| && DoFetch(g, step).w.shared.FetchedIfNeeded(s)
  {
    hide WorldOk, F.Valid, FetchesOk, SectorsOk, FetchOpsOk, ChansOk, F.StartOne, F.SourceDone, F.GivesUp, MovedOn;
    match step
    case StartFetch(accepted) =>
      StartMovedOn(g.fe, |g.conf.src|, accepted);
      ActiveUnpublished(g, g.fe.queue[0]);
    case SourceDone(t, ok, submitted) =>
      SourceMovedOn(g.fe, |g.conf.src|, t, ok, submitted);
      ActiveUnpublished(g, t);
    case Fill(_, _, _) =>
  }

  lemma CopyPublished(g: G, step: Step, s: nat)
    requires Inv(g) && Enabled(g, step) && CopyStep(step) && s < |g.w.shared.fetch| && g.w.shared.FetchedIfNeeded(s)
    ensures s < |DoCopy(g, step).w.shared.fetch| && DoCopy(g, step).w.shared.FetchedIfNeeded(s)
  {
    hide WorldOk, F.Valid, FetchesOk, SectorsOk, FetchOpsOk, ChansOk, F.TargetDone, F.GivesUp, AckAll, HardenAll;
    SyncingActive(g, step.s);
    ActiveUnpublished(g, step.s);
  }

  lemma CrashPublished(g: G, step: Step, s: nat)
    requires Inv(g) && Enabled(g, step) && step.Crash? && s < |g.w.shared.fetch| && g.w.shared.FetchedIfNeeded(s)
    ensures s < |Next(g, step).w.shared.fetch| && Next(g, step).w.shared.FetchedIfNeeded(s)
  {
    hide FC.Inv, FR.FetchedWithin, F.Valid, FetchesOk, SectorsOk, FetchOpsOk, ChansOk, CorrespondingAt, FR.Reloaded;
    ReloadedHeader(g.conf, g.w, g.done, step.images, s);
  }

  lemma WorldPublished(g: G, step: Step, s: nat)
    requires Inv(g) && Enabled(g, step) && s < |g.w.shared.fetch| && g.w.shared.FetchedIfNeeded(s)
    requires !FetchStep(step) && !CopyStep(step) && !step.Crash?
    ensures s < |Next(g, step).w.shared.fetch| && Next(g, step).w.shared.FetchedIfNeeded(s)
  {
    hide FC.Inv, FR.FetchedWithin, F.Valid, FetchesOk, SectorsOk, FetchOpsOk, ChansOk;
    if step.Meta? {
      MetaDefined(g, step);
      NextGrows(g.w, step.e);
    }
  }

  lemma {:induction false} PublishedForever(g: G, run: seq<Step>, s: nat)
    requires Inv(g) && Legal(g, run) && s < |g.w.shared.fetch| && g.w.shared.FetchedIfNeeded(s)
    ensures s < |Final(g, run).w.shared.fetch| && Final(g, run).w.shared.FetchedIfNeeded(s)
    decreases |run|
  {
    hide Inv, Enabled, Next;
    if run != [] {
      NextInv(g, run[0]);
      PublishedKept(g, run[0], s);
      PublishedForever(Next(g, run[0]), run[1..], s);
    }
  }

  /** Once a guest request to a stripe was handed to the target, on every run from there, crashes
      and restarts included, the fetcher never again has an operation for that stripe. */
  lemma NoFetchAfterGuest(g: G, c: nat, id: nat, k: nat, run: seq<Step>)
    requires Inv(g) && LiveOp(g, c, id) && OpAt(g, c, id).Touches(k) && Legal(g, run)
    ensures k < |g.conf.stripe| && g.conf.stripe[k] !in Final(g, run).fops
    ensures !F.Active(Final(g, run).fe.phases, g.conf.stripe[k])
  {
    hide Legal, Final, Inv, Next;
    LiveOpTouches(g, c, id, k);
    var s := g.conf.stripe[k];
    PublishedForever(g, run, s);
    var end := Final(g, run);
    if F.Active(end.fe.phases, s) {
      ActiveUnpublished(end, s);
      assert false;
    }
    if s in end.fops {
      SyncingActive(end, s);
      assert false;
    }
  }

  // ----- crash safety -----

  /** If any image that the metadata may hold after a crash says FETCHED, then every value that the
      target may hold after it is what the plain disk may hold: the source's, or written by the guest.
      Only a sector that the source does not reach and no guest has seen yet may hold anything. */
  lemma CrashKeepsData(g: G, k: nat, img: seq<Header>, i: nat)
    requires Inv(g) && k < |g.conf.stripe|
    requires GroupOf(g.conf.stripe[k]) < |g.w.disk.images| && img in g.w.disk.images[GroupOf(g.conf.stripe[k])]
    requires Slot(g.conf.stripe[k]) < |img| && img[Slot(g.conf.stripe[k])].fetched
    requires g.disk[k].durable <= i < |g.disk[k].hist|
    ensures var j := i - (|g.disk[k].hist| - |g.plain[k].hist|);
            && g.plain[k].durable <= j < |g.plain[k].hist|
            && (Defined(g.conf, g.w.shared, k) || j > 0 ==> g.disk[k].hist[i] == g.plain[k].hist[j])
  {
    hide F.Valid, FetchOpsOk, ChansOk, FetchesOk, FC.HeadersAgree, FC.ImagesShaped, FC.PublishedDurable, FC.StagesAgree;
    assert g.conf.stripe[k] in g.done;
    assert OneSectorOk(g.conf, g.w.shared, g.done, g.disk[k], g.plain[k], k);
  }

  /** With tracking on, a write at the target touches only stripes whose WRITTEN bit is in every
      image that the metadata may hold after a crash. */
  lemma WriteAhead(g: G, c: nat, id: nat, k: nat)
    requires Inv(g) && LiveOp(g, c, id) && OpAt(g, c, id).WriteOp? && OpAt(g, c, id).Touches(k)
             && g.chans[c].trackWritten
    ensures k < |g.conf.stripe| && GroupOf(g.conf.stripe[k]) < |g.w.disk.images|
    ensures FC.Durable(g.w.disk, g.conf.stripe[k], WrittenBit)
  {
    hide F.Valid, FetchOpsOk, ChansOk, FetchesOk, SectorsOk, FC.HeadersAgree, FC.ImagesShaped, FC.StagesAgree,
         FC.Durable, FR.FetchedWithin;
    LiveOpTouches(g, c, id, k);
    LiveOpOk(g, c, id);
    assert g.w.shared.Shows(g.conf.stripe[k], WrittenBit);
  }

  /** Every published FETCHED or WRITTEN bit is in every image the metadata may hold after a crash. */
  lemma PublishedIsDurable(g: G, s: nat, b: Bit)
    requires Inv(g) && s < |g.w.shared.fetch| == |g.w.shared.written| && g.w.shared.Shows(s, b)
    ensures GroupOf(s) < |g.w.disk.images| && FC.Durable(g.w.disk, s, b)
  {
    hide F.Valid, FetchOpsOk, ChansOk, FetchesOk, SectorsOk, FC.HeadersAgree, FC.ImagesShaped, FC.StagesAgree,
         FC.Durable, FR.FetchedWithin;
  }

  // ----- the source is released only when it is not needed any more -----

  lemma MetaCounted(conf: Conf, w: FC.World, done: set<nat>, e: FC.Event)
    requires WorldOk(conf, w, done) && FC.Enabled(w, e) && w.shared.Counted()
    requires forall s | s in done :: s < |conf.src| && conf.src[s]
    ensures FC.Next(w, e).shared.Counted()
  {
    hide FC.ImagesShaped, FC.PublishedDurable, FC.StagesAgree, Count;
    match e
    case Flushed(s) =>
      assert FC.HeaderAgrees(w, s);
      SetHeaderCounted(w.shared, s, w.fl.updates[s].header);
    case MarkFailed(s) => SetFailedCounted(w.shared, s);
    case _ =>
  }

  lemma MarkedCounted(g: G, after: F.State, s: nat)
    requires Inv(g) && F.Active(g.fe.phases, s) && s < |g.w.shared.fetch| && g.w.shared.Counted()
    ensures Marked(g.w, g.fe, after, s).shared.Counted()
  {
    hide WorldOk, F.Valid, FetchesOk, SectorsOk, FetchOpsOk, ChansOk, Count;
    ActiveUnpublished(g, s);
    SetFailedCounted(g.w.shared, s);
  }

  lemma FetchCounted(g: G, step: Step)
    requires Inv(g) && Enabled(g, step) && FetchStep(step) && g.w.shared.Counted()
    ensures DoFetch(g, step).w.shared.Counted()
  {
    hide WorldOk, F.QueueValid, F.RetriesValid, FetchesOk, SectorsOk, FetchOpsOk, ChansOk, F.StartOne, F.SourceDone,
         F.GivesUp, MovedOn, Marked;
    match step
    case StartFetch(accepted) =>
      StartMovedOn(g.fe, |g.conf.src|, accepted);
      ActiveUnpublished(g, g.fe.queue[0]);
      MarkedCounted(g, F.StartOne(g.fe, accepted), g.fe.queue[0]);
    case SourceDone(t, ok, submitted) =>
      SourceMovedOn(g.fe, |g.conf.src|, t, ok, submitted);
      ActiveUnpublished(g, t);
      MarkedCounted(g, F.SourceDone(g.fe, t, ok, submitted), t);
    case Fill(_, _, _) =>
  }

  lemma CopyCounted(g: G, step: Step)
    requires Inv(g) && Enabled(g, step) && CopyStep(step) && g.w.shared.Counted()
    ensures DoCopy(g, step).w.shared.Counted()
  {
    hide WorldOk, F.Valid, FetchesOk, SectorsOk, ChansOk, F.TargetDone, F.GivesUp, AckAll, HardenAll, Marked;
    SyncingActive(g, step.s);
    ActiveUnpublished(g, step.s);
    if step.TargetDone? {
      FailedInv(g, step.s);
      MarkedCounted(g, F.TargetDone(g.fe, step.s, step.ok, step.submitted), step.s);
    }
  }

  lemma CrashCounted(g: G, step: Step)
    requires Inv(g) && Enabled(g, step) && step.Crash?
    ensures Next(g, step).w.shared.Counted()
  {
    hide FC.Inv, FR.FetchedWithin, F.Valid, FetchesOk, SectorsOk, FetchOpsOk, ChansOk, CorrespondingAt, FR.Reloaded;
    var headers := FR.Reloaded(g.w, step.images);
    forall h | h in headers ensures h.fetched ==> h.hasSource {
      var s :| 0 <= s < |headers| && headers[s] == h;
      ReloadedLength(g, step.images);
      ReloadedHeader(g.conf, g.w, g.done, step.images, s);
      DoneSourced(g, s);
    }
    NewSharedCounted(headers);
  }

  /** The two counters agree with the table of fetch states in every reachable state. */
  lemma CountedKept(g: G, step: Step)
    requires Inv(g) && Enabled(g, step) && g.w.shared.Counted()
    ensures Next(g, step).w.shared.Counted()
  {
    hide Count, Inv, Enabled, DoFetch, DoCopy;
    if FetchStep(step) {
      FetchCounted(g, step);
    } else if CopyStep(step) {
      CopyCounted(g, step);
    } else if step.Crash? {
      CrashCounted(g, step);
    } else {
      OtherCounted(g, step);
    }
  }

  lemma OtherCounted(g: G, step: Step)
    requires Inv(g) && Enabled(g, step) && g.w.shared.Counted() && !FetchStep(step) && !CopyStep(step) && !step.Crash?
    ensures Next(g, step).w.shared.Counted()
  {
    hide FC.Inv, FR.FetchedWithin, F.Valid, SectorsOk, FetchOpsOk, ChansOk, Count;
    if step.Meta? {
      MetaDefined(g, step);
      MetaCounted(g.conf, g.w, g.done, step.e);
    }
  }

  ghost predicate AllPublished(shared: Shared) {
    forall s: nat | s < |shared.fetch| :: shared.FetchedIfNeeded(s)
  }

  lemma {:induction false} RunCounted(g: G, run: seq<Step>)
    requires Inv(g) && Legal(g, run) && g.w.shared.Counted()
    ensures Final(g, run).w.shared.Counted()
    decreases |run|
  {
    hide Inv, Enabled, Next, Count;
    if run != [] {
      NextInv(g, run[0]);
      CountedKept(g, run[0]);
      RunCounted(Next(g, run[0]), run[1..]);
    }
  }

  /** When the counters meet, the source can be released: from there on, whatever happens, no stripe
      is ever queued for fetching or read from the source again. */
  lemma SourceReleased(g: G, before: seq<Step>, after: seq<Step>)
    requires Inv(g) && Legal(g, before) && g.w.shared.Counted() && Legal(Final(g, before), after)
    requires Final(g, before).w.shared.fetchedCount == Final(g, before).w.shared.sourceCount
    ensures AllPublished(Final(g, before).w.shared)
    ensures var end := Final(Final(g, before), after); end.fe.queue == [] && end.fe.reading == {}
  {
    RunCounted(g, before);
    var mid := Final(g, before);
    forall s: nat | s < |mid.w.shared.fetch| ensures mid.w.shared.FetchedIfNeeded(s) {
      AllFetched(mid.w.shared.fetch, s);
    }
    NothingFetched(mid, after);
  }

  lemma IdleFetcher(fe: F.State, n: nat)
    requires F.Valid(fe, n) && forall s: nat :: !F.Active(fe.phases, s)
    ensures fe.queue == [] && fe.reading == {}
  {
    if fe.reading != {} {
      var s :| s in fe.reading;
      assert F.Active(fe.phases, s);
      assert false;
    }
    if fe.queue != [] {
      assert fe.queue[0] in fe.queue;
      assert F.Active(fe.phases, fe.queue[0]);
      assert false;
    }
  }

  lemma NothingFetched(g: G, run: seq<Step>)
    requires Inv(g) && Legal(g, run) && AllPublished(g.w.shared)
    ensures Final(g, run).fe.queue == [] && Final(g, run).fe.reading == {}
  {
    hide Legal, Final, Next, WorldOk, F.Valid, FetchesOk, SectorsOk, FetchOpsOk, ChansOk, F.Active;
    var end := Final(g, run);
    forall s: nat ensures !F.Active(end.fe.phases, s) {
      if F.Active(end.fe.phases, s) {
        StillActive(g, run, s);
        assert false;
      }
    }
    IdleFetcher(end.fe, |end.conf.src|);
  }

  lemma StillActive(g: G, run: seq<Step>, s: nat)
    requires Inv(g) && Legal(g, run) && F.Active(Final(g, run).fe.phases, s)
    ensures s < |g.w.shared.fetch| && !g.w.shared.FetchedIfNeeded(s)
  {
    ActiveUnpublished(Final(g, run), s);
    RunConf(g, run);
    assert s < |g.w.shared.fetch| by { hide WorldOk, F.Valid, FetchesOk, SectorsOk, FetchOpsOk, ChansOk; }
    if g.w.shared.FetchedIfNeeded(s) {
      PublishedForever(g, run, s);
      assert false;
    }
  }
}
