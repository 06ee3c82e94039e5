/** No stripe that a guest request waits for is forgotten: over every run it is asked for, being
    fetched, being recorded, or known to have failed, unless its record was dropped by a failed
    metadata write; and a stripe whose record was dropped stays unavailable until the next start. */
module ProtocolWaiting {
  import Disk
  import opened Metadata
  import opened Protocol
  import opened ProtocolGuest
  import opened ProtocolFetch
  import opened ProtocolCopy
  import opened ProtocolRuns
  import opened ProtocolTheorems
  import F = Fetcher
  import FL = Flusher
  import FC = FlusherCrash
  import FR = FlusherRuns
  import FX = FetcherRuns
  import LC = LazyChannel
  import LR = LazyChannelRuns

  // ----- where a stripe may be -----

  /** The fetched stripe is on its way into the metadata. */
  predicate Recording(g: G, s: nat) {
    || (s, true) in g.fe.finished
    || FL.Request(s, FetchedBit) in g.w.fl.queue
    || BeingRecorded(g.w, s)
  }

  predicate BeingRecorded(w: FC.World, s: nat) {
    s in w.fl.updates && w.fl.updates[s].bit == FetchedBit
  }

  predicate Shown(g: G, s: nat) {
    s < |g.w.shared.fetch| && g.w.shared.FetchedIfNeeded(s)
  }

  /** The contents are on the target; dropped: the stripes whose record was given up. */
  predicate Arrived(g: G, dropped: set<nat>, s: nat) {
    Shown(g, s) || Recording(g, s) || s in dropped
  }

  predicate OnItsWay(g: G, dropped: set<nat>, s: nat) {
    || Arrived(g, dropped, s)
    || LC.Fetch(s) in g.msgs
    || F.Active(g.fe.phases, s)
    || (s < |g.w.shared.fetch| && g.w.shared.fetch[s] == Failed)
  }

  /** Every fetched stripe is accounted for. */
  ghost predicate FetchedKnown(g: G, dropped: set<nat>) {
    forall s: nat | F.InPhase(g.fe.phases, s, F.FetchedPhase) :: Arrived(g, dropped, s)
  }

  ghost predicate ChanWaits(g: G, dropped: set<nat>, c: nat)
    requires c < |g.chans|
  {
    && LR.NoLostFetch(g.chans[c].queue, g.chans[c].requested, g.w.shared)
    && forall s | s in g.chans[c].requested :: OnItsWay(g, dropped, s)
  }

  ghost predicate NothingLost(g: G, dropped: set<nat>) {
    FetchedKnown(g, dropped) && forall c: nat | c < |g.chans| :: ChanWaits(g, dropped, c)
  }

  /** The records given up since the last start. */
  function Dropped(g: G, dropped: set<nat>, step: Step): set<nat> {
    if step.Crash? then {}
    else if step.Meta? && step.e.GaveUp? && BeingRecorded(g.w, step.e.stripe) then dropped + {step.e.stripe}
    else dropped
  }

  // ----- one step -----

  /** Nothing that the fetcher holds or has reported disappears, other than by giving up. */
  ghost predicate Progress(a: F.State, b: F.State, s: nat) {
    && (F.Active(a.phases, s) ==>
          F.Active(b.phases, s) || F.GivesUp(a, b, s) || F.InPhase(b.phases, s, F.FetchedPhase))
    && (F.InPhase(b.phases, s, F.FetchedPhase) ==> F.InPhase(a.phases, s, F.FetchedPhase) || (s, true) in b.finished)
    && ((s, true) in a.finished ==> (s, true) in b.finished)
  }

  lemma CompletedProgress(a: F.State, st: F.State, s: nat, success: bool, t: nat)
    requires s in st.buffers && st.pool.Holds(st.buffers[s]) && F.Active(a.phases, s)
    requires st.phases == a.phases && st.finished == a.finished
    ensures Progress(a, F.Completed(st, s, success), t)
  {
  }

  lemma StartProgress(fe: F.State, n: nat, accepted: bool, t: nat)
    requires F.Valid(fe, n) && F.CanStart(fe)
    ensures Progress(fe, F.StartOne(fe, accepted), t)
    ensures t != fe.queue[0] ==> !F.GivesUp(fe, F.StartOne(fe, accepted), t)
  {
    hide F.Completed, F.Valid;
    FX.HeadReady(fe, n);
    StartMovedOn(fe, n, accepted);
    F.AllocatedFacts(fe, n);
    if !accepted {
      CompletedProgress(fe, F.Allocated(fe), fe.queue[0], false, t);
    }
  }

  lemma SourceProgress(fe: F.State, n: nat, s: nat, ok: bool, submitted: bool, t: nat)
    requires F.Valid(fe, n) && s in fe.reading
    ensures s in fe.buffers && fe.pool.Holds(fe.buffers[s])
    ensures Progress(fe, F.SourceDone(fe, s, ok, submitted), t)
    ensures t != s ==> !F.GivesUp(fe, F.SourceDone(fe, s, ok, submitted), t)
  {
    hide F.Completed, F.Valid;
    SourceMovedOn(fe, n, s, ok, submitted);
    CompletedProgress(fe, fe.(reading := fe.reading - {s}), s, false, t);
  }

  lemma TargetProgress(fe: F.State, n: nat, s: nat, ok: bool, submitted: bool, t: nat)
    requires F.Valid(fe, n) && s in fe.writing
    ensures s in fe.buffers && fe.pool.Holds(fe.buffers[s])
    ensures Progress(fe, F.TargetDone(fe, s, ok, submitted), t)
    ensures t != s ==> !F.GivesUp(fe, F.TargetDone(fe, s, ok, submitted), t)
  {
    hide F.Valid;
    FX.InFlightHasBuffer(fe, n, s);
    var r := fe.(writing := fe.writing - {s});
    CompletedProgress(fe, r, s, false, t);
    CompletedProgress(fe, r, s, true, t);
  }

  /** A step of the fetcher that ends the attempt on t, if any: what is on its way stays so. */
  lemma FetcherKeeps(g: G, fe: F.State, t: nat, g': G, dropped: set<nat>, s: nat)
    requires t < |g.w.shared.fetch| && g'.fe == fe && g'.w == Marked(g.w, g.fe, fe, t) && g'.msgs == g.msgs
    requires Progress(g.fe, fe, s) && (s != t ==> !F.GivesUp(g.fe, fe, s))
             && (F.Active(g.fe.phases, t) ==> !Shown(g, t))
    ensures OnItsWay(g, dropped, s) ==> OnItsWay(g', dropped, s)
    ensures Arrived(g, dropped, s) ==> Arrived(g', dropped, s)
    ensures F.InPhase(fe.phases, s, F.FetchedPhase)
            && (F.InPhase(g.fe.phases, s, F.FetchedPhase) ==> Arrived(g, dropped, s))
            ==> Arrived(g', dropped, s)
  {
  }

  ghost predicate Keeps(g: G, g': G, dropped: set<nat>, after: set<nat>, s: nat) {
    && (OnItsWay(g, dropped, s) ==> OnItsWay(g', after, s))
    && (F.InPhase(g'.fe.phases, s, F.FetchedPhase) ==> Arrived(g', after, s))
  }

  lemma FetchKeeps(g: G, step: Step, dropped: set<nat>, s: nat)
    requires Inv(g) && FetchStep(step) && Enabled(g, step) && FetchedKnown(g, dropped)
    ensures Keeps(g, DoFetch(g, step), dropped, dropped, s)
  {
    hide WorldOk, F.Valid, FetchesOk, SectorsOk, FetchOpsOk, ChansOk, F.StartOne, F.SourceDone, F.GivesUp, Marked,
         Progress;
    hide OnItsWay, Arrived;
    assert F.InPhase(g.fe.phases, s, F.FetchedPhase) ==> Arrived(g, dropped, s);
    match step
    case StartFetch(accepted) =>
      FX.HeadReady(g.fe, |g.conf.src|);
      StartMovedOn(g.fe, |g.conf.src|, accepted);
      ActiveUnpublished(g, g.fe.queue[0]);
      StartProgress(g.fe, |g.conf.src|, accepted, s);
      FetcherKeeps(g, F.StartOne(g.fe, accepted), g.fe.queue[0], DoFetch(g, step), dropped, s);
    case SourceDone(t, ok, submitted) =>
      SourceMovedOn(g.fe, |g.conf.src|, t, ok, submitted);
      ActiveUnpublished(g, t);
      SourceProgress(g.fe, |g.conf.src|, t, ok, submitted, s);
      FetcherKeeps(g, F.SourceDone(g.fe, t, ok, submitted), t, DoFetch(g, step), dropped, s);
    case Fill(_, _, _) =>
      SamePlaces(g, DoFetch(g, step), dropped, s);
  }

  lemma SamePlaces(g: G, g': G, dropped: set<nat>, s: nat)
    requires g'.fe == g.fe && g'.w == g.w && forall m | m in g.msgs :: m in g'.msgs
    ensures OnItsWay(g, dropped, s) ==> OnItsWay(g', dropped, s)
    ensures Arrived(g, dropped, s) ==> Arrived(g', dropped, s)
  {
  }

  lemma CopyKeeps(g: G, step: Step, dropped: set<nat>, s: nat)
    requires Inv(g) && CopyStep(step) && Enabled(g, step) && FetchedKnown(g, dropped)
    ensures Keeps(g, DoCopy(g, step), dropped, dropped, s)
  {
    hide WorldOk, F.Valid, FetchesOk, SectorsOk, ChansOk, F.TargetDone, F.GivesUp, Marked, Progress, AckAll, HardenAll;
    hide OnItsWay, Arrived;
    assert F.InPhase(g.fe.phases, s, F.FetchedPhase) ==> Arrived(g, dropped, s);
    SyncingActive(g, step.s);
    ActiveUnpublished(g, step.s);
    if step.TargetDone? {
      FetchOpsKeys(g);
      TargetProgress(g.fe, |g.conf.src|, step.s, step.ok, step.submitted, s);
      FetcherKeeps(g, F.TargetDone(g.fe, step.s, step.ok, step.submitted), step.s, DoCopy(g, step), dropped, s);
    } else {
      SamePlaces(g, DoCopy(g, step), dropped, s);
    }
  }

  /** A request makes the stripe active, unless it is shown or known to the fetcher. */
  lemma RequestKeeps(fe: F.State, shared: Shared, t: nat, s: nat)
    requires t < |shared.fetch|
    ensures var next := F.Request(fe, shared, t);
            && next.finished == fe.finished
            && (F.Active(fe.phases, s) ==> F.Active(next.phases, s))
            && (F.InPhase(next.phases, s, F.FetchedPhase) <==> F.InPhase(fe.phases, s, F.FetchedPhase))
            && (shared.FetchedIfNeeded(t) || F.Active(next.phases, t) || F.InPhase(fe.phases, t, F.FetchedPhase))
  {
  }

  lemma ReceiveKeeps(g: G, dropped: set<nat>, s: nat)
    requires Inv(g) && Enabled(g, Receive) && FetchedKnown(g, dropped)
    ensures Keeps(g, DoWorker(g, Receive), dropped, dropped, s)
  {
    hide FC.Inv, FR.FetchedWithin, F.Valid, FetchesOk, SectorsOk, FetchOpsOk, ChansOk, F.Request, F.Active, F.InPhase;
    assert F.InPhase(g.fe.phases, s, F.FetchedPhase) ==> Arrived(g, dropped, s);
    var m := g.msgs[0];
    assert m in g.msgs && g.msgs == [m] + g.msgs[1..];
    if m.Fetch? {
      RequestKeeps(g.fe, g.w.shared, m.stripe, s);
    }
  }

  lemma HandOverEffect(g: G)
    requires Inv(g) && Enabled(g, HandOver)
    ensures g.fe.finished != []
    ensures var g', (s, ok) := DoWorker(g, HandOver), g.fe.finished[0];
            && g'.fe == g.fe.(finished := g.fe.finished[1..]) && g'.msgs == g.msgs && g'.w.shared == g.w.shared
            && g'.w.fl.updates == g.w.fl.updates
            && g'.w.fl.queue == g.w.fl.queue + if ok then [FL.Request(s, FetchedBit)] else []
  {
    hide FC.Inv, FR.FetchedWithin, F.Valid, FetchesOk, SectorsOk, FetchOpsOk, ChansOk;
  }

  lemma HandOverKeeps(g: G, dropped: set<nat>, s: nat)
    requires Inv(g) && Enabled(g, HandOver) && FetchedKnown(g, dropped)
    ensures Keeps(g, DoWorker(g, HandOver), dropped, dropped, s)
  {
    hide Inv, Enabled, DoWorker, F.Active, F.InPhase;
    assert F.InPhase(g.fe.phases, s, F.FetchedPhase) ==> Arrived(g, dropped, s);
    HandOverEffect(g);
    assert g.fe.finished == [g.fe.finished[0]] + g.fe.finished[1..];
  }

  lemma AutofetchKeeps(g: G, dropped: set<nat>, s: nat)
    requires Inv(g) && Enabled(g, Autofetch) && FetchedKnown(g, dropped)
    ensures Keeps(g, DoWorker(g, Autofetch), dropped, dropped, s)
  {
    hide WorldOk, F.Valid, FetchesOk, SectorsOk, FetchOpsOk, ChansOk, F.Request, F.Active, F.InPhase;
    assert F.InPhase(g.fe.phases, s, F.FetchedPhase) ==> Arrived(g, dropped, s);
    if g.fe.autoQueue != [] {
      AutoQueueKnown(g);
    }
    if g.fe.autofetch && g.fe.queue == [] && g.fe.autoQueue != [] {
      RequestKeeps(g.fe.(autoQueue := g.fe.autoQueue[1..]), g.w.shared, g.fe.autoQueue[0], s);
    }
  }

  lemma AutoQueueKnown(g: G)
    requires Inv(g) && g.fe.autoQueue != []
    ensures g.fe.autoQueue[0] < |g.w.shared.fetch|
  {
    hide WorldOk, FetchesOk, SectorsOk, FetchOpsOk, ChansOk;
    F.AutofetchValid(g.fe, g.w.shared, |g.conf.src|);
  }

  lemma WorkerKeeps(g: G, step: Step, dropped: set<nat>, s: nat)
    requires Inv(g) && WorkerStep(step) && Enabled(g, step) && FetchedKnown(g, dropped)
    ensures Keeps(g, DoWorker(g, step), dropped, dropped, s)
  {
    hide Inv, Enabled, DoWorker, Keeps, FetchedKnown;
    match step
    case Receive => ReceiveKeeps(g, dropped, s);
    case HandOver => HandOverKeeps(g, dropped, s);
    case Autofetch => AutofetchKeeps(g, dropped, s);
  }

  /** What the flusher does with a record: it is started, published, or given up. */
  lemma MetaKeeps(g: G, step: Step, dropped: set<nat>, s: nat)
    requires Inv(g) && step.Meta? && Enabled(g, step) && FetchedKnown(g, dropped)
    ensures Keeps(g, Next(g, step), dropped, Dropped(g, dropped, step), s)
  {
    hide FR.FetchedWithin, F.Valid, FetchesOk, SectorsOk, FetchOpsOk, ChansOk, Settled;
    hide FC.ImagesShaped, FC.PublishedDurable, FC.StagesAgree;
    assert F.InPhase(g.fe.phases, s, F.FetchedPhase) ==> Arrived(g, dropped, s);
    MetaDefined(g, step);
    if step.e.Start? {
      StartRecords(g.w, s);
    } else {
      OtherRecords(g.w, step.e, s);
    }
  }

  lemma StartRecords(w: FC.World, s: nat)
    requires FC.Inv(w) && FC.Enabled(w, FC.Start)
    ensures var w' := FC.Next(w, FC.Start);
            && w'.shared == w.shared
            && (BeingRecorded(w, s) ==> BeingRecorded(w', s))
            && (FL.Request(s, FetchedBit) in w.fl.queue ==>
                  || FL.Request(s, FetchedBit) in w'.fl.queue || BeingRecorded(w', s)
                  || (s < |w.shared.fetch| && w.shared.FetchedIfNeeded(s)))
  {
    hide FC.ImagesShaped, FC.PublishedDurable, FC.StagesAgree;
    var r := w.fl.queue[0];
    assert r in w.fl.queue && w.fl.queue == [r] + w.fl.queue[1..];
    assert FC.HeaderAgrees(w, r.stripe);
    if !FL.Redundant(w.fl) {
      FL.StartKeepsUpdates(w.fl);
    }
  }

  lemma OtherRecords(w: FC.World, e: FC.Event, s: nat)
    requires FC.Inv(w) && FC.Enabled(w, e) && (e.Wrote? || e.Flushed? || e.GaveUp?)
    ensures var w' := FC.Next(w, e);
            && w'.fl.queue == w.fl.queue
            && |w'.shared.fetch| == |w.shared.fetch|
            && (BeingRecorded(w, s) ==>
                  || BeingRecorded(w', s) || (e.GaveUp? && e.stripe == s)
                  || (s < |w'.shared.fetch| && w'.shared.FetchedIfNeeded(s)))
            && (s < |w.shared.fetch| && w.shared.FetchedIfNeeded(s) ==> w'.shared.FetchedIfNeeded(s))
            && (s < |w.shared.fetch| && w.shared.fetch[s] == Failed ==>
                  w'.shared.fetch[s] == Failed || w'.shared.FetchedIfNeeded(s))
  {
    hide FC.ImagesShaped, FC.PublishedDurable, FC.StagesAgree;
    if e.Flushed? {
      assert FC.HeaderAgrees(w, e.stripe);
    }
  }

  lemma StepKeeps(g: G, step: Step, dropped: set<nat>, s: nat)
    requires Inv(g) && Enabled(g, step) && !step.Crash? && FetchedKnown(g, dropped)
    ensures Keeps(g, Next(g, step), dropped, Dropped(g, dropped, step), s)
  {
    hide Inv, Enabled, DoFetch, DoCopy, DoWorker, DoGuest, DoDevice, DoMeta, DoImage, Keeps, FetchedKnown;
    if FetchStep(step) {
      FetchKeeps(g, step, dropped, s);
    } else if CopyStep(step) {
      CopyKeeps(g, step, dropped, s);
    } else if WorkerStep(step) {
      WorkerKeeps(g, step, dropped, s);
    } else if step.Meta? {
      MetaKeeps(g, step, dropped, s);
    } else {
      OtherKeeps(g, step, dropped, s);
    }
  }

  lemma OtherKeeps(g: G, step: Step, dropped: set<nat>, s: nat)
    requires Inv(g) && Enabled(g, step) && FetchedKnown(g, dropped)
    requires GuestStep(step) || DeviceStep(step) || ImageStep(step)
    ensures Keeps(g, Next(g, step), dropped, dropped, s)
  {
    hide Inv, Enabled, Next, OnItsWay, Arrived;
    assert F.InPhase(g.fe.phases, s, F.FetchedPhase) ==> Arrived(g, dropped, s);
    OtherSame(g, step);
    SamePlaces(g, Next(g, step), dropped, s);
  }

  // ----- the channels -----

  lemma SentFetches(st: LC.State, shared: Shared, rw: LC.RW, room: nat, s: nat)
    requires rw.last < |shared.fetch| == |shared.written|
    requires s in LC.Add(st, shared, rw, room).requested && s !in st.requested
    ensures LC.Fetch(s) in LC.Messages(st, shared, rw, room)
  {
    hide LC.OpOf, LC.ToMark;
    var f := LC.FetchesFrom(shared, st.requested, rw.first, rw.last);
    var asked := LC.AskedFor(st, shared, rw, room);
    assert s in asked;
    var i :| 0 <= i < |asked| && asked[i] == s;
    assert LC.FetchMessages(f)[i] == LC.Fetch(s);
    assert LC.Messages(st, shared, rw, room)[i] == LC.Fetch(s);
  }

  /** The channel that the step is about; the others stay as they are. */
  lemma ChanKeeps(g: G, step: Step, dropped: set<nat>, c: nat)
    requires Inv(g) && Enabled(g, step) && !step.Crash? && NothingLost(g, dropped) && c < |Next(g, step).chans|
    ensures c < |g.chans| && ChanWaits(Next(g, step), Dropped(g, dropped, step), c)
  {
    ChanFetches(g, step, c);
    hide Inv, Enabled, Next, OnItsWay, Dropped, LR.NoLostFetch;
    assert ChanWaits(g, dropped, c);
    var g', after := Next(g, step), Dropped(g, dropped, step);
    SharedAdvances(g, step);
    LR.AdvanceKeepsFetches(g'.chans[c].queue, g'.chans[c].requested, g.w.shared, g'.w.shared);
    forall s | s in g'.chans[c].requested ensures OnItsWay(g', after, s) {
      if s in g.chans[c].requested {
        StepKeeps(g, step, dropped, s);
      } else {
        MessageWaits(g', after, s);
      }
    }
  }

  lemma MessageWaits(g: G, dropped: set<nat>, s: nat)
    requires LC.Fetch(s) in g.msgs
    ensures OnItsWay(g, dropped, s)
  {
  }

  /** What a step does to a channel: its queue still waits for stripes it has asked for only. */
  lemma ChanFetches(g: G, step: Step, c: nat)
    requires Inv(g) && Enabled(g, step) && !step.Crash? && c < |Next(g, step).chans|
    ensures c < |g.chans|
    ensures LR.NoLostFetch(g.chans[c].queue, g.chans[c].requested, g.w.shared) ==>
              LR.NoLostFetch(Next(g, step).chans[c].queue, Next(g, step).chans[c].requested, g.w.shared)
    ensures forall s | s in Next(g, step).chans[c].requested ::
              s in g.chans[c].requested || LC.Fetch(s) in Next(g, step).msgs
  {
    if GuestStep(step) {
      hide Inv, Enabled, DoGuest, LR.NoLostFetch;
      GuestFetches(g, step, c);
    } else {
      OtherChans(g, step, c);
    }
  }

  lemma OtherChans(g: G, step: Step, c: nat)
    requires Inv(g) && Enabled(g, step) && !step.Crash? && !GuestStep(step) && c < |Next(g, step).chans|
    ensures c < |g.chans| && Next(g, step).chans[c].queue == g.chans[c].queue
    ensures Next(g, step).chans[c].requested == g.chans[c].requested
  {
    hide WorldOk, F.Valid, FetchesOk, SectorsOk, FetchOpsOk, ChansOk, FC.Next;
  }

  lemma GuestFetches(g: G, step: Step, c: nat)
    requires Inv(g) && Enabled(g, step) && GuestStep(step) && c < |DoGuest(g, step).chans|
    ensures c < |g.chans|
    ensures LR.NoLostFetch(g.chans[c].queue, g.chans[c].requested, g.w.shared) ==>
              LR.NoLostFetch(DoGuest(g, step).chans[c].queue, DoGuest(g, step).chans[c].requested, g.w.shared)
    ensures forall s | s in DoGuest(g, step).chans[c].requested ::
              s in g.chans[c].requested || LC.Fetch(s) in DoGuest(g, step).msgs
  {
    hide WorldOk, F.Valid, FetchesOk, SectorsOk, FetchOpsOk, OpOk, Tidy, LC.Add, LC.ProcessFront, LC.Messages,
         LR.NoLostFetch;
    if c == step.c {
      var ch := g.chans[c];
      assert ChanOk(g.conf, g.w.shared, g.disk, g.plain, ch);
      if LR.NoLostFetch(ch.queue, ch.requested, g.w.shared) {
        KeepsNoLost(g.conf, g.w.shared, ch, step);
      }
      if step.Add? {
        RequestInRange(g.conf, step.rw);
        forall s | s in LC.Add(ch, g.w.shared, step.rw, step.room).requested && s !in ch.requested
          ensures LC.Fetch(s) in LC.Messages(ch, g.w.shared, step.rw, step.room)
        {
          SentFetches(ch, g.w.shared, step.rw, step.room, s);
        }
      } else if step.ProcessHead? {
        assert ch.queue[0] in ch.queue;
        RequestInRange(g.conf, ch.queue[0]);
        FrontForgets(g.w.shared, ch);
      }
    }
  }

  lemma KeepsNoLost(conf: Conf, shared: Shared, ch: LC.State, step: Step)
    requires ConfOk(conf) && |shared.fetch| == |shared.written| == |conf.src|
    requires forall rw | rw in ch.queue :: WellFormed(conf, rw)
    requires LR.NoLostFetch(ch.queue, ch.requested, shared)
    ensures step.Add? && WellFormed(conf, step.rw) && step.rw.last < |shared.fetch| ==>
              var next := LC.Add(ch, shared, step.rw, step.room); LR.NoLostFetch(next.queue, next.requested, shared)
    ensures step.ProcessHead? && ch.queue != [] && ch.queue[0].last < |shared.fetch| ==>
              var next := LC.ProcessFront(ch, shared); LR.NoLostFetch(next.queue, next.requested, shared)
  {
    hide LC.Add, LC.ProcessFront, LR.NoLostFetch;
    if step.Add? && WellFormed(conf, step.rw) && step.rw.last < |shared.fetch| {
      LR.AddKeepsFetches(ch, shared, step.rw, step.room);
    }
    if step.ProcessHead? && ch.queue != [] && ch.queue[0].last < |shared.fetch| {
      LR.FrontKeepsFetches(ch, shared);
    }
  }

  lemma FrontForgets(shared: Shared, ch: LC.State)
    requires ch.queue != [] && ch.queue[0].last < |shared.fetch| == |shared.written|
    ensures LC.ProcessFront(ch, shared).requested <= ch.requested
  {
  }

  lemma SharedAdvances(g: G, step: Step)
    requires Inv(g) && Enabled(g, step) && !step.Crash?
    ensures Advances(g.w.shared, Next(g, step).w.shared)
  {
    hide Inv, Enabled, Next;
    if step.Meta? {
      MetaAdvances(g, step);
    } else {
      FetchersAdvance(g, step);
    }
  }

  lemma MetaAdvances(g: G, step: Step)
    requires Inv(g) && Enabled(g, step) && step.Meta?
    ensures Advances(g.w.shared, Next(g, step).w.shared)
  {
    hide FC.Inv, FR.FetchedWithin, F.Valid, FetchesOk, SectorsOk, FetchOpsOk, ChansOk, FC.Next, Settled;
    MetaDefined(g, step);
    NextGrows(g.w, step.e);
  }

  lemma FetchersAdvance(g: G, step: Step)
    requires Inv(g) && Enabled(g, step) && !step.Crash? && !step.Meta?
    ensures Advances(g.w.shared, Next(g, step).w.shared)
  {
    SameWritten(g, step);
    SameConf(g, step);
    NextInv(g, step);
    hide Enabled, Next, WorldOk, F.Valid, FetchesOk, SectorsOk, FetchOpsOk, ChansOk;
    forall s: nat | s < |g.w.shared.fetch| && g.w.shared.FetchedIfNeeded(s)
      ensures s < |Next(g, step).w.shared.fetch| && Next(g, step).w.shared.FetchedIfNeeded(s)
    {
      PublishedKept(g, step, s);
    }
  }

  lemma SameWritten(g: G, step: Step)
    requires Inv(g) && Enabled(g, step) && !step.Crash? && !step.Meta?
    ensures Next(g, step).w.shared.written == g.w.shared.written
  {
    hide FC.Inv, FR.FetchedWithin, F.Valid, FetchesOk, SectorsOk, FetchOpsOk, ChansOk;
    hide F.StartOne, F.SourceDone, F.TargetDone, F.GivesUp, F.Request, F.Autofetch;
  }

  // ----- whole runs -----

  /** Every step, a crash included, keeps it. */
  lemma StepLosesNothing(g: G, step: Step, dropped: set<nat>)
    requires Inv(g) && Enabled(g, step) && NothingLost(g, dropped)
    ensures NothingLost(Next(g, step), Dropped(g, dropped, step))
  {
    var g', after := Next(g, step), Dropped(g, dropped, step);
    if step.Crash? {
      CrashForgets(g, step);
    } else {
      hide Inv, Enabled, Next, Dropped, Arrived, OnItsWay, ChanWaits;
      forall s: nat | F.InPhase(g'.fe.phases, s, F.FetchedPhase) ensures Arrived(g', after, s) {
        StepKeeps(g, step, dropped, s);
      }
      forall c: nat | c < |g'.chans| ensures ChanWaits(g', after, c) {
        ChanKeeps(g, step, dropped, c);
      }
    }
  }

  lemma CrashForgets(g: G, step: Step)
    requires Inv(g) && Enabled(g, step) && step.Crash?
    ensures NothingLost(Next(g, step), {})
  {
    hide FC.Inv, FR.FetchedWithin, F.Valid, FetchesOk, SectorsOk, FetchOpsOk, ChansOk, CrashedPlain, CorrespondingAt,
         FC.NewWorld, FR.Reloaded;
  }

  /** The records given up since the last start of the device, at the end of the run. */
  ghost function DroppedBy(g: G, dropped: set<nat>, run: seq<Step>): set<nat>
    requires Inv(g) && Legal(g, run)
    decreases |run|
  {
    if run == [] then dropped
    else NextInv(g, run[0]); DroppedBy(Next(g, run[0]), Dropped(g, dropped, run[0]), run[1..])
  }

  lemma {:induction false} RunLosesNothing(g: G, dropped: set<nat>, run: seq<Step>)
    requires Inv(g) && Legal(g, run) && NothingLost(g, dropped)
    ensures NothingLost(Final(g, run), DroppedBy(g, dropped, run))
    decreases |run|
  {
    hide Inv, Enabled, Next, NothingLost, Dropped;
    if run != [] {
      NextInv(g, run[0]);
      StepLosesNothing(g, run[0], dropped);
      RunLosesNothing(Next(g, run[0]), Dropped(g, dropped, run[0]), run[1..]);
    }
  }

  /** After any run of a new device: every stripe that a queued request waits for is on its way, or its
      record was given up by a failed metadata write. */
  lemma WaitsForSomething(conf: Conf, headers: seq<Header>, initial: seq<Disk.Val>, channels: seq<(bool, bool)>,
                          autofetch: bool, sourceStripes: nat, run: seq<Step>, c: nat, rw: LC.RW, s: nat)
    requires ConfOk(conf) && |initial| == |conf.stripe| && |headers| == |conf.src|
    requires var g := Fresh(conf, headers, initial, channels, autofetch, sourceStripes); Inv(g) && Legal(g, run)
    requires var end := Final(Fresh(conf, headers, initial, channels, autofetch, sourceStripes), run);
             c < |end.chans| && rw in end.chans[c].queue && rw.first <= s <= rw.last
    ensures var g := Fresh(conf, headers, initial, channels, autofetch, sourceStripes);
            OnItsWay(Final(g, run), DroppedBy(g, {}, run), s)
  {
    hide Inv, Legal, Final, DroppedBy, Next, OnItsWay;
    var g := Fresh(conf, headers, initial, channels, autofetch, sourceStripes);
    assert NothingLost(g, {});
    RunLosesNothing(g, {}, run);
    var end := Final(g, run);
    assert ChanWaits(end, DroppedBy(g, {}, run), c);
    QueuedKnown(end, c, rw);
    ShownArrives(end, DroppedBy(g, {}, run), s);
  }

  lemma QueuedKnown(g: G, c: nat, rw: LC.RW)
    requires Inv(g) && c < |g.chans| && rw in g.chans[c].queue
    ensures rw.last < |g.w.shared.fetch|
  {
    hide WorldOk, F.Valid, FetchesOk, SectorsOk, FetchOpsOk, OpOk, Tidy, WellFormed;
    assert ChanOk(g.conf, g.w.shared, g.disk, g.plain, g.chans[c]);
    RequestInRange(g.conf, rw);
  }

  lemma ShownArrives(g: G, dropped: set<nat>, s: nat)
    ensures Shown(g, s) ==> OnItsWay(g, dropped, s)
  {
  }

  // ----- a dropped record -----

  /** Fetched, not shown, and nobody is recording it. */
  predicate Stuck(g: G, s: nat) {
    F.InPhase(g.fe.phases, s, F.FetchedPhase) && !Shown(g, s) && !Recording(g, s)
  }

  lemma FetchStaysStuck(g: G, step: Step, s: nat)
    requires Inv(g) && Enabled(g, step) && FetchStep(step) && Stuck(g, s)
    ensures Stuck(DoFetch(g, step), s)
  {
    hide WorldOk, F.Valid, FetchesOk, SectorsOk, FetchOpsOk, ChansOk, F.StartOne, F.SourceDone, Marked, MovedOn, Stuck;
    match step
    case StartFetch(accepted) =>
      FX.HeadReady(g.fe, |g.conf.src|);
      StartMovedOn(g.fe, |g.conf.src|, accepted);
      ActiveUnpublished(g, g.fe.queue[0]);
      MovedOnStuck(g, DoFetch(g, step), g.fe.queue[0], s);
    case SourceDone(t, ok, submitted) =>
      SourceMovedOn(g.fe, |g.conf.src|, t, ok, submitted);
      ActiveUnpublished(g, t);
      MovedOnStuck(g, DoFetch(g, step), t, s);
    case Fill(_, _, _) =>
      SameStuck(g, DoFetch(g, step), s);
  }

  lemma MovedOnStuck(g: G, g': G, t: nat, s: nat)
    requires t < |g.w.shared.fetch| && F.Active(g.fe.phases, t) && MovedOn(g.fe, g'.fe, t)
    requires g'.w == Marked(g.w, g.fe, g'.fe, t) && Stuck(g, s)
    ensures Stuck(g', s)
  {
    assert s != t;
  }

  lemma SameStuck(g: G, g': G, s: nat)
    requires g'.fe == g.fe && g'.w == g.w
    ensures Stuck(g, s) ==> Stuck(g', s)
  {
  }

  /** The target's answer about one stripe does not concern another. */
  lemma TargetOther(fe: F.State, n: nat, t: nat, ok: bool, submitted: bool, s: nat)
    requires F.Valid(fe, n) && t in fe.writing && s != t
    ensures t in fe.buffers && fe.pool.Holds(fe.buffers[t])
    ensures var after := F.TargetDone(fe, t, ok, submitted);
            && (F.InPhase(after.phases, s, F.FetchedPhase) <==> F.InPhase(fe.phases, s, F.FetchedPhase))
            && ((s, true) in after.finished <==> (s, true) in fe.finished)
  {
    hide F.Valid;
    FX.InFlightHasBuffer(fe, n, t);
  }

  lemma CopyStaysStuck(g: G, step: Step, s: nat)
    requires Inv(g) && Enabled(g, step) && CopyStep(step) && Stuck(g, s)
    ensures Stuck(DoCopy(g, step), s)
  {
    hide WorldOk, F.Valid, FetchesOk, SectorsOk, ChansOk, F.TargetDone, F.GivesUp, AckAll, HardenAll;
    SyncingActive(g, step.s);
    if step.TargetDone? {
      FetchOpsKeys(g);
      TargetOther(g.fe, |g.conf.src|, step.s, step.ok, step.submitted, s);
    }
  }

  lemma HandOverStaysStuck(g: G, s: nat)
    requires Inv(g) && Enabled(g, HandOver) && Stuck(g, s)
    ensures Stuck(DoWorker(g, HandOver), s)
  {
    hide Inv, Enabled, DoWorker;
    HandOverEffect(g);
    var (t, ok) := g.fe.finished[0];
    assert (t, ok) in g.fe.finished && g.fe.finished == [(t, ok)] + g.fe.finished[1..];
  }

  lemma RequestsStayStuck(g: G, step: Step, s: nat)
    requires Inv(g) && Enabled(g, step) && (step.Receive? || step.Autofetch?) && Stuck(g, s)
    ensures Stuck(DoWorker(g, step), s)
  {
    hide FC.Inv, FR.FetchedWithin, F.Valid, FetchesOk, SectorsOk, FetchOpsOk, ChansOk;
  }

  lemma WorkerStaysStuck(g: G, step: Step, s: nat)
    requires Inv(g) && Enabled(g, step) && WorkerStep(step) && Stuck(g, s)
    ensures Stuck(DoWorker(g, step), s)
  {
    hide Inv, Enabled, DoWorker, Stuck;
    if step.HandOver? {
      HandOverStaysStuck(g, s);
    } else {
      RequestsStayStuck(g, step, s);
    }
  }

  lemma MetaStaysStuck(g: G, step: Step, s: nat)
    requires Inv(g) && Enabled(g, step) && step.Meta? && Stuck(g, s)
    ensures Stuck(Next(g, step), s)
  {
    hide FR.FetchedWithin, F.Valid, FetchesOk, SectorsOk, FetchOpsOk, ChansOk, Settled;
    hide FC.ImagesShaped, FC.PublishedDurable, FC.StagesAgree;
    MetaDefined(g, step);
    NothingRecorded(g.w, step.e, s);
  }

  lemma NothingRecorded(w: FC.World, e: FC.Event, s: nat)
    requires FC.Inv(w) && FC.Enabled(w, e) && !e.Ask? && !e.MarkFailed?
    requires FL.Request(s, FetchedBit) !in w.fl.queue && !BeingRecorded(w, s)
    requires s < |w.shared.fetch| ==> !w.shared.FetchedIfNeeded(s)
    ensures var w' := FC.Next(w, e);
            && FL.Request(s, FetchedBit) !in w'.fl.queue && !BeingRecorded(w', s)
            && (s < |w'.shared.fetch| ==> !w'.shared.FetchedIfNeeded(s))
  {
    hide FC.ImagesShaped, FC.PublishedDurable, FC.StagesAgree;
    if e.Start? {
      assert w.fl.queue[0] in w.fl.queue;
    } else if e.Flushed? && e.stripe == s {
      assert FC.HeaderAgrees(w, s);
      assert !w.fl.headers[s].Has(FetchedBit);
    }
  }

  lemma StaysStuck(g: G, step: Step, s: nat)
    requires Inv(g) && Enabled(g, step) && !step.Crash? && Stuck(g, s)
    ensures Stuck(Next(g, step), s)
  {
    hide Inv, Enabled, DoFetch, DoCopy, DoWorker, DoMeta, DoGuest, DoDevice, DoImage, Stuck;
    if FetchStep(step) {
      FetchStaysStuck(g, step, s);
    } else if CopyStep(step) {
      CopyStaysStuck(g, step, s);
    } else if WorkerStep(step) {
      WorkerStaysStuck(g, step, s);
    } else if step.Meta? {
      MetaStaysStuck(g, step, s);
    } else {
      OtherSame(g, step);
      SameStuck(g, Next(g, step), s);
    }
  }

  lemma OtherSame(g: G, step: Step)
    requires Inv(g) && Enabled(g, step) && (GuestStep(step) || DeviceStep(step) || ImageStep(step))
    ensures Next(g, step).fe == g.fe && Next(g, step).w == g.w && forall m | m in g.msgs :: m in Next(g, step).msgs
  {
    hide WorldOk, F.Valid, FetchesOk, SectorsOk, FetchOpsOk, ChansOk;
  }

  /** Whatever is requested, fetched or recorded afterwards: until the device is started again, the
      stripe is not shown. */
  lemma {:induction false} StuckUntilRestart(g: G, run: seq<Step>, s: nat)
    requires Inv(g) && Legal(g, run) && Stuck(g, s) && forall step | step in run :: !step.Crash?
    ensures Stuck(Final(g, run), s)
    decreases |run|
  {
    hide Inv, Enabled, Next, Stuck;
    if run != [] {
      assert run[0] in run;
      NextInv(g, run[0]);
      StaysStuck(g, run[0], s);
      StuckUntilRestart(Next(g, run[0]), run[1..], s);
    }
  }

  /** A failed write or flush of the record of a fetched stripe leaves it stuck, exactly if no other
      record of it is to be made. */
  lemma GivenUpIsStuck(g: G, s: nat)
    requires Inv(g) && Enabled(g, Meta(FC.GaveUp(s))) && BeingRecorded(g.w, s)
    requires F.InPhase(g.fe.phases, s, F.FetchedPhase)
    ensures Stuck(Next(g, Meta(FC.GaveUp(s))), s)
            <==> (s, true) !in g.fe.finished && FL.Request(s, FetchedBit) !in g.w.fl.queue
  {
    hide FR.FetchedWithin, F.Valid, SectorsOk, FetchOpsOk, ChansOk, Settled;
    hide FC.ImagesShaped, FC.PublishedDurable, FC.StagesAgree;
    MetaDefined(g, Meta(FC.GaveUp(s)));
    assert FC.HeaderAgrees(g.w, s);
  }
}
