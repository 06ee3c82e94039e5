/** What a guest sees of a stripe whose record was given up: no request to it is ever served before the
    next start. And a run that leads there, with a read that waits for the stripe. */
module ProtocolStuck {
  import opened Metadata
  import opened Protocol
  import opened ProtocolRuns
  import opened ProtocolWaiting
  import F = Fetcher
  import FL = Flusher
  import FC = FlusherCrash
  import FX = FetcherRuns
  import LC = LazyChannel

  lemma NotDispatched(shared: Shared, track: bool, rw: LC.RW, s: nat)
    requires rw.first <= s <= rw.last < |shared.fetch| == |shared.written| && !shared.FetchedIfNeeded(s)
    ensures LC.FateOf(shared, track, rw) != LC.Goes
  {
  }

  /** After every run without a restart, no request that covers the stripe goes to the target. */
  lemma NeverServed(g: G, run: seq<Step>, s: nat, track: bool, rw: LC.RW)
    requires Inv(g) && Legal(g, run) && Stuck(g, s) && forall step | step in run :: !step.Crash?
    requires rw.first <= s <= rw.last < |Final(g, run).w.shared.fetch|
    ensures |Final(g, run).w.shared.written| == |Final(g, run).w.shared.fetch|
    ensures LC.FateOf(Final(g, run).w.shared, track, rw) != LC.Goes
  {
    StuckUntilRestart(g, run, s);
    var end := Final(g, run);
    hide Legal, Final, WorldOk, F.Valid, FetchesOk, SectorsOk, FetchOpsOk, ChansOk, LC.FateOf;
    NotDispatched(end.w.shared, track, rw, s);
  }

  // ----- a run to a stuck stripe -----

  /** One sector in one stripe; the source holds 7 and the target 3. */
  function SmallConf(): (conf: Conf)
    ensures ConfOk(conf) && conf == Conf([0], [0], [7], [true])
  {
    var conf := NewConf(1, 1, [7], [true]);
    assert conf.stripe == [0] && conf.slot == [0];
    conf
  }

  function SmallRead(): LC.RW {
    LC.RW(0, false, 0, 1, [], 0, 0)
  }

  ghost function SmallDevice(): G {
    Fresh(SmallConf(), [Header(false, false, true)], [3], [(false, false)], false, 1)
  }

  /** A read waits; its stripe is fetched and written; the metadata write fails. */
  function StuckRun(): seq<Step> {
    [Add(0, SmallRead(), 1), Receive, StartFetch(true), Fill(0, 0, 7), SourceDone(0, true, true), CopySector(0, 0),
     TargetDone(0, true, true), TargetDone(0, true, true), HandOver, Meta(FC.Start), Meta(FC.GaveUp(0))]
  }

  /** The read waits, and the stripe is not published. */
  predicate Waits(g: G) {
    && g.conf == SmallConf() && |g.chans| == 1 && g.chans[0].queue == [SmallRead()]
    && g.w.shared.fetch == [NotFetched] && g.w.shared.written == [false]
  }

  predicate FlusherNew(g: G) {
    g.w.fl == FL.NewState([Header(false, false, true)])
  }

  predicate StageAsked(g: G) {
    Waits(g) && FlusherNew(g) && g.msgs == [LC.Fetch(0)] && g.fe == F.NewState(false, 1)
  }

  predicate StageQueued(g: G) {
    && Waits(g) && FlusherNew(g) && g.msgs == []
    && g.fe == F.NewState(false, 1).(queue := [0], phases := map[0 := F.QueuedPhase])
  }

  /** The stripe is in flight, in a phase, with its buffer. */
  predicate StageInFlight(g: G, phase: F.Phase) {
    && Waits(g) && FlusherNew(g) && g.msgs == [] && g.fe.finished == []
    && F.InPhase(g.fe.phases, 0, phase) && 0 in g.fe.buffers
  }

  predicate StageReading(g: G) {
    StageInFlight(g, F.FetchingPhase) && 0 in g.fe.reading
  }

  predicate StageRead(g: G) {
    StageReading(g) && BufAt(g.bufs, g.fe.buffers[0], 0) == 7
  }

  predicate StageCopying(g: G, at: set<nat>) {
    StageInFlight(g, F.FetchingPhase) && 0 in g.fops && g.fops[0].Copying? && g.fops[0].at.Keys == at
  }

  predicate StageSyncing(g: G) {
    StageInFlight(g, F.FlushingPhase) && 0 in g.fops && g.fops[0].Syncing?
  }

  predicate StageFetched(g: G, finished: seq<(nat, bool)>) {
    Waits(g) && g.msgs == [] && F.InPhase(g.fe.phases, 0, F.FetchedPhase) && g.fe.finished == finished
  }

  predicate StageRecording(g: G) {
    && StageFetched(g, []) && g.w.fl.queue == [] && BeingRecorded(g.w, 0)
  }

  /** The read waits for a stripe that nobody is fetching or recording. */
  predicate Left(g: G) {
    Waits(g) && g.msgs == [] && Stuck(g, 0)
  }

  lemma AddStep(g: G)
    requires g == SmallDevice() && Inv(g)
    ensures Enabled(g, StuckRun()[0]) && StageAsked(Next(g, StuckRun()[0]))
  {
    hide WorldOk, F.Valid, FetchesOk, SectorsOk, FetchOpsOk, ChansOk;
    var shared := g.w.shared;
    assert shared.fetch == [NotFetched];
    assert LC.StatusFrom(shared, 0, 0) == LC.Pending;
    assert LC.FetchesFrom(shared, {}, 1, 0) == [];
    assert LC.FetchesFrom(shared, {}, 0, 0) == [0];
    assert LC.FetchMessages([0]) == [LC.Fetch(0)];
  }

  lemma ReceiveStep(g: G)
    requires Inv(g) && StageAsked(g)
    ensures Enabled(g, Receive) && StageQueued(Next(g, Receive))
  {
    hide WorldOk, F.Valid, FetchesOk, SectorsOk, FetchOpsOk, ChansOk;
  }

  lemma StartStep(g: G)
    requires Inv(g) && StageQueued(g)
    ensures Enabled(g, StartFetch(true)) && StageReading(Next(g, StartFetch(true)))
  {
    hide WorldOk, F.Valid, FetchesOk, SectorsOk, FetchOpsOk, ChansOk;
    FX.HeadReady(g.fe, |g.conf.src|);
  }

  lemma FillStep(g: G)
    requires Inv(g) && StageReading(g)
    ensures Enabled(g, Fill(0, 0, 7)) && StageRead(Next(g, Fill(0, 0, 7)))
  {
    hide WorldOk, F.Valid, FetchesOk, SectorsOk, FetchOpsOk, ChansOk;
  }

  lemma SourceStep(g: G)
    requires Inv(g) && StageRead(g)
    ensures Enabled(g, SourceDone(0, true, true)) && StageCopying(Next(g, SourceDone(0, true, true)), {})
  {
    hide WorldOk, F.Valid, FetchesOk, SectorsOk, FetchOpsOk, ChansOk;
  }

  lemma CopyOneStep(g: G)
    requires Inv(g) && StageCopying(g, {})
    ensures Enabled(g, CopySector(0, 0)) && StageCopying(Next(g, CopySector(0, 0)), {0})
  {
    hide WorldOk, F.Valid, FetchesOk, SectorsOk, FetchOpsOk, ChansOk;
  }

  lemma WrittenStep(g: G)
    requires Inv(g) && StageCopying(g, {0})
    ensures Enabled(g, TargetDone(0, true, true)) && StageSyncing(Next(g, TargetDone(0, true, true)))
  {
    hide WorldOk, F.Valid, FetchesOk, SectorsOk, FetchOpsOk, ChansOk, AckAll;
  }

  lemma SyncedStep(g: G)
    requires Inv(g) && StageSyncing(g)
    ensures Enabled(g, TargetDone(0, true, true))
    ensures var next := Next(g, TargetDone(0, true, true)); StageFetched(next, [(0, true)]) && FlusherNew(next)
  {
    hide WorldOk, F.Valid, FetchesOk, SectorsOk, FetchOpsOk, ChansOk, HardenAll;
  }

  lemma HandOverStep(g: G)
    requires Inv(g) && StageFetched(g, [(0, true)]) && FlusherNew(g)
    ensures Enabled(g, HandOver) && StageFetched(Next(g, HandOver), [])
    ensures Next(g, HandOver).w.fl
            == FL.NewState([Header(false, false, true)]).(queue := [FL.Request(0, FetchedBit)])
  {
    hide F.Valid, FetchesOk, SectorsOk, FetchOpsOk, ChansOk;
  }

  lemma RecordStep(g: G)
    requires Inv(g) && StageFetched(g, [])
    requires g.w.fl == FL.NewState([Header(false, false, true)]).(queue := [FL.Request(0, FetchedBit)])
    ensures Enabled(g, Meta(FC.Start)) && StageRecording(Next(g, Meta(FC.Start)))
  {
    hide WorldOk, F.Valid, FetchesOk, SectorsOk, FetchOpsOk, ChansOk, Settled;
    MetaDefined(g, Meta(FC.Start));
  }

  lemma GiveUpStep(g: G)
    requires Inv(g) && StageRecording(g)
    ensures Enabled(g, Meta(FC.GaveUp(0))) && Left(Next(g, Meta(FC.GaveUp(0))))
  {
    hide WorldOk, F.Valid, FetchesOk, SectorsOk, FetchOpsOk, ChansOk, Settled, Stuck, Next;
    GivenUpIsStuck(g, 0);
    GiveUpWaits(g);
  }

  lemma GiveUpWaits(g: G)
    requires Inv(g) && StageRecording(g) && Enabled(g, Meta(FC.GaveUp(0)))
    ensures Waits(Next(g, Meta(FC.GaveUp(0)))) && Next(g, Meta(FC.GaveUp(0))).msgs == []
  {
    hide WorldOk, F.Valid, FetchesOk, SectorsOk, FetchOpsOk, ChansOk, Settled, FL.Abandon;
    MetaDefined(g, Meta(FC.GaveUp(0)));
  }

  lemma RunFrom(g: G, step: Step, rest: seq<Step>)
    requires Inv(g) && Enabled(g, step) && Inv(Next(g, step)) && Legal(Next(g, step), rest)
    ensures Legal(g, [step] + rest) && Final(g, [step] + rest) == Final(Next(g, step), rest)
  {
    hide Inv, Enabled, Next;
    assert ([step] + rest)[1..] == rest;
  }

  ghost function Then(g: G, step: Step): (next: G)
    requires Inv(g) && Enabled(g, step)
    ensures next == Next(g, step) && Inv(next)
  {
    hide Inv, Enabled, Next;
    NextInv(g, step);
    Next(g, step)
  }

  lemma Tail(i: nat)
    requires i < |StuckRun()|
    ensures StuckRun()[i..] == [StuckRun()[i]] + StuckRun()[i + 1..]
  {
  }

  lemma RecordLeg(g: G)
    requires Inv(g) && StageSyncing(g)
    ensures Legal(g, StuckRun()[7..]) && Left(Final(g, StuckRun()[7..]))
  {
    hide Inv, Enabled, Next;
    hide StageSyncing, StageFetched, StageRecording, FlusherNew, Left;
    SyncedStep(g);
    var a := Then(g, TargetDone(0, true, true));
    HandOverStep(a);
    var b := Then(a, HandOver);
    RecordStep(b);
    var c := Then(b, Meta(FC.Start));
    GiveUpStep(c);
    var d := Then(c, Meta(FC.GaveUp(0)));
    Tail(7); Tail(8); Tail(9); Tail(10);
    RunFrom(c, Meta(FC.GaveUp(0)), StuckRun()[11..]);
    RunFrom(b, Meta(FC.Start), StuckRun()[10..]);
    RunFrom(a, HandOver, StuckRun()[9..]);
    RunFrom(g, TargetDone(0, true, true), StuckRun()[8..]);
  }

  lemma FetchLeg(g: G)
    requires Inv(g) && StageReading(g)
    ensures Legal(g, StuckRun()[3..]) && Left(Final(g, StuckRun()[3..]))
  {
    hide Inv, Enabled, Next, Legal, Final;
    hide StageReading, StageRead, StageCopying, StageSyncing, StageFetched, StageRecording, FlusherNew, Left;
    FillStep(g);
    var a := Then(g, Fill(0, 0, 7));
    SourceStep(a);
    var b := Then(a, SourceDone(0, true, true));
    CopyOneStep(b);
    var c := Then(b, CopySector(0, 0));
    WrittenStep(c);
    var d := Then(c, TargetDone(0, true, true));
    RecordLeg(d);
    Tail(3); Tail(4); Tail(5); Tail(6);
    RunFrom(c, TargetDone(0, true, true), StuckRun()[7..]);
    RunFrom(b, CopySector(0, 0), StuckRun()[6..]);
    RunFrom(a, SourceDone(0, true, true), StuckRun()[5..]);
    RunFrom(g, Fill(0, 0, 7), StuckRun()[4..]);
  }

  /** The run from a new device is legal, and leaves the read waiting for a stripe that is not on its
      way: the record of the stripe was given up. */
  lemma StuckRunReaches()
    ensures Inv(SmallDevice()) && Legal(SmallDevice(), StuckRun())
    ensures var end := Final(SmallDevice(), StuckRun());
            Left(end) && !OnItsWay(end, {}, 0) && 0 in DroppedBy(SmallDevice(), {}, StuckRun())
  {
    hide Inv, Enabled, Next, Legal, Final, DroppedBy, OnItsWay;
    hide StageAsked, StageQueued, StageReading, Left;
    var g := SmallDevice();
    FreshInv(SmallConf(), [Header(false, false, true)], [3], [(false, false)], false, 1);
    AddStep(g);
    var a := Then(g, StuckRun()[0]);
    ReceiveStep(a);
    var b := Then(a, Receive);
    StartStep(b);
    var c := Then(b, StartFetch(true));
    FetchLeg(c);
    Tail(0); Tail(1); Tail(2);
    assert StuckRun()[0..] == StuckRun();
    RunFrom(b, StartFetch(true), StuckRun()[3..]);
    RunFrom(a, Receive, StuckRun()[2..]);
    RunFrom(g, StuckRun()[0], StuckRun()[1..]);
    LeftBehind(Final(g, StuckRun()));
    WaitsForSomething(SmallConf(), [Header(false, false, true)], [3], [(false, false)], false, 1, StuckRun(),
                      0, SmallRead(), 0);
  }

  lemma LeftBehind(g: G)
    requires Left(g)
    ensures !OnItsWay(g, {}, 0) && |g.chans| == 1 && SmallRead() in g.chans[0].queue
    ensures forall dropped :: OnItsWay(g, dropped, 0) ==> 0 in dropped
  {
  }
}
