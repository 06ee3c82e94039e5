/** The guest's steps keep the invariant of the whole device. */
module ProtocolGuest {
  import opened Disk
  import opened Metadata
  import opened Protocol
  import opened ProtocolDevice
  import FC = FlusherCrash
  import FR = FlusherRuns
  import F = Fetcher
  import LC = LazyChannel
  import LR = LazyChannelRuns
  import W = Worker

  /** A request dispatched to the target touches published sectors only. */
  lemma DispatchedOk(conf: Conf, shared: Shared, track: bool, disk: seq<Cell>, plain: seq<Cell>, rw: LC.RW)
    requires Shapes(conf, shared, disk, plain)
    requires WellFormed(conf, rw) && rw.last < |conf.src| && LC.MayDispatch(shared, track, rw)
    ensures OpOk(conf, shared, track, disk, plain, LC.OpOf(rw))
  {
    RequestInRange(conf, rw);
    forall k: nat | LC.OpOf(rw).Touches(k) ensures k < |conf.stripe| && Published(shared, conf, k) {
      assert rw.first <= conf.stripe[k] <= rw.last;
    }
  }

  lemma AddTidy(ch: LC.State, shared: Shared, rw: LC.RW, room: nat)
    requires rw.last < |shared.fetch| == |shared.written| && Tidy(ch) && LR.Held(ch, rw.id) == 0
    ensures Tidy(LC.Add(ch, shared, rw, room))
  {
    hide LR.Held, LC.ToMark, LC.AskedFor, LC.FetchesFrom, LC.RouteOf;
    var next := LC.Add(ch, shared, rw, room);
    forall id ensures LR.Held(next, id) <= 1 {
      LR.AddHolds(ch, shared, rw, room, id);
      assert LR.Held(ch, id) <= 1;
    }
  }

  lemma HeadTidy(ch: LC.State, shared: Shared)
    requires ch.queue != [] && ch.queue[0].last < |shared.fetch| == |shared.written| && Tidy(ch)
    ensures Tidy(LC.ProcessFront(ch, shared))
  {
    hide LR.HeldOnce, LC.Outside, LC.FateOf;
    LR.FrontHeldOnce(ch, shared);
  }

  lemma FlushTidy(ch: LC.State, id: nat)
    requires Tidy(ch) && LR.Held(ch, id) == 0
    ensures Tidy(LC.AddFlush(ch, id))
  {
    hide LR.InQueue, LR.InResults;
    var next := LC.AddFlush(ch, id);
    forall x ensures LR.Held(next, x) <= 1 {
      assert LR.Held(ch, x) <= 1;
    }
  }

  lemma SubmittedTidy(ch: LC.State, added: seq<nat>, ok: bool)
    requires Tidy(ch) && Staged(ch.base, added)
    ensures Tidy(LC.SubmitProcessed(LC.Processed(ch, added), ok))
  {
    hide LR.InQueue, LR.InResults, LR.HeldOnce, LC.Failures;
    var next := LC.SubmitProcessed(LC.Processed(ch, added), ok);
    assert next.base.Valid();
    forall x ensures LR.Held(next, x) <= LR.Held(ch, x) {
      LR.ResultsAppend(ch.finished, LC.Failures(added), x);
      assert LR.InResults(LC.Failures(added), x) <= LR.One(x in ch.base.staged);
    }
    StaysTidy(ch, next);
  }

  lemma TakenTidy(ch: LC.State)
    requires Tidy(ch)
    ensures Tidy(ch.(finished := []))
  {
    hide LR.HeldOnce;
    StaysTidy(ch, ch.(finished := []));
  }

  lemma AddChanOk(conf: Conf, shared: Shared, disk: seq<Cell>, plain: seq<Cell>, ch: LC.State, rw: LC.RW, room: nat)
    requires Shapes(conf, shared, disk, plain)
    requires ChanOk(conf, shared, disk, plain, ch) && WellFormed(conf, rw) && rw.last < |conf.src|
    requires LR.Held(ch, rw.id) == 0
    ensures ChanOk(conf, shared, disk, plain, LC.Add(ch, shared, rw, room))
  {
    hide OpOk, WellFormed, LC.ToMark, LC.AskedFor, LC.FetchesFrom, Tidy;
    AddTidy(ch, shared, rw, room);
    if LC.RouteOf(ch, shared, rw) == LC.ToBase {
      DispatchedOk(conf, shared, ch.trackWritten, disk, plain, rw);
    }
  }

  lemma HeadChanOk(conf: Conf, shared: Shared, disk: seq<Cell>, plain: seq<Cell>, ch: LC.State)
    requires Shapes(conf, shared, disk, plain)
    requires ChanOk(conf, shared, disk, plain, ch) && ch.queue != [] && ch.queue[0].last < |conf.src|
    ensures ChanOk(conf, shared, disk, plain, LC.ProcessFront(ch, shared))
  {
    hide OpOk, WellFormed, LC.Outside, Tidy;
    assert ch.queue[0] in ch.queue;
    HeadTidy(ch, shared);
    if LC.FateOf(shared, ch.trackWritten, ch.queue[0]) == LC.Goes {
      DispatchedOk(conf, shared, ch.trackWritten, disk, plain, ch.queue[0]);
    }
  }

  lemma {:induction false} UnwrittenKnown(shared: Shared, i: nat, last: nat, s: nat)
    requires last < |shared.written| && s in LC.UnwrittenFrom(shared, i, last)
    ensures s <= last
    decreases last + 1 - i
  {
    if i <= last && s != i {
      UnwrittenKnown(shared, i + 1, last, s);
    }
  }

  lemma MessagesKnown(ch: LC.State, shared: Shared, rw: LC.RW, room: nat, m: LC.Msg)
    requires rw.last < |shared.fetch| == |shared.written|
    requires m in LC.Messages(ch, shared, rw, room)
    ensures W.Known(m, |shared.fetch|)
  {
    var f := LC.FetchesFrom(shared, ch.requested, rw.first, rw.last);
    var u := LC.UnwrittenFrom(shared, rw.first, rw.last);
    match m
    case Fetch(s) =>
      assert s in f;
      LC.FetchesComplete(shared, ch.requested, rw.first, rw.last, s);
    case SetWritten(s) =>
      assert s in u;
      UnwrittenKnown(shared, rw.first, rw.last, s);
    case Shutdown =>
  }

  predicate GuestStep(step: Step) {
    step.Add? || step.AddFlush? || step.Submit? || step.ProcessHead? || step.SubmitAdded? || step.TakeResults?
  }

  lemma GuestChanOk(g: G, step: Step)
    requires Inv(g) && GuestStep(step) && Enabled(g, step)
    ensures ChanOk(g.conf, g.w.shared, g.disk, g.plain, DoGuest(g, step).chans[step.c])
  {
    hide FC.Inv, FR.FetchedWithin, F.Valid, FetchesOk, SectorsOk, FetchOpsOk, LC.Add, LC.ProcessFront, OpOk, Tidy,
         Staged;
    var ch := g.chans[step.c];
    assert ChanOk(g.conf, g.w.shared, g.disk, g.plain, ch);
    match step
    case Add(_, rw, room) =>
      RequestInRange(g.conf, rw);
      AddChanOk(g.conf, g.w.shared, g.disk, g.plain, ch, rw, room);
    case ProcessHead(_) =>
      assert ch.queue[0] in ch.queue;
      RequestInRange(g.conf, ch.queue[0]);
      HeadChanOk(g.conf, g.w.shared, g.disk, g.plain, ch);
    case AddFlush(_, id) =>
      NewFlushOk(g.conf, g.w.shared, ch.trackWritten, g.disk, g.plain);
      FlushTidy(ch, id);
    case Submit(_, imageOk, baseOk) =>
      TidyBase(ch);
      FewerLive(ch, LC.Submit(ch, imageOk, baseOk));
    case SubmitAdded(_, added, ok) => SubmittedTidy(ch, added, ok);
    case TakeResults(_) => TakenTidy(ch);
  }

  lemma NewFlushOk(conf: Conf, shared: Shared, track: bool, disk: seq<Cell>, plain: seq<Cell>)
    requires Shapes(conf, shared, disk, plain)
    ensures OpOk(conf, shared, track, disk, plain, FlushOp(false, [], []))
  {
  }

  lemma GuestInv(g: G, step: Step)
    requires Inv(g) && GuestStep(step) && Enabled(g, step)
    ensures Inv(DoGuest(g, step))
  {
    hide FC.Inv, FR.FetchedWithin, F.Valid, FetchesOk, SectorsOk, FetchOpsOk, LC.Add, LC.ProcessFront, LC.Messages,
         ChanOk, WellFormed;
    GuestChanOk(g, step);
    var g' := DoGuest(g, step);
    if step.Add? {
      RequestInRange(g.conf, step.rw);
      forall m | m in LC.Messages(g.chans[step.c], g.w.shared, step.rw, step.room) ensures W.Known(m, |g.conf.src|) {
        MessagesKnown(g.chans[step.c], g.w.shared, step.rw, step.room, m);
      }
    }
    forall c: nat | c < |g'.chans| ensures ChanOk(g.conf, g.w.shared, g.disk, g.plain, g'.chans[c]) {
      if c != step.c {
        assert g'.chans[c] == g.chans[c];
      }
    }
  }
}
