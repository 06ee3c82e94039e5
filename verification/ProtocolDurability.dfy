/** No guest write is lost: what was acknowledged before a flush began is on the disk, or replaced by
    something newer, after any crash that follows the flush. */
module ProtocolDurability {
  import opened Disk
  import opened Mirror
  import opened Protocol
  import opened ProtocolGuest
  import opened ProtocolDevice
  import opened ProtocolRuns
  import opened ProtocolTheorems
  import F = Fetcher

  /** A plain sector that has only been written, acknowledged and flushed. */
  predicate Later(p: Cell, q: Cell) {
    p.hist <= q.hist && p.acked <= q.acked && p.durable <= q.durable
  }

  lemma PlainLater(g: G, step: Step, k: nat)
    requires Inv(g) && Enabled(g, step) && !step.Crash? && k < |g.plain| && !Undefined(g, k)
    ensures k < |Next(g, step).plain| && Later(g.plain[k], Next(g, step).plain[k])
  {
    hide Inv, Next, Enabled;
    PlainEvolves(g, step);
  }

  /** Contents that are defined stay defined. */
  lemma DefinedKept(g: G, step: Step, k: nat)
    requires Inv(g) && Enabled(g, step) && k < |g.plain| && !Undefined(g, k)
    ensures !Undefined(Next(g, step), k)
  {
    hide WorldOk, F.Valid, FetchesOk, SectorsOk, FetchOpsOk, ChansOk, Enabled, Next;
    SameConf(g, step);
    if Published(g.w.shared, g.conf, k) {
      PublishedKept(g, step, g.conf.stripe[k]);
    }
  }

  predicate NoCrash(run: seq<Step>) {
    forall s | s in run :: !s.Crash?
  }

  lemma {:induction false} RunLater(g: G, run: seq<Step>, k: nat)
    requires Inv(g) && Legal(g, run) && NoCrash(run) && k < |g.plain| && !Undefined(g, k)
    ensures k < |Final(g, run).plain| && Later(g.plain[k], Final(g, run).plain[k]) && !Undefined(Final(g, run), k)
    decreases |run|
  {
    hide Inv, Enabled, Next, Undefined;
    if run != [] {
      assert run[0] in run;
      NextInv(g, run[0]);
      PlainLater(g, run[0], k);
      DefinedKept(g, run[0], k);
      RunLater(Next(g, run[0]), run[1..], k);
    }
  }

  /** The newest acknowledged value of the sector is this write's or a newer one. */
  predicate Acknowledged(g: G, k: nat, j: nat, v: Val) {
    k < |g.plain| && !Undefined(g, k) && j < |g.plain[k].hist| && g.plain[k].hist[j] == v && j <= g.plain[k].acked
  }

  predicate Durable(g: G, k: nat, j: nat, v: Val) {
    k < |g.plain| && !Undefined(g, k) && j < |g.plain[k].hist| && g.plain[k].hist[j] == v && j <= g.plain[k].durable
  }

  /** A write that completes with success is acknowledged, at every sector, with its data. */
  lemma WriteAcknowledged(g: G, c: nat, id: nat, k: nat)
    requires Inv(g) && Enabled(g, BaseDone(c, id, true)) && OpAt(g, c, id).WriteOp? && OpAt(g, c, id).Touches(k)
    ensures var op := OpAt(g, c, id);
            k in op.reference && Acknowledged(Next(g, BaseDone(c, id, true)), k, op.reference[k], op.data[k - op.off])
  {
    hide Inv, Next, Enabled, AckAll, Undefined;
    WriteServed(g, c, id, k);
    PlainEvolves(g, BaseDone(c, id, true));
    DefinedKept(g, BaseDone(c, id, true), k);
    var op := OpAt(g, c, id);
    AckReaches(g.plain, op.reference, k);
  }

  lemma WriteServed(g: G, c: nat, id: nat, k: nat)
    requires Inv(g) && Enabled(g, BaseDone(c, id, true)) && OpAt(g, c, id).WriteOp? && OpAt(g, c, id).Touches(k)
    ensures LiveOp(g, c, id)
    ensures var op := OpAt(g, c, id);
            && k in op.reference && k < |g.plain| && !Undefined(g, k) && op.reference[k] < |g.plain[k].hist|
            && g.plain[k].hist[op.reference[k]] == op.data[k - op.off]
  {
    hide WorldOk, F.Valid, FetchesOk, SectorsOk, FetchOpsOk, ChansOk;
    LiveOpOk(g, c, id);
    LiveOpTouches(g, c, id, k);
    var op := OpAt(g, c, id);
    assert k in op.at;
  }

  lemma AckReaches(cells: seq<Cell>, at: map<nat, nat>, k: nat)
    requires k < |cells| && k in at
    ensures AckAll(cells, at)[k].hist == cells[k].hist && at[k] <= AckAll(cells, at)[k].acked
  {
  }

  // ----- a flush covers what was acknowledged when it began -----

  ghost predicate FlushCovers(g: G, c: nat, id: nat, k: nat, j: nat)
  {
    && LiveOp(g, c, id) && OpAt(g, c, id).FlushOp? && OpAt(g, c, id).begun
    && k < |OpAt(g, c, id).referenceCovers| && j <= OpAt(g, c, id).referenceCovers[k]
  }

  lemma FlushBegins(g: G, c: nat, id: nat, k: nat, j: nat, v: Val)
    requires Inv(g) && Enabled(g, BeginFlush(c, id)) && Acknowledged(g, k, j, v)
    ensures FlushCovers(Next(g, BeginFlush(c, id)), c, id, k, j)
  {
    hide WorldOk, F.Valid, FetchesOk, SectorsOk, FetchOpsOk, ChansOk;
  }

  lemma FlushKept(g: G, step: Step, c: nat, id: nat, k: nat, j: nat)
    requires Inv(g) && Enabled(g, step) && FlushCovers(g, c, id, k, j) && LiveOp(Next(g, step), c, id)
    ensures FlushCovers(Next(g, step), c, id, k, j)
  {
    hide Inv, Enabled, DoGuest, DoDevice, LiveOp, OpAt;
    if GuestStep(step) {
      GuestKeepsOp(g, step, c, id);
    } else if DeviceStep(step) {
      DeviceKeepsFlush(g, step, c, id);
    } else {
      OthersKeepOp(g, step, c, id);
    }
  }

  lemma DeviceKeepsFlush(g: G, step: Step, c: nat, id: nat)
    requires Inv(g) && Enabled(g, step) && DeviceStep(step) && LiveOp(g, c, id) && LiveOp(DoDevice(g, step), c, id)
    requires OpAt(g, c, id).FlushOp? && OpAt(g, c, id).begun
    ensures OpAt(DoDevice(g, step), c, id) == OpAt(g, c, id)
  {
    hide WorldOk, F.Valid, FetchesOk, SectorsOk, FetchOpsOk, ChansOk, OpOk, AckAll, HardenAll;
  }

  lemma {:induction false} FlushStays(g: G, run: seq<Step>, c: nat, id: nat, k: nat, j: nat)
    requires Inv(g) && Legal(g, run) && Persists(g, run, c, id) && FlushCovers(g, c, id, k, j)
    ensures FlushCovers(Final(g, run), c, id, k, j)
    decreases |run|
  {
    hide Inv, Enabled, Next, FlushCovers;
    if run != [] {
      NextInv(g, run[0]);
      assert LiveOp(Next(g, run[0]), c, id) by { PersistsLive(Next(g, run[0]), run[1..], c, id); }
      FlushKept(g, run[0], c, id, k, j);
      FlushStays(Next(g, run[0]), run[1..], c, id, k, j);
    }
  }

  lemma PersistsLive(g: G, run: seq<Step>, c: nat, id: nat)
    requires Inv(g) && Legal(g, run) && Persists(g, run, c, id)
    ensures LiveOp(g, c, id)
  {
  }

  lemma FlushEnds(g: G, c: nat, id: nat, k: nat, j: nat, v: Val)
    requires Inv(g) && Enabled(g, BaseDone(c, id, true)) && FlushCovers(g, c, id, k, j) && Acknowledged(g, k, j, v)
    ensures Durable(Next(g, BaseDone(c, id, true)), k, j, v)
  {
    hide WorldOk, F.Valid, FetchesOk, SectorsOk, FetchOpsOk, ChansOk, Undefined;
    LiveOpOk(g, c, id);
    DefinedKept(g, BaseDone(c, id, true), k);
  }

  /** A value acknowledged when a flush begins is durable when the flush completes. */
  lemma FlushedIsDurable(g: G, c: nat, id: nat, run: seq<Step>, k: nat, j: nat, v: Val)
    requires Inv(g) && Enabled(g, BeginFlush(c, id)) && Acknowledged(g, k, j, v)
    requires Inv(Next(g, BeginFlush(c, id))) && Legal(Next(g, BeginFlush(c, id)), run) && NoCrash(run)
    requires Persists(Next(g, BeginFlush(c, id)), run, c, id)
    requires Enabled(Final(Next(g, BeginFlush(c, id)), run), BaseDone(c, id, true))
    ensures Durable(Next(Final(Next(g, BeginFlush(c, id)), run), BaseDone(c, id, true)), k, j, v)
  {
    hide Inv, Legal, Final, Persists, Next, FlushCovers, Enabled, Undefined;
    var g1 := Next(g, BeginFlush(c, id));
    FlushBegins(g, c, id, k, j, v);
    FlushStays(g1, run, c, id, k, j);
    PlainLater(g, BeginFlush(c, id), k);
    DefinedKept(g, BeginFlush(c, id), k);
    RunLater(g1, run, k);
    FlushEnds(Final(g1, run), c, id, k, j, v);
  }

  // ----- and survives the crash -----

  /** After any further steps and any crash, the plain sector holds the durable value or a newer one
      of its history. */
  lemma DurableSurvives(g: G, run: seq<Step>, crash: Step, k: nat, j: nat, v: Val)
    requires Inv(g) && Legal(g, run) && NoCrash(run) && Durable(g, k, j, v)
    requires crash.Crash? && Enabled(Final(g, run), crash)
    ensures var before, after := Final(g, run), Next(Final(g, run), crash);
            && k < |before.plain| && k < |after.plain| && Later(g.plain[k], before.plain[k])
            && exists i: nat :: j <= i < |before.plain[k].hist| && after.plain[k].hist == [before.plain[k].hist[i]]
  {
    hide Inv, Legal, Final, Next, Enabled, Undefined;
    RunLater(g, run, k);
    var before := Final(g, run);
    PlainEvolves(before, crash);
    var after := Next(before, crash);
    assert CrashOutcome(before.plain[k], after.plain[k]);
    var i: nat :| before.plain[k].durable <= i < |before.plain[k].hist| && after.plain[k] == before.plain[k].Crash(i);
  }

  /** And the target holds the same as the plain disk. */
  lemma MirrorsAfterCrash(g: G, crash: Step, k: nat)
    requires Inv(g) && crash.Crash? && Enabled(g, crash) && k < |g.conf.stripe|
    requires Published(g.w.shared, g.conf, k)
    ensures var after := Next(g, crash);
            && k < |after.disk| == |after.plain| && after.disk[k].Valid() && after.plain[k].Valid()
            && after.disk[k].Current() == after.plain[k].Current()
  {
    NextInv(g, crash);
    SameConf(g, crash);
    PublishedKept(g, crash, g.conf.stripe[k]);
    hide Next, Enabled, WorldOk, F.Valid, FetchesOk, SectorsOk, FetchOpsOk, ChansOk, Aligned;
    var after := Next(g, crash);
    PublishedAligned(after, k);
    ReadsPlain(after.disk[k], after.plain[k]);
  }

  // ----- all of it together -----

  ghost predicate Open(g: G, k: nat) {
    k < |g.conf.stripe| && g.conf.stripe[k] < |g.w.shared.fetch| && Published(g.w.shared, g.conf, k)
  }

  lemma StepOpen(g: G, step: Step, k: nat)
    requires Inv(g) && Enabled(g, step) && Open(g, k)
    ensures Open(Next(g, step), k)
  {
    hide Inv, Enabled, Next;
    SameConf(g, step);
    PublishedKept(g, step, g.conf.stripe[k]);
  }

  lemma StaysOpen(g: G, run: seq<Step>, k: nat)
    requires Inv(g) && Legal(g, run) && Open(g, k)
    ensures Open(Final(g, run), k)
  {
    hide Inv, Legal, Final;
    RunConf(g, run);
    PublishedForever(g, run, g.conf.stripe[k]);
  }

  lemma AcknowledgedLater(g: G, run: seq<Step>, k: nat, j: nat, v: Val)
    requires Inv(g) && Legal(g, run) && NoCrash(run) && Acknowledged(g, k, j, v) && Open(g, k)
    ensures Acknowledged(Final(g, run), k, j, v) && Open(Final(g, run), k)
  {
    hide Inv, Legal, Final, Undefined, Open;
    RunLater(g, run, k);
    StaysOpen(g, run, k);
  }

  /** A write completes, and any run without a crash follows. */
  ghost predicate Completes(g: G, c: nat, id: nat, run: seq<Step>)
    requires Inv(g)
  {
    && Enabled(g, BaseDone(c, id, true)) && OpAt(g, c, id).WriteOp?
    && (NextInv(g, BaseDone(c, id, true)); Legal(Next(g, BaseDone(c, id, true)), run)) && NoCrash(run)
  }

  ghost function Completed(g: G, c: nat, id: nat, run: seq<Step>): (end: G)
    requires Inv(g) && Completes(g, c, id, run)
    ensures Inv(end)
  {
    hide Inv, Enabled, Next;
    NextInv(g, BaseDone(c, id, true));
    Final(Next(g, BaseDone(c, id, true)), run)
  }

  /** A flush begins and completes, with any run without a crash in between. */
  ghost predicate Flushes(g: G, c: nat, id: nat, run: seq<Step>)
    requires Inv(g)
  {
    hide Inv, Enabled, Next;
    && Enabled(g, BeginFlush(c, id)) && NoCrash(run)
    && (NextInv(g, BeginFlush(c, id)); Legal(Next(g, BeginFlush(c, id)), run))
    && Persists(Next(g, BeginFlush(c, id)), run, c, id)
    && Enabled(Final(Next(g, BeginFlush(c, id)), run), BaseDone(c, id, true))
  }

  ghost function Flushed(g: G, c: nat, id: nat, run: seq<Step>): (end: G)
    requires Inv(g) && Flushes(g, c, id, run)
    ensures Inv(end)
  {
    hide Inv, Enabled, Next, Legal, Final;
    NextInv(g, BeginFlush(c, id));
    NextInv(Final(Next(g, BeginFlush(c, id)), run), BaseDone(c, id, true));
    Next(Final(Next(g, BeginFlush(c, id)), run), BaseDone(c, id, true))
  }

  lemma WriteLeg(g: G, c: nat, id: nat, k: nat, run: seq<Step>)
    requires Inv(g) && Completes(g, c, id, run) && OpAt(g, c, id).Touches(k)
    ensures LiveOp(g, c, id) && OpAt(g, c, id).WriteOp?
    ensures var op := OpAt(g, c, id);
            && k in op.reference && k - op.off < |op.data| && Open(Completed(g, c, id, run), k)
            && Acknowledged(Completed(g, c, id, run), k, op.reference[k], op.data[k - op.off])
  {
    assert LiveOp(g, c, id) && OpAt(g, c, id).WriteOp? by { hide Inv, Legal, Final, Next; }
    hide Inv, Legal, Final, Next, Enabled, Acknowledged, NoCrash;
    var op := OpAt(g, c, id);
    LiveOpTouches(g, c, id, k);
    NextInv(g, BaseDone(c, id, true));
    WriteAcknowledged(g, c, id, k);
    StepOpen(g, BaseDone(c, id, true), k);
    AcknowledgedLater(Next(g, BaseDone(c, id, true)), run, k, op.reference[k], op.data[k - op.off]);
  }

  lemma FlushLeg(g: G, c: nat, id: nat, run: seq<Step>, k: nat, j: nat, v: Val)
    requires Inv(g) && Flushes(g, c, id, run) && Acknowledged(g, k, j, v) && Open(g, k)
    ensures Durable(Flushed(g, c, id, run), k, j, v) && Open(Flushed(g, c, id, run), k)
  {
    hide Inv, Legal, Final, Next, Enabled, Persists, Acknowledged, Durable, NoCrash, Open;
    NextInv(g, BeginFlush(c, id));
    FlushedIsDurable(g, c, id, run, k, j, v);
    StepOpen(g, BeginFlush(c, id), k);
    StaysOpen(Next(g, BeginFlush(c, id)), run, k);
    StepOpen(Final(Next(g, BeginFlush(c, id)), run), BaseDone(c, id, true), k);
  }

  /** The target holds, after the crash, the value at one of the positions from j on of what was the
      history of the plain sector. */
  ghost predicate HoldsFrom(before: G, after: G, k: nat, j: nat, v: Val) {
    && k < |before.plain| && k < |after.disk| && after.disk[k].Valid()
    && j < |before.plain[k].hist| && before.plain[k].hist[j] == v
    && exists i: nat :: j <= i < |before.plain[k].hist| && after.disk[k].Current() == before.plain[k].hist[i]
  }

  lemma CrashLeg(g: G, run: seq<Step>, crash: Step, k: nat, j: nat, v: Val)
    requires Inv(g) && Legal(g, run) && NoCrash(run) && Durable(g, k, j, v) && Open(g, k)
    requires crash.Crash? && Enabled(Final(g, run), crash)
    ensures HoldsFrom(Final(g, run), Next(Final(g, run), crash), k, j, v)
  {
    hide Inv, Legal, Final, Next, Enabled, Undefined;
    DurableSurvives(g, run, crash, k, j, v);
    StaysOpen(g, run, k);
    MirrorsAfterCrash(Final(g, run), crash, k);
  }

  /** No lost write. A write completes, later a flush begins and completes, and at any time after that the
      device crashes; anything may happen in between. Each sector of the write then holds on the target
      what the write has put there, or a newer value of its history. */
  lemma FlushedWriteSurvives(g: G, c: nat, id: nat, run1: seq<Step>, d: nat, fid: nat, run2: seq<Step>,
                             run3: seq<Step>, crash: Step, k: nat)
    requires Inv(g) && Completes(g, c, id, run1) && OpAt(g, c, id).Touches(k)
    requires Flushes(Completed(g, c, id, run1), d, fid, run2)
    requires Legal(Flushed(Completed(g, c, id, run1), d, fid, run2), run3) && NoCrash(run3)
    requires crash.Crash? && Enabled(Final(Flushed(Completed(g, c, id, run1), d, fid, run2), run3), crash)
    ensures var op, end := OpAt(g, c, id), Final(Flushed(Completed(g, c, id, run1), d, fid, run2), run3);
            k in op.reference && HoldsFrom(end, Next(end, crash), k, op.reference[k], op.data[k - op.off])
  {
    hide Inv, Legal, Final, Next, Enabled, Acknowledged, Durable, NoCrash, Open, HoldsFrom;
    hide Completes, Completed, Flushes, Flushed;
    WriteLeg(g, c, id, k, run1);
    var op := OpAt(g, c, id);
    FlushLeg(Completed(g, c, id, run1), d, fid, run2, k, op.reference[k], op.data[k - op.off]);
    CrashLeg(Flushed(Completed(g, c, id, run1), d, fid, run2), run3, crash, k, op.reference[k], op.data[k - op.off]);
  }
}
