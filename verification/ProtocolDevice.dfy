/** The target's and the image's service of guest requests keeps the invariant. */
module ProtocolDevice {
  import opened Disk
  import opened Metadata
  import opened Mirror
  import opened Protocol
  import FC = FlusherCrash
  import FR = FlusherRuns
  import F = Fetcher
  import LC = LazyChannel
  import LR = LazyChannelRuns

  // ----- what is kept while both disks evolve -----

  ghost predicate DiskEvolves(conf: Conf, shared: Shared, d: seq<Cell>, p: seq<Cell>, d': seq<Cell>, p': seq<Cell>)
    requires Shapes(conf, shared, d, p)
  {
    && |d'| == |d| && |p'| == |p|
    && forall k: nat | k < |d| ::
         && Evolves(d[k], p[k], d'[k], p'[k])
         && (Published(shared, conf, k) ==>
               p[k].hist <= p'[k].hist && |d'[k].hist| - |p'[k].hist| == |d[k].hist| - |p[k].hist|)
  }

  lemma OpKept(conf: Conf, shared: Shared, shared': Shared, track: bool,
               d: seq<Cell>, p: seq<Cell>, d': seq<Cell>, p': seq<Cell>, op: DevOp)
    requires Shapes(conf, shared, d, p) && Shapes(conf, shared', d', p')
    requires OpOk(conf, shared, track, d, p, op)
    requires DiskEvolves(conf, shared, d, p, d', p') && Advances(shared, shared')
    ensures OpOk(conf, shared', track, d', p', op)
  {
    match op
    case ReadOp(_, _, _) =>
    case WriteOp(_, _, at, reference) =>
      forall k | k in at ensures WriteRel(d'[k], p'[k], at[k], reference[k], op.data[k - op.off]) {
        WriteRelKept(d[k], p[k], d'[k], p'[k], at[k], reference[k], op.data[k - op.off]);
      }
    case FlushOp(begun, covers, reference) =>
      if begun {
        forall k: nat | k < |d| ensures FlushRel(d'[k], p'[k], covers[k], reference[k]) {
          FlushRelKept(d[k], p[k], d'[k], p'[k], covers[k], reference[k]);
        }
      }
  }

  lemma ChanKept(conf: Conf, shared: Shared, shared': Shared, d: seq<Cell>, p: seq<Cell>, d': seq<Cell>,
                 p': seq<Cell>, ch: LC.State)
    requires Shapes(conf, shared, d, p) && Shapes(conf, shared', d', p')
    requires ChanOk(conf, shared, d, p, ch)
    requires DiskEvolves(conf, shared, d, p, d', p') && Advances(shared, shared')
    ensures ChanOk(conf, shared', d', p', ch)
  {
    hide OpOk, DiskEvolves, Advances;
    forall id | id in ch.base.live ensures OpOk(conf, shared', ch.trackWritten, d', p', ch.base.live[id]) {
      OpKept(conf, shared, shared', ch.trackWritten, d, p, d', p', ch.base.live[id]);
    }
  }

  lemma ChansKept(conf: Conf, shared: Shared, shared': Shared, d: seq<Cell>, p: seq<Cell>, d': seq<Cell>,
                  p': seq<Cell>, chans: seq<LC.State>)
    requires Shapes(conf, shared, d, p) && Shapes(conf, shared', d', p')
    requires ChansOk(conf, shared, d, p, chans)
    requires DiskEvolves(conf, shared, d, p, d', p') && Advances(shared, shared')
    ensures ChansOk(conf, shared', d', p', chans)
  {
    hide ChanOk, DiskEvolves, Advances;
    forall c: nat | c < |chans| ensures ChanOk(conf, shared', d', p', chans[c]) {
      ChanKept(conf, shared, shared', d, p, d', p', chans[c]);
    }
  }

  /** Every published stripe with a source is done. */
  lemma PublishedDone(conf: Conf, w: FC.World, done: set<nat>, s: nat)
    requires WorldOk(conf, w, done) && s < |conf.src|
    ensures s < |w.shared.fetch|
    ensures conf.src[s] && w.shared.FetchedIfNeeded(s) ==> s in done
    ensures !conf.src[s] ==> w.shared.FetchedIfNeeded(s)
    ensures w.shared.fetch[s] == Fetched ==> s in done
  {
    assert FC.HeaderAgrees(w, s);
    assert w.shared.fetch[s] == Fetched ==> w.shared.Shows(s, FetchedBit);
    assert w.fl.headers[s].Has(FetchedBit) ==> w.fl.headers[s].fetched;
  }

  /** The sectors of a stripe that is being fetched are not published. */
  lemma FetchingUnpublished(g: G, k: nat)
    requires Inv(g) && k < |g.conf.stripe| && F.Active(g.fe.phases, g.conf.stripe[k])
    ensures !Published(g.w.shared, g.conf, k) && g.conf.src[g.conf.stripe[k]] && g.conf.stripe[k] !in g.done
  {
    hide FC.Inv, FR.FetchedWithin, F.Valid, SectorsOk, FetchOpsOk, ChansOk, WorldOk;
    PublishedDone(g.conf, g.w, g.done, g.conf.stripe[k]);
  }

  /** Unpublished sectors keep their contents, and what is acknowledged stays so. */
  ghost predicate Spared(conf: Conf, shared: Shared, d: seq<Cell>, d': seq<Cell>)
    requires ConfOk(conf) && |d| == |conf.stripe| && |shared.fetch| == |conf.src|
  {
    && |d'| == |d|
    && forall k: nat | k < |d| ::
         && d[k].acked <= d'[k].acked
         && (!Published(shared, conf, k) ==> d'[k].hist == d[k].hist && d'[k].acked == d[k].acked && d'[k].Valid())
  }

  lemma FetchOpKept(g: G, d': seq<Cell>, s: nat)
    requires Inv(g) && s in g.fops && Spared(g.conf, g.w.shared, g.disk, d')
    ensures FetchOpOk(g.conf, g.fe, g.bufs, d', s, g.fops[s])
  {
    hide FC.Inv, FR.FetchedWithin, F.Valid, SectorsOk, FetchesOk, ChansOk, WorldOk;
    assert FetchOpOk(g.conf, g.fe, g.bufs, g.disk, s, g.fops[s]);
    forall k: nat | k < |g.conf.stripe| && g.conf.stripe[k] == s ensures !Published(g.w.shared, g.conf, k) {
      FetchingUnpublished(g, k);
    }
  }

  lemma FetchOpsKept(g: G, d': seq<Cell>)
    requires Inv(g) && Spared(g.conf, g.w.shared, g.disk, d')
    ensures FetchOpsOk(g.conf, g.fe, g.bufs, g.fops, d')
  {
    hide FC.Inv, FR.FetchedWithin, F.Valid, SectorsOk, FetchesOk, ChansOk, WorldOk, FetchOpOk;
    forall s | s in g.fops ensures FetchOpOk(g.conf, g.fe, g.bufs, d', s, g.fops[s]) {
      FetchOpKept(g, d', s);
    }
  }

  // ----- one request replaced or removed -----

  /** Whatever leaves a channel keeps it tidy. */
  lemma StaysTidy(a: LC.State, b: LC.State)
    requires Tidy(a) && b.base.Valid()
    requires forall id :: LR.Held(b, id) <= LR.Held(a, id)
    ensures Tidy(b)
  {
    hide LR.Held;
    forall id ensures LR.Held(b, id) <= 1 {
      assert LR.Held(a, id) <= 1;
    }
  }

  lemma FewerLive(a: LC.State, b: LC.State)
    requires Tidy(a) && b.base.Valid() && b.queue == a.queue && b.finished == a.finished
    requires b.base.live.Keys <= a.base.live.Keys && b.image.live.Keys <= a.image.live.Keys
    ensures Tidy(b)
  {
    hide LR.HeldOnce, LR.InQueue, LR.InResults;
    forall id ensures LR.Held(b, id) <= LR.Held(a, id) {
      assert id in b.base.live ==> id in b.base.live.Keys && id in a.base.live;
      assert id in b.image.live ==> id in b.image.live.Keys && id in a.image.live;
    }
    StaysTidy(a, b);
  }

  lemma ReplaceOp(conf: Conf, shared: Shared, d: seq<Cell>, p: seq<Cell>, chans: seq<LC.State>, c: nat, id: nat,
                  op: DevOp)
    requires Shapes(conf, shared, d, p) && ChansOk(conf, shared, d, p, chans) && c < |chans|
    requires OpOk(conf, shared, chans[c].trackWritten, d, p, op) && id in chans[c].base.live
    ensures var ch := chans[c];
            ChansOk(conf, shared, d, p, chans[c := ch.(base := ch.base.(live := ch.base.live[id := op]))])
  {
    hide OpOk, Tidy;
    var ch := chans[c];
    var ch' := ch.(base := ch.base.(live := ch.base.live[id := op]));
    assert ChanOk(conf, shared, d, p, ch);
    assert ch'.base.live.Keys == ch.base.live.Keys;
    TidyBase(ch);
    FewerLive(ch, ch');
    assert ChanOk(conf, shared, d, p, ch');
  }

  lemma TidyBase(ch: LC.State)
    requires Tidy(ch)
    ensures ch.base.Valid()
  {
  }

  lemma RemoveOp(conf: Conf, shared: Shared, d: seq<Cell>, p: seq<Cell>, chans: seq<LC.State>, c: nat, id: nat)
    requires Shapes(conf, shared, d, p) && ChansOk(conf, shared, d, p, chans) && c < |chans|
    ensures var ch := chans[c];
            ChansOk(conf, shared, d, p, chans[c := ch.(base := ch.base.Remove({id}))])
  {
    hide OpOk, Tidy;
    var ch := chans[c];
    assert ChanOk(conf, shared, d, p, ch);
    TidyBase(ch);
    FewerLive(ch, ch.(base := ch.base.Remove({id})));
    assert ChanOk(conf, shared, d, p, ch.(base := ch.base.Remove({id})));
  }

  /** Both disks changed by a guest operation: what has to be shown of the new disks. */
  lemma DisksInv(g: G, d': seq<Cell>, p': seq<Cell>)
    requires Inv(g) && |d'| == |g.disk| && |p'| == |g.plain|
    requires SectorsOk(g.conf, g.w.shared, g.done, d', p')
    requires DiskEvolves(g.conf, g.w.shared, g.disk, g.plain, d', p')
    requires Spared(g.conf, g.w.shared, g.disk, d')
    ensures Inv(g.(disk := d', plain := p'))
  {
    hide WorldOk, F.Valid, SectorsOk, FetchesOk, ChansOk, FetchOpsOk, DiskEvolves, Spared;
    FetchOpsKept(g, d');
    ChansKept(g.conf, g.w.shared, g.w.shared, g.disk, g.plain, d', p', g.chans);
  }

  /** A published sector mirrors the plain one. */
  lemma PublishedAligned(g: G, k: nat)
    requires Inv(g) && k < |g.conf.stripe| && Published(g.w.shared, g.conf, k)
    ensures Aligned(g.disk[k], g.plain[k], true) && g.disk[k].Valid() && g.plain[k].Valid()
  {
    hide WorldOk, F.Valid, FetchesOk, ChansOk, FetchOpsOk, Aligned;
    PublishedDone(g.conf, g.w, g.done, g.conf.stripe[k]);
    assert OneSectorOk(g.conf, g.w.shared, g.done, g.disk[k], g.plain[k], k);
  }

  lemma LiveOpOk(g: G, c: nat, id: nat)
    requires Inv(g) && LiveOp(g, c, id)
    ensures OpOk(g.conf, g.w.shared, g.chans[c].trackWritten, g.disk, g.plain, OpAt(g, c, id))
  {
    hide WorldOk, F.Valid, FetchesOk, SectorsOk, FetchOpsOk, OpOk;
    assert ChanOk(g.conf, g.w.shared, g.disk, g.plain, g.chans[c]);
  }

  lemma LiveOpTouches(g: G, c: nat, id: nat, k: nat)
    requires Inv(g) && LiveOp(g, c, id) && OpAt(g, c, id).Touches(k)
    ensures k < |g.conf.stripe| && g.conf.stripe[k] < |g.w.shared.fetch| && Published(g.w.shared, g.conf, k)
  {
    hide WorldOk, F.Valid, FetchesOk, SectorsOk, FetchOpsOk, ChansOk;
    LiveOpOk(g, c, id);
  }

  // ----- the steps -----

  lemma ReadInv(g: G, step: Step)
    requires Inv(g) && step.ReadSector? && Enabled(g, step)
    ensures Inv(DoDevice(g, step))
  {
    hide WorldOk, F.Valid, FetchesOk, SectorsOk, FetchOpsOk, ChansOk;
    LiveOpOk(g, step.c, step.id);
    PublishedAligned(g, step.k);
    var op := OpAt(g, step.c, step.id);
    var op' := op.(got := op.got[step.k := g.disk[step.k].Current()]);
    assert forall k: nat :: op'.Touches(k) <==> op.Touches(k);
    ReplaceOp(g.conf, g.w.shared, g.disk, g.plain, g.chans, step.c, step.id, op');
  }

  lemma WriteDisks(g: G, k: nat, v: Val)
    requires Inv(g) && k < |g.conf.stripe| && Published(g.w.shared, g.conf, k)
    ensures var d', p' := g.disk[k := g.disk[k].Apply(v)], g.plain[k := g.plain[k].Apply(v)];
            && SectorsOk(g.conf, g.w.shared, g.done, d', p')
            && DiskEvolves(g.conf, g.w.shared, g.disk, g.plain, d', p')
            && Spared(g.conf, g.w.shared, g.disk, d')
            && WriteRel(d'[k], p'[k], |g.disk[k].hist|, |g.plain[k].hist|, v)
  {
    hide WorldOk, F.Valid, FetchesOk, FetchOpsOk, ChansOk, Aligned;
    PublishedAligned(g, k);
    ApplyBoth(g.disk[k], g.plain[k], true, v);
    var d', p' := g.disk[k := g.disk[k].Apply(v)], g.plain[k := g.plain[k].Apply(v)];
    forall j: nat | j < |g.disk| ensures OneSectorOk(g.conf, g.w.shared, g.done, d'[j], p'[j], j) {
      assert OneSectorOk(g.conf, g.w.shared, g.done, g.disk[j], g.plain[j], j);
    }
  }

  lemma WriteInv(g: G, step: Step)
    requires Inv(g) && step.WriteSector? && Enabled(g, step)
    ensures Inv(DoDevice(g, step))
  {
    hide WorldOk, F.Valid, FetchesOk, SectorsOk, FetchOpsOk, ChansOk, OpOk, DiskEvolves, Spared, WriteRel;
    var c, id, k := step.c, step.id, step.k;
    LiveOpOk(g, c, id);
    LiveOpTouches(g, c, id, k);
    var op := OpAt(g, c, id);
    var v := op.data[k - op.off];
    WriteDisks(g, k, v);
    var d', p' := g.disk[k := g.disk[k].Apply(v)], g.plain[k := g.plain[k].Apply(v)];
    DisksInv(g, d', p');
    OpKept(g.conf, g.w.shared, g.w.shared, g.chans[c].trackWritten, g.disk, g.plain, d', p', op);
    var op' := op.(at := op.at[k := |g.disk[k].hist|], reference := op.reference[k := |g.plain[k].hist|]);
    WrittenOpOk(g.conf, g.w.shared, g.chans[c].trackWritten, d', p', op, k, |g.disk[k].hist|, |g.plain[k].hist|);
    ReplaceOp(g.conf, g.w.shared, d', p', g.chans, c, id, op');
  }

  lemma WrittenOpOk(conf: Conf, shared: Shared, track: bool, d: seq<Cell>, p: seq<Cell>, op: DevOp, k: nat, i: nat,
                    j: nat)
    requires Shapes(conf, shared, d, p) && op.WriteOp? && OpOk(conf, shared, track, d, p, op)
    requires op.Touches(k) && WriteRel(d[k], p[k], i, j, op.data[k - op.off])
    ensures OpOk(conf, shared, track, d, p, op.(at := op.at[k := i], reference := op.reference[k := j]))
  {
    hide WriteRel;
    var op' := op.(at := op.at[k := i], reference := op.reference[k := j]);
    assert forall x: nat :: op'.Touches(x) <==> op.Touches(x);
    forall x | x in op'.at ensures op'.Touches(x)
        && WriteRel(d[x], p[x], op'.at[x], op'.reference[x], op'.data[x - op'.off]) {
      assert x != k ==> x in op.at;
    }
  }

  lemma BeginFlushInv(g: G, step: Step)
    requires Inv(g) && step.BeginFlush? && Enabled(g, step)
    ensures Inv(DoDevice(g, step))
  {
    hide WorldOk, F.Valid, FetchesOk, FetchOpsOk, ChansOk;
    forall k: nat | k < |g.disk| ensures FlushRel(g.disk[k], g.plain[k], g.disk[k].acked, g.plain[k].acked) {
      assert OneSectorOk(g.conf, g.w.shared, g.done, g.disk[k], g.plain[k], k);
      PublishedDone(g.conf, g.w, g.done, g.conf.stripe[k]);
    }
    var op := FlushOp(true, Acked(g.disk), Acked(g.plain));
    assert OpOk(g.conf, g.w.shared, g.chans[step.c].trackWritten, g.disk, g.plain, op);
    ReplaceOp(g.conf, g.w.shared, g.disk, g.plain, g.chans, step.c, step.id, op);
  }

  lemma AckDisks(g: G, op: DevOp)
    requires Inv(g) && op.WriteOp? && op.at.Keys == op.reference.Keys
    requires forall k | k in op.at :: k < |g.conf.stripe| && Published(g.w.shared, g.conf, k) && op.Touches(k)
                                      && WriteRel(g.disk[k], g.plain[k], op.at[k], op.reference[k], op.data[k - op.off])
    ensures Inv(g.(disk := AckAll(g.disk, op.at), plain := AckAll(g.plain, op.reference)))
  {
    hide WorldOk, F.Valid, FetchesOk, FetchOpsOk, ChansOk, Aligned;
    var at, reference := op.at, op.reference;
    var d', p' := AckAll(g.disk, at), AckAll(g.plain, reference);
    forall k: nat | k < |g.disk|
      ensures OneSectorOk(g.conf, g.w.shared, g.done, d'[k], p'[k], k) && Evolves(g.disk[k], g.plain[k], d'[k], p'[k])
    {
      assert OneSectorOk(g.conf, g.w.shared, g.done, g.disk[k], g.plain[k], k);
      if k in at {
        PublishedAligned(g, k);
        AckBoth(g.disk[k], g.plain[k], true, at[k], reference[k], op.data[k - op.off]);
      }
    }
    DisksInv(g, d', p');
  }

  lemma HardenDisks(g: G, covers: seq<nat>, reference: seq<nat>)
    requires Inv(g) && |covers| == |reference| == |g.disk|
    requires forall k: nat | k < |g.disk| :: FlushRel(g.disk[k], g.plain[k], covers[k], reference[k])
    ensures Inv(g.(disk := HardenAll(g.disk, covers), plain := HardenAll(g.plain, reference)))
  {
    hide WorldOk, F.Valid, FetchesOk, FetchOpsOk, ChansOk;
    var d', p' := HardenAll(g.disk, covers), HardenAll(g.plain, reference);
    forall k: nat | k < |g.disk|
      ensures OneSectorOk(g.conf, g.w.shared, g.done, d'[k], p'[k], k) && Evolves(g.disk[k], g.plain[k], d'[k], p'[k])
    {
      var s := g.conf.stripe[k];
      assert OneSectorOk(g.conf, g.w.shared, g.done, g.disk[k], g.plain[k], k);
      HardenBoth(g.conf.src[s], s in g.done, Published(g.w.shared, g.conf, k), k < |g.conf.source|, g.disk[k],
                 g.plain[k],
                 SourceAt(g.conf, k), covers[k], reference[k]);
    }
    DisksInv(g, d', p');
  }

  lemma BaseDoneInv(g: G, step: Step)
    requires Inv(g) && step.BaseDone? && Enabled(g, step)
    ensures Inv(DoDevice(g, step))
  {
    hide WorldOk, F.Valid, FetchesOk, SectorsOk, FetchOpsOk, ChansOk, WriteRel, FlushRel, AckAll, HardenAll;
    LiveOpOk(g, step.c, step.id);
    var op := OpAt(g, step.c, step.id);
    if step.ok && op.WriteOp? {
      AckDisks(g, op);
    }
    if step.ok && op.FlushOp? {
      HardenDisks(g, op.covers, op.referenceCovers);
    }
    var g' := DoDevice(g, step);
    RemoveOp(g.conf, g.w.shared, g'.disk, g'.plain, g.chans, step.c, step.id);
  }

  lemma ImageInv(g: G, step: Step)
    requires Inv(g) && (step.ReadImage? || step.ImageDone?) && Enabled(g, step)
    ensures step.ReadImage? ==> g.chans[step.c].image.live[step.id].ReadOp?
    ensures Inv(DoImage(g, step))
  {
    hide WorldOk, F.Valid, FetchesOk, SectorsOk, FetchOpsOk, OpOk, Tidy;
    assert ChanOk(g.conf, g.w.shared, g.disk, g.plain, g.chans[step.c]);
    var g' := DoImage(g, step);
    TidyBase(g.chans[step.c]);
    FewerLive(g.chans[step.c], g'.chans[step.c]);
    assert ChanOk(g.conf, g.w.shared, g.disk, g.plain, g'.chans[step.c]);
  }
}
