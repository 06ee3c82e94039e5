/** The fetcher's writes and flushes at the target keep the invariant. */
module ProtocolCopy {
  import opened Disk
  import opened Metadata
  import opened Mirror
  import opened Protocol
  import opened ProtocolDevice
  import opened ProtocolFetch
  import F = Fetcher
  import FX = FetcherRuns

  /** A stripe with an operation of the fetcher at the target is in flight, so nobody else's. */
  lemma CopyingSector(g: G, s: nat, k: nat)
    requires Inv(g) && s in g.fops && k < |g.conf.stripe| && g.conf.stripe[k] == s
    ensures !Published(g.w.shared, g.conf, k) && g.conf.src[s] && s !in g.done
    ensures SectorOk(true, false, false, k < |g.conf.source|, g.disk[k], g.plain[k], SourceAt(g.conf, k))
  {
    hide WorldOk, F.Valid, FetchesOk, ChansOk, Aligned;
    assert FetchOpOk(g.conf, g.fe, g.bufs, g.disk, s, g.fops[s]);
    FetchingUnpublished(g, k);
    assert OneSectorOk(g.conf, g.w.shared, g.done, g.disk[k], g.plain[k], k);
  }

  /** What has to be shown when the fetcher changes the target. */
  lemma TargetInv(g: G, d': seq<Cell>, fops: map<nat, FetchOp>)
    requires Inv(g) && |d'| == |g.disk|
    requires SectorsOk(g.conf, g.w.shared, g.done, d', g.plain)
    requires DiskEvolves(g.conf, g.w.shared, g.disk, g.plain, d', g.plain)
    requires FetchOpsOk(g.conf, g.fe, g.bufs, fops, d')
    ensures Inv(g.(disk := d', fops := fops))
  {
    hide WorldOk, F.Valid, SectorsOk, FetchesOk, ChansOk, FetchOpsOk, DiskEvolves;
    ChansKept(g.conf, g.w.shared, g.w.shared, g.disk, g.plain, d', g.plain, g.chans);
  }

  lemma CopiedOp(g: G, s: nat, k: nat)
    requires Inv(g) && s in g.fops && g.fops[s].Copying? && k < |g.conf.stripe| && g.conf.stripe[k] == s
             && k !in g.fops[s].at
    ensures s in g.fe.buffers
    ensures var v := BufAt(g.bufs, g.fe.buffers[s], g.conf.slot[k]);
            FetchOpOk(g.conf, g.fe, g.bufs, g.disk[k := g.disk[k].Apply(v)], s,
                      Copying(g.fops[s].at[k := |g.disk[k].hist|]))
  {
    hide WorldOk, F.Valid, FetchesOk, ChansOk, Aligned, SectorsOk;
    CopyingSector(g, s, k);
    assert FetchOpOk(g.conf, g.fe, g.bufs, g.disk, s, g.fops[s]);
  }

  lemma CopyOthers(g: G, k: nat, v: Val, t: nat)
    requires Inv(g) && k < |g.conf.stripe| && t in g.fops && t != g.conf.stripe[k]
    ensures FetchOpOk(g.conf, g.fe, g.bufs, g.disk[k := g.disk[k].Apply(v)], t, g.fops[t])
  {
    hide WorldOk, F.Valid, FetchesOk, ChansOk, SectorsOk;
    assert FetchOpOk(g.conf, g.fe, g.bufs, g.disk, t, g.fops[t]);
  }

  lemma CopyInv(g: G, step: Step)
    requires Inv(g) && step.CopySector? && Enabled(g, step)
    ensures Inv(DoCopy(g, step))
  {
    hide WorldOk, F.Valid, FetchesOk, ChansOk, Aligned, FetchOpOk;
    var s, k := step.s, step.k;
    CopyingSector(g, s, k);
    CopiedOp(g, s, k);
    var v := BufAt(g.bufs, g.fe.buffers[s], g.conf.slot[k]);
    var d', fops' := g.disk[k := g.disk[k].Apply(v)], g.fops[s := Copying(g.fops[s].at[k := |g.disk[k].hist|])];
    FetchApplied(g.disk[k], g.plain[k], k < |g.conf.source|, SourceAt(g.conf, k), v);
    forall j: nat | j < |g.disk| ensures OneSectorOk(g.conf, g.w.shared, g.done, d'[j], g.plain[j], j) {
      assert OneSectorOk(g.conf, g.w.shared, g.done, g.disk[j], g.plain[j], j);
    }
    forall t | t in fops' ensures FetchOpOk(g.conf, g.fe, g.bufs, d', t, fops'[t]) {
      if t != s {
        CopyOthers(g, k, v, t);
      }
    }
    assert fops'.Keys == g.fops.Keys;
    TargetInv(g, d', fops');
  }

  // ----- a write acknowledged -----

  /** Acknowledging the newest values of the sectors of one stripe. */
  lemma AckedOpKept(conf: Conf, fe: F.State, bufs: map<nat, map<nat, Val>>, disk: seq<Cell>, at: map<nat, nat>,
                    s: nat, t: nat, op: FetchOp)
    requires ConfOk(conf) && |disk| == |conf.stripe| && FetchOpOk(conf, fe, bufs, disk, t, op)
    requires forall k | k in at :: k < |disk| && conf.stripe[k] == s && Copied(conf, disk[k], at[k], k)
    requires t == s ==> op.Copying?
    ensures FetchOpOk(conf, fe, bufs, AckAll(disk, at), t, op)
  {
    hide Loaded, Copied;
    var d := AckAll(disk, at);
    forall k: nat | k < |disk| ensures disk[k].acked <= d[k].acked && (k !in at ==> d[k] == disk[k]) {
    }
    if op.Copying? {
      forall k | k in op.at ensures Copied(conf, d[k], op.at[k], k) {
        if k in at {
          AckedCell(conf, disk[k], at[k], op.at[k], k);
        }
      }
    }
  }

  lemma AckedCell(conf: Conf, c: Cell, i: nat, j: nat, k: nat)
    requires Copied(conf, c, i, k) && Copied(conf, c, j, k)
    ensures Copied(conf, c.Acknowledge(i), j, k)
  {
  }

  lemma AckedOp(g: G, s: nat, t: nat)
    requires Inv(g) && s in g.fops && g.fops[s].Copying? && t in g.fops
    ensures FetchOpOk(g.conf, g.fe, g.bufs, AckAll(g.disk, g.fops[s].at), t, g.fops[t])
  {
    hide WorldOk, F.Valid, FetchesOk, ChansOk, SectorsOk, AckAll;
    assert FetchOpOk(g.conf, g.fe, g.bufs, g.disk, s, g.fops[s]);
    assert FetchOpOk(g.conf, g.fe, g.bufs, g.disk, t, g.fops[t]);
    AckedOpKept(g.conf, g.fe, g.bufs, g.disk, g.fops[s].at, s, t, g.fops[t]);
  }

  lemma AckTarget(g: G, s: nat)
    requires Inv(g) && s in g.fops && g.fops[s].Copying?
    ensures Inv(g.(disk := AckAll(g.disk, g.fops[s].at)))
  {
    hide WorldOk, F.Valid, FetchesOk, ChansOk, Aligned;
    var at := g.fops[s].at;
    var d' := AckAll(g.disk, at);
    assert FetchOpOk(g.conf, g.fe, g.bufs, g.disk, s, g.fops[s]);
    forall k: nat | k < |g.disk|
      ensures OneSectorOk(g.conf, g.w.shared, g.done, d'[k], g.plain[k], k)
              && Evolves(g.disk[k], g.plain[k], d'[k], g.plain[k])
    {
      assert OneSectorOk(g.conf, g.w.shared, g.done, g.disk[k], g.plain[k], k);
      if k in at {
        CopyingSector(g, s, k);
        FetchAcked(g.disk[k], g.plain[k], k < |g.conf.source|, SourceAt(g.conf, k));
      }
    }
    forall t | t in g.fops ensures FetchOpOk(g.conf, g.fe, g.bufs, d', t, g.fops[t]) {
      AckedOp(g, s, t);
    }
    TargetInv(g, d', g.fops);
  }

  /** All sectors copied and acknowledged: the flush that follows covers them. */
  lemma SyncingOp(g: G, s: nat, fe: F.State)
    requires Inv(g) && s in g.fops && g.fops[s].Copying?
    requires forall k: nat | k < |g.conf.stripe| && g.conf.stripe[k] == s ::
              k in g.fops[s].at && g.disk[k].acked == g.fops[s].at[k]
    requires F.InPhase(fe.phases, s, F.FlushingPhase)
    ensures FetchOpOk(g.conf, fe, g.bufs, g.disk, s, Syncing(Acked(g.disk)))
  {
    hide WorldOk, F.Valid, FetchesOk, ChansOk, SectorsOk;
    assert FetchOpOk(g.conf, g.fe, g.bufs, g.disk, s, g.fops[s]);
  }

  // ----- a flush acknowledged -----

  lemma HardenedOp(g: G, covers: seq<nat>, t: nat)
    requires Inv(g) && |covers| == |g.disk| && t in g.fops
    requires forall k: nat | k < |g.disk| :: covers[k] <= g.disk[k].acked
    ensures FetchOpOk(g.conf, g.fe, g.bufs, HardenAll(g.disk, covers), t, g.fops[t])
  {
    hide WorldOk, F.Valid, FetchesOk, ChansOk, SectorsOk;
    assert FetchOpOk(g.conf, g.fe, g.bufs, g.disk, t, g.fops[t]);
  }

  lemma SyncTarget(g: G, covers: seq<nat>)
    requires Inv(g) && |covers| == |g.disk|
    requires forall k: nat | k < |g.disk| :: covers[k] <= g.disk[k].acked
    ensures Inv(g.(disk := HardenAll(g.disk, covers)))
  {
    hide WorldOk, F.Valid, FetchesOk, ChansOk, Aligned;
    var d' := HardenAll(g.disk, covers);
    forall k: nat | k < |g.disk|
      ensures OneSectorOk(g.conf, g.w.shared, g.done, d'[k], g.plain[k], k)
              && Evolves(g.disk[k], g.plain[k], d'[k], g.plain[k])
    {
      var t := g.conf.stripe[k];
      assert OneSectorOk(g.conf, g.w.shared, g.done, g.disk[k], g.plain[k], k);
      HardenTarget(g.conf.src[t], t in g.done, Published(g.w.shared, g.conf, k), k < |g.conf.source|, g.disk[k],
                   g.plain[k],
                   SourceAt(g.conf, k), covers[k]);
    }
    forall t | t in g.fops ensures FetchOpOk(g.conf, g.fe, g.bufs, d', t, g.fops[t]) {
      HardenedOp(g, covers, t);
    }
    TargetInv(g, d', g.fops);
  }

  /** From now on the stripe counts as fetched for good. */
  lemma SectorsDone(g: G, s: nat)
    requires Inv(g) && s in g.fops && g.fops[s].Syncing?
    requires forall k: nat | k < |g.conf.stripe| && g.conf.stripe[k] == s :: g.disk[k].durable == g.disk[k].acked
    ensures SectorsOk(g.conf, g.w.shared, g.done + {s}, g.disk, g.plain)
  {
    hide WorldOk, F.Valid, FetchesOk, ChansOk, Aligned;
    assert FetchOpOk(g.conf, g.fe, g.bufs, g.disk, s, g.fops[s]);
    forall k: nat | k < |g.disk| ensures OneSectorOk(g.conf, g.w.shared, g.done + {s}, g.disk[k], g.plain[k], k) {
      assert OneSectorOk(g.conf, g.w.shared, g.done, g.disk[k], g.plain[k], k);
      if g.conf.stripe[k] == s {
        CopyingSector(g, s, k);
        FetchHardened(g.disk[k], g.plain[k], k < |g.conf.source|, SourceAt(g.conf, k));
        assert g.disk[k].Harden(g.disk[k].acked) == g.disk[k];
      }
    }
  }

  lemma FetchesDone(conf: Conf, a: F.State, b: F.State, done: set<nat>, shared: Shared, s: nat)
    requires |shared.fetch| == |conf.src| && FetchesOk(conf, a, done, shared) && OthersKept(a, b, s)
    requires s < |conf.src| && conf.src[s] && F.InPhase(b.phases, s, F.FetchedPhase)
    requires forall f | f in b.finished && f.1 :: f in a.finished || f == (s, true)
    ensures FetchesOk(conf, b, done + {s}, shared)
  {
    forall t: nat | F.Active(b.phases, t) ensures t < |conf.src| && conf.src[t] {
      assert F.Active(a.phases, t);
    }
    forall t: nat | F.InPhase(b.phases, t, F.FetchedPhase) ensures t in done + {s} {
      assert t != s ==> F.InPhase(a.phases, t, F.FetchedPhase);
    }
    forall t | t in done + {s} ensures !F.Active(b.phases, t) {
      assert t != s ==> !F.Active(a.phases, t);
    }
  }

  lemma FinishInv(g: G, s: nat, fe: F.State)
    requires Inv(g) && s in g.fops && g.fops[s].Syncing?
    requires forall k: nat | k < |g.conf.stripe| && g.conf.stripe[k] == s :: g.disk[k].durable == g.disk[k].acked
    requires F.Valid(fe, |g.conf.src|) && OthersKept(g.fe, fe, s) && F.InPhase(fe.phases, s, F.FetchedPhase)
             && s !in fe.writing
    requires forall f | f in fe.finished && f.1 :: f in g.fe.finished || f == (s, true)
    ensures Inv(g.(fe := fe, fops := g.fops - {s}, done := g.done + {s}))
  {
    hide WorldOk, F.Valid, FetchesOk, SectorsOk, ChansOk, OthersKept, FetchOpsOk;
    SectorsDone(g, s);
    SyncingActive(g, s);
    FetchesDone(g.conf, g.fe, fe, g.done, g.w.shared, s);
    FetchOpsFrame(g.conf, g.fe, fe, g.bufs, g.fops, g.fops - {s}, g.disk, s);
    WorldMore(g.conf, g.w, g.done, g.done + {s});
  }

  lemma SyncingActive(g: G, s: nat)
    requires Inv(g) && s in g.fops
    ensures F.Active(g.fe.phases, s) && s < |g.conf.src| && g.conf.src[s]
  {
    hide WorldOk, F.Valid, SectorsOk, ChansOk;
    assert FetchOpOk(g.conf, g.fe, g.bufs, g.disk, s, g.fops[s]);
  }

  // ----- the target's answers -----

  lemma FailedMovedOn(fe: F.State, n: nat, s: nat)
    requires F.Valid(fe, n) && s in fe.writing
    ensures s in fe.buffers && fe.pool.Holds(fe.buffers[s])
    ensures MovedOn(fe, F.TargetDone(fe, s, false, false), s) && s !in F.TargetDone(fe, s, false, false).writing
    ensures F.TargetDone(fe, s, false, true) == F.TargetDone(fe, s, false, false)
    ensures F.InPhase(fe.phases, s, F.FetchingPhase) ==>
            F.TargetDone(fe, s, true, false) == F.TargetDone(fe, s, false, false)
  {
    hide F.Completed, F.Valid;
    FX.InFlightHasBuffer(fe, n, s);
    var r := fe.(writing := fe.writing - {s});
    CompletedMovedOn(r, s);
    CompletedWriting(r, s);
  }

  lemma FailedInv(g: G, s: nat)
    requires Inv(g) && s in g.fops
    ensures s in g.fe.buffers && g.fe.pool.Holds(g.fe.buffers[s]) && s < |g.conf.src|
    ensures var fe := F.TargetDone(g.fe, s, false, false);
            Inv(g.(fe := fe, w := Marked(g.w, g.fe, fe, s), fops := g.fops - {s}))
  {
    hide WorldOk, F.Valid, FetchesOk, SectorsOk, ChansOk, FetchOpsOk, FetchOpOk, MovedOn, F.TargetDone, Marked;
    FetchOpsKeys(g);
    SyncingActive(g, s);
    FailedMovedOn(g.fe, |g.conf.src|, s);
    F.TargetDoneValid(g.fe, s, false, false, |g.conf.src|);
    MovedOnInv(g, F.TargetDone(g.fe, s, false, false), s, g.fops - {s});
  }

  lemma WrittenMovedOn(fe: F.State, n: nat, s: nat)
    requires F.Valid(fe, n) && s in fe.writing && F.InPhase(fe.phases, s, F.FetchingPhase)
    ensures s in fe.buffers && fe.pool.Holds(fe.buffers[s])
    ensures var after := F.TargetDone(fe, s, true, true);
            MovedOn(fe, after, s) && s in after.writing && F.InPhase(after.phases, s, F.FlushingPhase)
            && !F.GivesUp(fe, after, s)
  {
    hide F.Completed, F.Valid;
    FX.InFlightHasBuffer(fe, n, s);
  }

  lemma WrittenInv(g: G, s: nat)
    requires Inv(g) && s in g.fops && g.fops[s].Copying?
    requires forall k: nat | k < |g.conf.stripe| && g.conf.stripe[k] == s ::
              k in g.fops[s].at && g.disk[k].acked == g.fops[s].at[k]
    ensures s in g.fe.buffers && g.fe.pool.Holds(g.fe.buffers[s]) && s < |g.conf.src|
    ensures var fe := F.TargetDone(g.fe, s, true, true);
            Inv(g.(fe := fe, w := Marked(g.w, g.fe, fe, s), fops := g.fops[s := Syncing(Acked(g.disk))]))
  {
    hide WorldOk, F.Valid, FetchesOk, SectorsOk, ChansOk, MovedOn, F.TargetDone, Marked;
    FetchOpsKeys(g);
    SyncingActive(g, s);
    assert FetchOpOk(g.conf, g.fe, g.bufs, g.disk, s, g.fops[s]);
    WrittenMovedOn(g.fe, |g.conf.src|, s);
    F.TargetDoneValid(g.fe, s, true, true, |g.conf.src|);
    var fe := F.TargetDone(g.fe, s, true, true);
    SyncingOp(g, s, fe);
    hide FetchOpOk, FetchOpsOk;
    MovedOnInv(g, fe, s, g.fops[s := Syncing(Acked(g.disk))]);
  }

  lemma AckedCovers(g: G, s: nat)
    requires Inv(g) && s in g.fops && g.fops[s].Copying?
    ensures F.InPhase(g.fe.phases, s, F.FetchingPhase)
    ensures forall k: nat | k < |g.conf.stripe| && g.conf.stripe[k] == s && k in g.fops[s].at ::
              AckAll(g.disk, g.fops[s].at)[k].acked == g.fops[s].at[k]
  {
    hide WorldOk, F.Valid, FetchesOk, ChansOk, SectorsOk;
    assert FetchOpOk(g.conf, g.fe, g.bufs, g.disk, s, g.fops[s]);
  }

  lemma WroteInv(g: G, step: Step)
    requires Inv(g) && step.TargetDone? && Enabled(g, step) && step.ok && g.fops[step.s].Copying?
    ensures Inv(DoCopy(g, step))
  {
    hide WorldOk, F.Valid, FetchesOk, SectorsOk, ChansOk, F.TargetDone, Marked, FetchOpsOk, AckAll;
    var s := step.s;
    AckTarget(g, s);
    AckedCovers(g, s);
    FetchOpsKeys(g);
    var g1 := g.(disk := AckAll(g.disk, g.fops[s].at));
    FailedMovedOn(g.fe, |g.conf.src|, s);
    if step.submitted {
      WrittenInv(g1, s);
    } else {
      FailedInv(g1, s);
    }
  }

  lemma SyncedMovedOn(fe: F.State, n: nat, s: nat)
    requires F.Valid(fe, n) && s in fe.writing && F.InPhase(fe.phases, s, F.FlushingPhase)
    ensures s in fe.buffers && fe.pool.Holds(fe.buffers[s])
    ensures forall submitted ::
              var after := F.TargetDone(fe, s, true, submitted);
              && OthersKept(fe, after, s) && F.InPhase(after.phases, s, F.FetchedPhase) && s !in after.writing
              && !F.GivesUp(fe, after, s)
              && forall f | f in after.finished && f.1 :: f in fe.finished || f == (s, true)
  {
    hide F.Valid;
    FX.InFlightHasBuffer(fe, n, s);
  }

  lemma SyncedFacts(g: G, s: nat)
    requires Inv(g) && s in g.fops && g.fops[s].Syncing?
    ensures F.InPhase(g.fe.phases, s, F.FlushingPhase) && |g.fops[s].covers| == |g.disk|
    ensures forall k: nat | k < |g.disk| :: g.fops[s].covers[k] <= g.disk[k].acked
    ensures forall k: nat | k < |g.disk| && g.conf.stripe[k] == s ::
              HardenAll(g.disk, g.fops[s].covers)[k].durable == HardenAll(g.disk, g.fops[s].covers)[k].acked
  {
    hide WorldOk, F.Valid, FetchesOk, ChansOk;
    assert FetchOpOk(g.conf, g.fe, g.bufs, g.disk, s, g.fops[s]);
    forall k: nat | k < |g.disk| ensures g.disk[k].Valid() {
      assert OneSectorOk(g.conf, g.w.shared, g.done, g.disk[k], g.plain[k], k);
    }
  }

  lemma SyncedInv(g: G, step: Step)
    requires Inv(g) && step.TargetDone? && Enabled(g, step) && step.ok && g.fops[step.s].Syncing?
    ensures Inv(DoCopy(g, step))
  {
    hide WorldOk, F.Valid, FetchesOk, SectorsOk, ChansOk, F.TargetDone, F.GivesUp, FetchOpsOk, HardenAll, OthersKept;
    var s := step.s;
    SyncedFacts(g, s);
    SyncTarget(g, g.fops[s].covers);
    FetchOpsKeys(g);
    SyncedMovedOn(g.fe, |g.conf.src|, s);
    F.TargetDoneValid(g.fe, s, true, step.submitted, |g.conf.src|);
    SyncingActive(g, s);
    FinishInv(g.(disk := HardenAll(g.disk, g.fops[s].covers)), s, F.TargetDone(g.fe, s, true, step.submitted));
  }

  lemma TargetDoneInv(g: G, step: Step)
    requires Inv(g) && step.TargetDone? && Enabled(g, step)
    ensures Inv(DoCopy(g, step))
  {
    if !step.ok {
      hide WorldOk, F.Valid, FetchesOk, SectorsOk, ChansOk, F.TargetDone, Marked, FetchOpsOk;
      FetchOpsKeys(g);
      FailedMovedOn(g.fe, |g.conf.src|, step.s);
      FailedInv(g, step.s);
    } else if g.fops[step.s].Copying? {
      WroteInv(g, step);
    } else {
      SyncedInv(g, step);
    }
  }
}
