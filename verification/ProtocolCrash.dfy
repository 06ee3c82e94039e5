/** A crash at any moment leads to a state that satisfies the invariant again, in which the plain
    disk has crashed in a way that a plain disk may. */
module ProtocolCrash {
  import opened Disk
  import opened Metadata
  import opened Mirror
  import opened Protocol
  import F = Fetcher
  import FX = FetcherRuns
  import FC = FlusherCrash
  import FR = FlusherRuns

  /** A FETCHED bit that is read back belongs to a stripe that is done. */
  lemma ReloadedHeader(conf: Conf, w: FC.World, done: set<nat>, images: seq<seq<Header>>, s: nat)
    requires WorldOk(conf, w, done) && FR.CrashChoice(w.disk, images) && s < |conf.src|
    ensures s < |w.shared.fetch| && |FR.Reloaded(w, images)| == |conf.src|
    ensures var h := FR.Reloaded(w, images)[s];
            && h.hasSource == conf.src[s]
            && (h.fetched ==> s in done)
            && (w.shared.fetch[s] == Fetched ==> h.fetched)
            && (w.shared.FetchedIfNeeded(s) && conf.src[s] ==> h.fetched)
  {
    FR.ReloadKeeps(w, images, s, FetchedBit);
    FR.LoadDefined(w, images);
    ImageAt(w.fl.headers, s);
    assert images[GroupOf(s)] in w.disk.images[GroupOf(s)];
    assert FC.HeaderAgrees(w, s);
    assert w.shared.fetch[s] == Fetched ==> w.shared.Shows(s, FetchedBit);
  }

  lemma NewWithin(headers: seq<Header>)
    requires forall h | h in headers :: h.fetched ==> h.hasSource
    ensures FC.Inv(FC.NewWorld(headers)) && FR.FetchedWithin(FC.NewWorld(headers), FetchedIn(headers))
  {
    FC.NewWorldInv(headers);
    hide FC.Inv;
    var w := FC.NewWorld(headers);
    forall s: nat, img: seq<Header> | s < |headers| && GroupOf(s) < |w.disk.images| && img in w.disk.images[GroupOf(s)]
        && Slot(s) < |img|
      && img[Slot(s)].fetched
      ensures s in FetchedIn(headers)
    {
      ImageAt(headers, s);
    }
  }

  lemma NewWorldOk(conf: Conf, headers: seq<Header>)
    requires |headers| == |conf.src|
    requires forall s: nat | s < |headers| ::
              headers[s].hasSource == conf.src[s] && (headers[s].fetched ==> headers[s].hasSource)
    ensures WorldOk(conf, FC.NewWorld(headers), FetchedIn(headers))
    ensures var shared := FC.NewWorld(headers).shared;
            && |shared.fetch| == |shared.written| == |conf.src|
            && forall s: nat | s < |conf.src| ::
                 && (shared.fetch[s] == Fetched <==> headers[s].fetched)
                 && (shared.FetchedIfNeeded(s) <==> headers[s].fetched || !conf.src[s])
  {
    hide FC.Inv, FR.FetchedWithin;
    NewWithin(headers);
  }

  ghost predicate CrashPicks(g: G, picks: seq<nat>) {
    |picks| == |g.disk| && forall k: nat | k < |picks| :: g.disk[k].durable <= picks[k] < |g.disk[k].hist|
  }

  /** One sector after the crash, for whatever value the cache had left behind. */
  lemma CrashedSector(g: G, picks: seq<nat>, images: seq<seq<Header>>, k: nat)
    requires Inv(g) && CrashPicks(g, picks) && FR.CrashChoice(g.w.disk, images) && k < |g.disk|
    ensures CorrespondingAt(g, picks, k) < |g.plain[k].hist|
    ensures g.plain[k].durable <= CorrespondingAt(g, picks, k)
    ensures |FR.Reloaded(g.w, images)| == |g.conf.src|
    ensures var s := g.conf.stripe[k];
            var loaded := FR.Reloaded(g.w, images)[s].fetched;
            SectorOk(g.conf.src[s], loaded, loaded || !g.conf.src[s], k < |g.conf.source|, g.disk[k].Crash(picks[k]),
                     CrashedPlain(g, picks, FR.Reloaded(g.w, images))[k], SourceAt(g.conf, k))
  {
    hide FC.Inv, FR.FetchedWithin, F.Valid, FetchesOk, ChansOk, FetchOpsOk, Aligned, FR.Reloaded;
    var s := g.conf.stripe[k];
    ReloadedHeader(g.conf, g.w, g.done, images, s);
    assert OneSectorOk(g.conf, g.w.shared, g.done, g.disk[k], g.plain[k], k);
    CrashBoth(g.conf.src[s], s in g.done, Published(g.w.shared, g.conf, k), k < |g.conf.source|, g.disk[k], g.plain[k],
              SourceAt(g.conf, k), picks[k], FR.Reloaded(g.w, images)[s].fetched);
  }

  lemma CrashedSectors(g: G, step: Step)
    requires Inv(g) && step.Crash? && Enabled(g, step)
    ensures var g' := DoCrash(g, step);
            && WorldOk(g.conf, g'.w, g'.done) && Shapes(g.conf, g'.w.shared, g'.disk, g'.plain)
            && SectorsOk(g.conf, g'.w.shared, g'.done, g'.disk, g'.plain)
            && forall s | s in g'.done :: s < |g.conf.src| && g.conf.src[s] && g'.w.shared.fetch[s] == Fetched
  {
    hide FC.Inv, FR.FetchedWithin, F.Valid, FetchesOk, ChansOk, FetchOpsOk, SectorOk, FR.Reloaded, FC.NewWorld,
         CorrespondingAt;
    var headers := FR.Reloaded(g.w, step.images);
    ReloadedLength(g, step.images);
    forall s: nat | s < |headers| ensures headers[s].hasSource == g.conf.src[s]
        && (headers[s].fetched ==> headers[s].hasSource) {
      ReloadedHeader(g.conf, g.w, g.done, step.images, s);
      DoneSourced(g, s);
    }
    NewWorldOk(g.conf, headers);
    var g' := DoCrash(g, step);
    forall k: nat | k < |g.disk| ensures OneSectorOk(g.conf, g'.w.shared, g'.done, g'.disk[k], g'.plain[k], k) {
      CrashedSector(g, step.picks, step.images, k);
    }
  }

  lemma ReloadedLength(g: G, images: seq<seq<Header>>)
    requires Inv(g) && FR.CrashChoice(g.w.disk, images)
    ensures |FR.Reloaded(g.w, images)| == |g.conf.src|
  {
    hide FR.FetchedWithin, F.Valid, FetchesOk, ChansOk, FetchOpsOk, SectorsOk;
  }

  lemma DoneSourced(g: G, s: nat)
    requires Inv(g) && s < |g.conf.src|
    ensures s in g.done ==> g.conf.src[s]
  {
    hide WorldOk, F.Valid, SectorsOk, ChansOk, FetchOpsOk;
  }

  lemma CrashInv(g: G, step: Step)
    requires Inv(g) && step.Crash? && Enabled(g, step)
    ensures Inv(DoCrash(g, step))
  {
    hide FC.Inv, FR.FetchedWithin, F.Valid, SectorsOk, FetchOpsOk, CorrespondingAt, FC.NewWorld, FR.Reloaded, FetchesOk;
    CrashedSectors(g, step);
    var g' := DoCrash(g, step);
    FX.NewStateValid(step.autofetch, step.sourceStripes, |g.conf.src|);
    NewFetches(g'.conf, g'.done, g'.w.shared, step.autofetch, step.sourceStripes);
    assert FetchOpsOk(g'.conf, g'.fe, g'.bufs, g'.fops,
                      g'.disk) by { NoFetchOps(g'.conf, step.autofetch, step.sourceStripes, g'.disk); }
    forall c: nat | c < |g'.chans| ensures ChanOk(g'.conf, g'.w.shared, g'.disk, g'.plain, g'.chans[c]) {
    }
  }

  lemma NewFetches(conf: Conf, done: set<nat>, shared: Shared, autofetch: bool, sourceStripes: nat)
    requires |shared.fetch| == |conf.src|
    requires forall s | s in done :: s < |conf.src| && conf.src[s] && shared.fetch[s] == Fetched
    ensures FetchesOk(conf, F.NewState(autofetch, sourceStripes), done, shared)
  {
  }

  lemma NoFetchOps(conf: Conf, autofetch: bool, sourceStripes: nat, disk: seq<Cell>)
    requires ConfOk(conf) && |disk| == |conf.stripe|
    ensures FetchOpsOk(conf, F.NewState(autofetch, sourceStripes), map[], map[], disk)
  {
  }
}
