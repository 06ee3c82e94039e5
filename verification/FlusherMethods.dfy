/** The methods of the metadata flusher, each proved to compute a composition of atomic steps. */
module FlusherMethods {
  import Disk
  import opened BufferPool
  import opened Metadata
  import opened Flusher

  datatype MetaOp = WriteSector(sector: nat, image: seq<Header>, id: nat) | FlushDevice(id: nat)

  // ----- start_writes -----

  datatype Started = Started(st: State, ids: seq<nat>, ops: seq<MetaOp>)

  function StartAll(st: State): (r: Started)
    requires Valid(st)
    ensures Valid(r.st) && !CanStart(r.st) && |r.st.headers| == |st.headers|
    ensures |r.ids| == |r.ops| && Pending(r.st, r.ids)
    ensures forall s | s in st.updates :: s in r.st.updates && r.st.updates[s] == st.updates[s]
    decreases |st.queue|
  {
    if !CanStart(st) then Started(st, [], [])
    else
      StartKeepsValid(st);
      var rest := StartAll(StartOne(st));
      if Redundant(st) then rest
      else
        StartKeepsUpdates(st);
        assert st.queue[0].stripe in StartOne(st).updates;
        Started(rest.st, [st.queue[0].stripe] + rest.ids, StartOps(st) + rest.ops)
  }

  /** The write staged for the head of the queue. */
  function StartOps(st: State): seq<MetaOp>
    requires Valid(st) && CanStart(st)
  {
    var s := st.queue[0].stripe;
    if Redundant(st) then []
    else
      var headers := StartOne(st).headers;
      ImageAt(headers, s);
      [WriteSector(SectorOf(s), Image(headers, GroupOf(s)), s)]
  }

  lemma StartShortens(st: State)
    requires Valid(st) && CanStart(st)
    ensures Valid(StartOne(st)) && |StartOne(st).headers| == |st.headers| && |StartOne(st).queue| < |st.queue|
  {
    StartKeepsValid(st);
  }

  lemma StartAllUnfolds(st: State)
    requires Valid(st) && CanStart(st)
    ensures Valid(StartOne(st)) && |StartOne(st).headers| == |st.headers| && |StartOne(st).queue| < |st.queue|
    ensures StartAll(st) == Started(StartAll(StartOne(st)).st,
                                    (if Redundant(st) then [] else [st.queue[0].stripe]) + StartAll(StartOne(st)).ids,
                                    StartOps(st) + StartAll(StartOne(st)).ops)
  {
    hide Valid, CanStart, StartOne, Pending;
    StartShortens(st);
  }

  lemma StartAllEnds(st: State)
    requires Valid(st) && !CanStart(st)
    ensures StartAll(st) == Started(st, [], [])
  {
  }

  lemma FrontFacts(st: State)
    requires Valid(st) && CanStart(st)
    ensures st.queue[0].stripe < |st.headers| && st.pool.Valid() && st.pool.available[0] < |st.pool.inUse|
  {
    assert st.queue[0] in st.queue;
  }

  /** These updates were just started. */
  predicate Pending(st: State, ids: seq<nat>) {
    forall s | s in ids :: s in st.updates && st.updates[s].stage.Writing?
  }

  function AbandonAll(st: State, ids: seq<nat>): (r: State)
    requires Valid(st)
    ensures Valid(r) && |r.headers| == |st.headers|
    ensures forall s | s in st.updates && s !in ids :: s in r.updates && r.updates[s] == st.updates[s]
    ensures forall s | s in r.updates :: s in st.updates && r.updates[s] == st.updates[s]
  {
    if ids == [] then st
    else
      var r := AbandonAll(st, ids[..|ids| - 1]);
      var s := ids[|ids| - 1];
      if s in r.updates then AbandonKeepsValid(r, s); Abandon(r, s) else r
  }

  function StartWritesSpec(st: State, submitted: bool): (r: State)
    requires Valid(st)
    ensures Valid(r) && |r.headers| == |st.headers|
  {
    var a := StartAll(st);
    if submitted then a.st else AbandonAll(a.st, a.ids)
  }

  // ----- poll_channel -----

  lemma UpdateFacts(st: State, s: nat)
    requires Valid(st) && s in st.updates
    ensures s < |st.headers| && st.pool.Valid() && st.updates[s].header == st.headers[s]
    ensures st.updates[s].stage.Writing? ==> st.pool.Holds(st.updates[s].buffer)
  {
  }

  /** One completion processed at once: the atomic step the model of the whole device uses. */
  function React(st: State, c: (nat, bool)): (r: State)
    requires Valid(st)
    ensures Valid(r) && |r.headers| == |st.headers|
    ensures forall s | s != c.0 :: s in r.updates <==> s in st.updates
    ensures forall s | s != c.0 && s in r.updates :: r.updates[s] == st.updates[s]
    ensures c.0 in r.updates ==> c.0 in st.updates
  {
    if c.0 !in st.updates then st
    else if !c.1 then AbandonKeepsValid(st, c.0); Abandon(st, c.0)
    else if st.updates[c.0].stage.Writing? then WriteDoneKeepsValid(st, c.0); WriteDone(st, c.0)
    else FlushDoneKeepsValid(st, c.0); FlushDone(st, c.0)
  }

  function ReactAll(st: State, cs: seq<(nat, bool)>): (r: State)
    requires Valid(st)
    ensures Valid(r) && |r.headers| == |st.headers|
    ensures forall s | s in r.updates :: s in st.updates
    ensures forall s | s in st.updates && (forall c | c in cs ::
             c.0 != s) :: s in r.updates && r.updates[s] == st.updates[s]
  {
    hide Valid, React;
    if cs == [] then st else React(ReactAll(st, cs[..|cs| - 1]), cs[|cs| - 1])
  }

  /** The stripes whose write was acknowledged by this batch, in order. */
  function NewlyFlushing(st: State, cs: seq<(nat, bool)>): seq<nat> {
    if cs == [] then []
    else
      var c := cs[|cs| - 1];
      NewlyFlushing(st, cs[..|cs| - 1])
      + if c.1 && c.0 in st.updates && st.updates[c.0].stage.Writing? then [c.0] else []
  }

  /** The stripes whose flush was acknowledged by this batch, with the header to publish. */
  function Finished(st: State, cs: seq<(nat, bool)>): (r: seq<(nat, Header)>)
    requires Valid(st)
    ensures forall f | f in r :: f.0 < |st.headers| && f.0 in st.updates && (f.0, true) in cs
  {
    if cs == [] then []
    else
      var c := cs[|cs| - 1];
      Finished(st, cs[..|cs| - 1])
      + if c.1 && c.0 in st.updates && st.updates[c.0].stage.Flushing? then [(c.0, st.updates[c.0].header)] else []
  }

  function PublishAll(shared: Shared, finished: seq<(nat, Header)>): (r: Shared)
    requires |shared.fetch| == |shared.written|
    requires forall f | f in finished :: f.0 < |shared.fetch|
    ensures |r.fetch| == |shared.fetch| && |r.written| == |shared.written|
  {
    if finished == [] then shared
    else
      var (s, h) := finished[|finished| - 1];
      assert (s, h) in finished;
      PublishAll(shared, finished[..|finished| - 1]).SetHeader(s, h)
  }

  function PollSpec(st: State, cs: seq<(nat, bool)>, submitted: bool): (r: State)
    requires Valid(st)
    ensures Valid(r) && |r.headers| == |st.headers|
  {
    var a := ReactAll(st, cs);
    if submitted then a else AbandonAll(a, NewlyFlushing(st, cs))
  }

  lemma {:induction false} NewlyFlushingFlushing(st: State, cs: seq<(nat, bool)>, s: nat)
    requires Valid(st) && Disk.DistinctIds(cs) && s in NewlyFlushing(st, cs)
    ensures s in ReactAll(st, cs).updates && ReactAll(st, cs).updates[s].stage.Flushing?
    ensures exists c :: c in cs && c.0 == s
  {
    hide Valid, Abandon;
    var n := |cs| - 1;
    var c := cs[n];
    if s in NewlyFlushing(st, cs[..n]) {
      NewlyFlushingFlushing(st, cs[..n], s);
      var d :| d in cs[..n] && d.0 == s;
      assert c.0 != s;
    } else {
      assert c.0 == s && forall d | d in cs[..n] :: d.0 != s;
      assert c in cs;
    }
  }

  function FlushOps(ids: seq<nat>): seq<MetaOp> {
    if ids == [] then [] else FlushOps(ids[..|ids| - 1]) + [FlushDevice(ids[|ids| - 1])]
  }

  function Ids(finished: seq<(nat, Header)>): set<nat> {
    set f | f in finished :: f.0
  }

  /** In the middle of a batch the object still lists the updates it has not published yet. */
  predicate Lags(a: State, view: State, done: set<nat>) {
    && view == a.(updates := view.updates)
    && a.updates == view.updates - done && done <= view.updates.Keys
  }

  lemma BatchEmpty(st: State)
    requires Valid(st)
    ensures ReactAll(st, []) == st && Finished(st, []) == [] && NewlyFlushing(st, []) == []
    ensures Lags(st, st, Ids([]))
  {
  }

  /** What the loop over a batch does with one completion. */
  function Handle(st: State, c: (nat, bool)): State
    requires c.0 in st.updates ==> c.0 < |st.headers|
    requires c.0 in st.updates && st.updates[c.0].stage.Writing? ==> st.pool.Holds(st.updates[c.0].buffer)
  {
    if c.0 !in st.updates then st
    else if !c.1 then Abandon(st, c.0)
    else if st.updates[c.0].stage.Writing? then WriteDone(st, c.0)
    else st.(updating := st.updating - {st.updates[c.0].sector})
  }

  lemma AbandonLags(a: State, st: State, s: nat, done: set<nat>)
    requires Valid(a) && Lags(a, st, done) && s !in done && s in st.updates
    requires s < |st.headers| && (st.updates[s].stage.Writing? ==> st.pool.Holds(st.updates[s].buffer))
    ensures Lags(Abandon(a, s), Abandon(st, s), done)
  {
    hide Valid;
    assert (st.updates - {s}) - done == (st.updates - done) - {s};
  }

  lemma WriteDoneLags(a: State, st: State, s: nat, done: set<nat>)
    requires Lags(a, st, done) && s !in done && s in st.updates && st.pool.Holds(st.updates[s].buffer)
    ensures Lags(WriteDone(a, s), WriteDone(st, s), done)
  {
    var u := st.updates[s].(stage := Flushing);
    assert st.updates[s := u] - done == (st.updates - done)[s := u];
  }

  lemma FlushDoneLags(a: State, st: State, s: nat, done: set<nat>)
    requires Lags(a, st, done) && s !in done && s in st.updates
    ensures Lags(FlushDone(a, s), st.(updating := st.updating - {st.updates[s].sector}), done + {s})
  {
    assert st.updates - (done + {s}) == (st.updates - done) - {s};
  }

  lemma HandleLags(a: State, st: State, c: (nat, bool), done: set<nat>)
    requires Valid(a) && Lags(a, st, done) && c.0 !in done
    ensures c.0 in a.updates <==> c.0 in st.updates
    ensures c.0 in st.updates ==> a.updates[c.0] == st.updates[c.0] && c.0 < |st.headers| && st.pool.Valid()
    ensures c.0 in st.updates && st.updates[c.0].stage.Writing? ==> st.pool.Holds(st.updates[c.0].buffer)
    ensures var publish := c.1 && c.0 in a.updates && a.updates[c.0].stage.Flushing?;
            Lags(React(a, c), Handle(st, c), if publish then done + {c.0} else done)
  {
    if c.0 in a.updates {
      UpdateFacts(a, c.0);
      hide Valid, Lags;
      if !c.1 {
        AbandonLags(a, st, c.0, done);
      } else if a.updates[c.0].stage.Writing? {
        WriteDoneLags(a, st, c.0, done);
      } else {
        FlushDoneLags(a, st, c.0, done);
      }
    }
  }

  /** One more completion of a batch with distinct ids. */
  lemma BatchStep(st: State, cs: seq<(nat, bool)>, i: nat)
    requires Valid(st) && Disk.DistinctIds(cs) && i < |cs|
    ensures ReactAll(st, cs[..i + 1]) == React(ReactAll(st, cs[..i]), cs[i])
    ensures var (s, ok) := cs[i];
            && s !in Ids(Finished(st, cs[..i]))
            && (s in ReactAll(st, cs[..i]).updates <==> s in st.updates)
            && (s in st.updates ==> ReactAll(st, cs[..i]).updates[s] == st.updates[s])
            && Finished(st, cs[..i + 1]) == Finished(st, cs[..i])
               + (if ok && s in st.updates && st.updates[s].stage.Flushing? then [(s, st.updates[s].header)] else [])
            && NewlyFlushing(st, cs[..i + 1]) == NewlyFlushing(st, cs[..i])
               + (if ok && s in st.updates && st.updates[s].stage.Writing? then [s] else [])
  {
    hide Valid, React;
    assert cs[..i + 1][..i] == cs[..i] && cs[..i + 1][i] == cs[i];
  }

  // ----- the objects -----

  /** An I/O channel to the metadata device: requests added, and requests the kernel accepted. */
  class MetaChannel {
    var staged: seq<MetaOp>
    var sent: seq<MetaOp>

    constructor ()
      ensures staged == sent == []
    {
      staged, sent := [], [];
    }

    method Add(op: MetaOp)
      modifies this
      ensures staged == old(staged) + [op] && sent == old(sent)
    {
      staged := staged + [op];
    }

    /** A failed submission accepts nothing; no completion will arrive for what was staged. */
    method Submit(ok: bool)
      modifies this
      ensures staged == [] && sent == old(sent) + if ok then old(staged) else []
    {
      sent := sent + if ok then staged else [];
      staged := [];
    }
  }

  class MetadataFlusher {
    const channel: MetaChannel
    const pool: AlignedBufferPool
    const shared: SharedMetadataState
    var headers: seq<Header>
    var sectorsBeingUpdated: set<nat>
    var headerUpdates: map<nat, Update>
    var queuedRequests: seq<Request>

    function View(): State
      reads this, pool
    {
      State(headers, sectorsBeingUpdated, headerUpdates, queuedRequests, pool.View())
    }

    ghost predicate Ok()
      reads this, pool, channel, shared
    {
      && Valid(View()) && channel.staged == []
      && |shared.fetch| == |shared.written| == |headers|
    }

    constructor (loaded: seq<Header>, shared: SharedMetadataState)
      requires |shared.fetch| == |shared.written| == |loaded|
      ensures Ok() && View() == NewState(loaded) && this.shared == shared
      ensures fresh(pool) && fresh(channel)
    {
      var p := new AlignedBufferPool(MAX_CONCURRENT_CHANGES);
      var c := new MetaChannel();
      this.shared, pool, channel := shared, p, c;
      headers, sectorsBeingUpdated, headerUpdates, queuedRequests := loaded, {}, map[], [];
    }

    method SetStripeFetched(stripe: nat)
      requires Ok() && stripe < |headers|
      modifies this
      ensures Ok() && View() == old(View()).(queue := old(View()).queue + [Request(stripe, FetchedBit)])
    {
      queuedRequests := queuedRequests + [Request(stripe, FetchedBit)];
    }

    method SetStripeWritten(stripe: nat)
      requires Ok() && stripe < |headers|
      modifies this
      ensures Ok() && View() == old(View()).(queue := old(View()).queue + [Request(stripe, WrittenBit)])
    {
      queuedRequests := queuedRequests + [Request(stripe, WrittenBit)];
    }

    /** The head of the queue: skipped if its bit is set, else its sector is staged for writing. */
    method StartFront() returns (started: bool)
      requires Valid(View()) && CanStart(View())
      modifies this, pool, channel
      ensures Valid(View()) && View() == StartOne(old(View()))
      ensures started == !Redundant(old(View())) && channel.sent == old(channel.sent)
      ensures channel.staged == old(channel.staged) + StartOps(old(View()))
    {
      hide Valid;
      StartKeepsValid(View());
      FrontFacts(View());
      var req := queuedRequests[0];
      queuedRequests := queuedRequests[1..];
      if headers[req.stripe].Has(req.bit) {
        return false;
      }
      var found, buf := pool.GetBuffer();
      headers := headers[req.stripe := headers[req.stripe].Set(req.bit)];
      var start := GroupOf(req.stripe) * STRIPE_HEADERS_PER_SECTOR;
      var end := if start + STRIPE_HEADERS_PER_SECTOR < |headers| then start + STRIPE_HEADERS_PER_SECTOR else |headers|;
      ImageAt(headers, req.stripe);
      channel.Add(WriteSector(SectorOf(req.stripe), headers[start..end], req.stripe));
      sectorsBeingUpdated := sectorsBeingUpdated + {SectorOf(req.stripe)};
      headerUpdates := headerUpdates[req.stripe := Flusher.Update.Update(buf, Writing, headers[req.stripe], req.bit,
            SectorOf(req.stripe))];
      started := true;
    }

    method StartWrites(submitOk: bool)
      requires Ok()
      modifies this, pool, channel
      ensures Ok() && View() == StartWritesSpec(old(View()), submitOk)
      ensures channel.sent == old(channel.sent) + if submitOk then StartAll(old(View())).ops else []
    {
      hide Valid, StartOne, StartAll, StartOps, CanStart, Redundant;
      ghost var before := View();
      var newlyAdded: seq<nat> := [];
      while CanStart(View())
        invariant Valid(View()) && |shared.fetch| == |shared.written| == |headers|
        invariant channel.sent == old(channel.sent)
        invariant StartAll(before) == Started(StartAll(View()).st, newlyAdded + StartAll(View()).ids,
                                              channel.staged + StartAll(View()).ops)
        decreases |queuedRequests|
      {
        StartAllUnfolds(View());
        var stripe := queuedRequests[0].stripe;
        var started := StartFront();
        if started {
          newlyAdded := newlyAdded + [stripe];
        }
      }
      StartAllEnds(View());
      assert newlyAdded + [] == newlyAdded && channel.staged + [] == channel.staged;
      if newlyAdded == [] {
        return;
      }
      channel.Submit(submitOk);
      if !submitOk {
        CleanupFailedSubmission(newlyAdded, true);
      }
    }

    method CleanupFailedSubmission(ids: seq<nat>, giveBack: bool)
      requires Valid(View())
      requires forall s | s in ids && s in headerUpdates :: headerUpdates[s].stage.Writing? == giveBack
      modifies this, pool
      ensures Valid(View()) && View() == AbandonAll(old(View()), ids)
      ensures |headers| == old(|headers|)
    {
      hide Valid, Abandon;
      ghost var before := View();
      for i := 0 to |ids|
        invariant Valid(View()) && View() == AbandonAll(before, ids[..i])
        invariant |headers| == old(|headers|)
      {
        assert ids[..i + 1][..i] == ids[..i];
        if ids[i] in headerUpdates {
          Withdraw(ids[i], giveBack);
        }
      }
      assert ids[..|ids|] == ids;
    }

    method Withdraw(s: nat, giveBack: bool)
      requires Valid(View()) && s in headerUpdates && headerUpdates[s].stage.Writing? == giveBack
      modifies this, pool
      ensures Valid(View()) && View() == Abandon(old(View()), s)
      ensures |headers| == old(|headers|)
    {
      var u := headerUpdates[s];
      AbandonKeepsValid(View(), s);
      headers := headers[s := headers[s].Clear(u.bit)];
      if giveBack {
        pool.ReturnBuffer(u.buffer);
      }
      sectorsBeingUpdated := sectorsBeingUpdated - {u.sector};
      headerUpdates := headerUpdates - {s};
    }

    /** One completion of a batch; publication is left to the end of the batch. */
    method Complete(c: (nat, bool)) returns (toFlush: bool, toPublish: bool)
      requires c.0 in headerUpdates ==> c.0 < |headers| && pool.View().Valid()
      requires c.0 in headerUpdates && headerUpdates[c.0].stage.Writing? ==>
               pool.View().Holds(headerUpdates[c.0].buffer)
      modifies this, pool, channel
      ensures View() == Handle(old(View()), c)
      ensures toFlush <==> c.1 && old(c.0 in headerUpdates && headerUpdates[c.0].stage.Writing?)
      ensures toPublish <==> c.1 && old(c.0 in headerUpdates && headerUpdates[c.0].stage.Flushing?)
      ensures channel.sent == old(channel.sent)
      ensures channel.staged == old(channel.staged) + if toFlush then [FlushDevice(c.0)] else []
    {
      var (s, success) := c;
      if s !in headerUpdates {
        return false, false;
      }
      var u := headerUpdates[s];
      if !success {
        headers := headers[s := headers[s].Clear(u.bit)];
        if u.stage.Writing? {
          pool.ReturnBuffer(u.buffer);
        }
        sectorsBeingUpdated := sectorsBeingUpdated - {u.sector};
        headerUpdates := headerUpdates - {s};
        return false, false;
      }
      match u.stage
      case Writing =>
        pool.ReturnBuffer(u.buffer);
        channel.Add(FlushDevice(s));
        headerUpdates := headerUpdates[s := u.(stage := Flushing)];
        return true, false;
      case Flushing =>
        sectorsBeingUpdated := sectorsBeingUpdated - {u.sector};
        return false, true;
    }

    method HandleBatch(cs: seq<(nat, bool)>) returns (finished: seq<(nat, Header)>, newlyFlushing: seq<nat>)
      requires Valid(View()) && channel.staged == [] && Disk.DistinctIds(cs)
      modifies this, pool, channel
      ensures finished == Finished(old(View()), cs) && newlyFlushing == NewlyFlushing(old(View()), cs)
      ensures Lags(ReactAll(old(View()), cs), View(), Ids(finished))
      ensures channel.sent == old(channel.sent) && channel.staged == FlushOps(newlyFlushing)
    {
      hide Valid, React, Handle, Lags, ReactAll, Finished, NewlyFlushing;
      ghost var before := View();
      finished, newlyFlushing := [], [];
      BatchEmpty(before);
      assert cs[..0] == [] && cs[..|cs|] == cs;
      for i := 0 to |cs|
        invariant Valid(before) && Lags(ReactAll(before, cs[..i]), View(), Ids(finished))
        invariant finished == Finished(before, cs[..i]) && newlyFlushing == NewlyFlushing(before, cs[..i])
        invariant channel.sent == old(channel.sent) && channel.staged == FlushOps(newlyFlushing)
      {
        var c := cs[i];
        BatchStep(before, cs, i);
        HandleLags(ReactAll(before, cs[..i]), View(), c, Ids(finished));
        var header := if c.0 in headerUpdates then headerUpdates[c.0].header else Header(false, false, false);
        var toFlush, toPublish := Complete(c);
        if toFlush {
          newlyFlushing := newlyFlushing + [c.0];
        }
        if toPublish {
          assert Ids(finished + [(c.0, header)]) == Ids(finished) + {c.0};
          finished := finished + [(c.0, header)];
        }
      }
    }

    method PollChannel(cs: seq<(nat, bool)>, submitOk: bool)
      requires Ok() && Disk.DistinctIds(cs)
      modifies this, pool, channel, shared
      ensures Ok() && View() == PollSpec(old(View()), cs, submitOk)
      ensures shared.View() == PublishAll(old(shared.View()), Finished(old(View()), cs))
      ensures channel.sent == old(channel.sent) + if submitOk then FlushOps(NewlyFlushing(old(View()), cs)) else []
    {
      hide Valid, Lags, ReactAll, Finished, NewlyFlushing;
      ghost var before := View();
      var finished, newlyFlushing := HandleBatch(cs);
      Publish(finished, ReactAll(before, cs));
      if newlyFlushing == [] {
        return;
      }
      channel.Submit(submitOk);
      if !submitOk {
        forall s | s in newlyFlushing && s in headerUpdates ensures headerUpdates[s].stage.Flushing? {
          NewlyFlushingFlushing(before, cs, s);
        }
        CleanupFailedSubmission(newlyFlushing, false);
      }
    }

    method Publish(finished: seq<(nat, Header)>, ghost a: State)
      requires Valid(a) && Lags(a, View(), Ids(finished))
      requires |shared.fetch| == |shared.written| && forall f | f in finished :: f.0 < |shared.fetch|
      modifies this, shared
      ensures View() == a
      ensures |shared.fetch| == old(|shared.fetch|) && |shared.written| == old(|shared.written|)
      ensures shared.View() == PublishAll(old(shared.View()), finished)
    {
      for j := 0 to |finished|
        invariant View() == a.(updates := headerUpdates)
        invariant headerUpdates == old(headerUpdates) - Ids(finished[..j])
        invariant |shared.fetch| == old(|shared.fetch|) && |shared.written| == old(|shared.written|)
        invariant shared.View() == PublishAll(old(shared.View()), finished[..j])
      {
        var (s, h) := finished[j];
        assert finished[..j + 1][..j] == finished[..j] && (s, h) in finished;
        assert Ids(finished[..j + 1]) == Ids(finished[..j]) + {s};
        headerUpdates := headerUpdates - {s};
        shared.SetStripeHeader(s, h);
      }
      assert finished[..|finished|] == finished;
    }

    method Update(submitWrites: bool, cs: seq<(nat, bool)>, submitFlushes: bool)
      requires Ok() && Disk.DistinctIds(cs)
      modifies this, pool, channel, shared
      ensures Ok()
      ensures View() == PollSpec(StartWritesSpec(old(View()), submitWrites), cs, submitFlushes)
      ensures shared.View() == PublishAll(old(shared.View()), Finished(StartWritesSpec(old(View()), submitWrites), cs))
    {
      hide Valid, StartWritesSpec, PollSpec, Finished;
      StartWrites(submitWrites);
      PollChannel(cs, submitFlushes);
    }

    method IsBusy() returns (busy: bool)
      requires Ok()
      ensures busy <==> headerUpdates != map[] || queuedRequests != []
    {
      busy := sectorsBeingUpdated != {} || queuedRequests != [];
      if headerUpdates != map[] {
        var s :| s in headerUpdates;
        assert SectorOf(s) in sectorsBeingUpdated;
      }
    }
  }

  function CeilDiv(a: nat, b: nat): nat
    requires b > 0
  {
    if a % b == 0 then a / b else a / b + 1
  }

  /** The stripes of the metadata cover the source. */
  lemma CeilFits(sectors: nat, size: nat, stripes: nat)
    requires size > 0
    ensures CeilDiv(sectors, size) <= stripes <==> sectors <= stripes * size
  {
    var q, r := sectors / size, sectors % size;
    assert sectors == q * size + r && r < size;
    assert (stripes + 1) * size == stripes * size + size && (q + 1) * size == q * size + size;
    if q < stripes {
      Disk.Scaled(q + 1, stripes, size);
    } else if stripes < q {
      Disk.Scaled(stripes + 1, q, size);
    }
  }

  /** The flusher of a device, over the metadata that was loaded: refused if the source has more sectors
      than the stripes that the metadata knows. */
  method OpenFlusher(loaded: seq<Header>, stripeSectors: nat, sourceSectors: nat, shared: SharedMetadataState)
    returns (r: MetadataFlusher?)
    requires stripeSectors > 0 && |shared.fetch| == |shared.written| == |loaded|
    ensures r != null <==> sourceSectors <= |loaded| * stripeSectors
    ensures r != null ==> fresh(r) && r.Ok() && r.View() == NewState(loaded) && r.shared == shared
  {
    CeilFits(sourceSectors, stripeSectors, |loaded|);
    if CeilDiv(sourceSectors, stripeSectors) > |loaded| {
      return null;
    }
    r := new MetadataFlusher(loaded, shared);
  }
}
