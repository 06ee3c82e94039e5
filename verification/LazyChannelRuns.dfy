/** What every run of one lazy channel keeps: no request is lost or doubled, and no stripe that a
    queued request waits for is forgotten. */
module LazyChannelRuns {
  import opened Metadata
  import opened Disk
  import opened LazyChannel

  // ----- conservation of request ids -----

  function One(b: bool): nat {
    if b then 1 else 0
  }

  function InQueue(queue: seq<RW>, id: nat): nat {
    if queue == [] then 0 else One(queue[0].id == id) + InQueue(queue[1..], id)
  }

  function InResults(cs: seq<(nat, bool)>, id: nat): nat {
    if cs == [] then 0 else One(cs[0].0 == id) + InResults(cs[1..], id)
  }

  /** How often the channel holds a request: queued, at a device, or waiting to be reported. */
  function Held(st: State, id: nat): nat {
    InQueue(st.queue, id) + One(id in st.base.live) + One(id in st.image.live) + InResults(st.finished, id)
  }

  ghost predicate HeldOnce(st: State) {
    forall id :: Held(st, id) <= 1
  }

  lemma {:induction false} ResultsAppend(a: seq<(nat, bool)>, b: seq<(nat, bool)>, id: nat)
    ensures InResults(a + b, id) == InResults(a, id) + InResults(b, id)
  {
    if a == [] {
      assert a + b == b;
    } else {
      assert (a + b)[1..] == a[1..] + b;
      ResultsAppend(a[1..], b, id);
    }
  }

  lemma {:induction false} QueueAppend(a: seq<RW>, rw: RW, id: nat)
    ensures InQueue(a + [rw], id) == InQueue(a, id) + One(rw.id == id)
  {
    if a == [] {
      assert a + [rw] == [rw];
    } else {
      assert (a + [rw])[1..] == a[1..] + [rw];
      QueueAppend(a[1..], rw, id);
    }
  }

  lemma RefusedHolds(st: State, rw: RW, id: nat)
    ensures InResults(st.finished + [(rw.id, false)], id) == InResults(st.finished, id) + One(id == rw.id)
    ensures InQueue(st.queue, rw.id) == 0 || Held(st, rw.id) > 0
  {
    ResultsAppend(st.finished, [(rw.id, false)], id);
  }

  lemma AddHolds(st: State, shared: Shared, rw: RW, room: nat, id: nat)
    requires rw.last < |shared.fetch| == |shared.written|
    requires Held(st, rw.id) == 0
    ensures Held(Add(st, shared, rw, room), id) == Held(st, id) + One(id == rw.id)
  {
    hide RouteOf, OpOf, FetchesFrom, ToMark, Elems, Prefix, InResults, InQueue;
    RefusedHolds(st, rw, id);
    QueueAppend(st.queue, rw, id);
  }

  lemma FrontHeld(st: State, shared: Shared, id: nat)
    requires st.queue != [] && st.queue[0].last < |shared.fetch| == |shared.written|
    requires HeldOnce(st)
    ensures Held(ProcessFront(st, shared), id) == Held(st, id)
    ensures st.queue[0].id !in st.base.live
  {
    hide FateOf, Outside;
    var rw := st.queue[0];
    assert Held(st, rw.id) <= 1;
    ResultsAppend(st.finished, [(rw.id, false)], id);
  }

  lemma FrontHeldOnce(st: State, shared: Shared)
    requires st.queue != [] && st.queue[0].last < |shared.fetch| == |shared.written|
    requires HeldOnce(st)
    ensures HeldOnce(ProcessFront(st, shared))
  {
    forall id ensures Held(ProcessFront(st, shared), id) <= 1 {
      FrontHeld(st, shared, id);
    }
  }

  lemma FrontStages(st: State, shared: Shared)
    requires st.queue != [] && st.queue[0].last < |shared.fetch| == |shared.written|
    requires st.base.Valid()
    requires FateOf(shared, st.trackWritten, st.queue[0]) != Stays
    ensures var next := ProcessFront(st, shared);
            && next.base.Valid() && next.image == st.image && next.hasImage == st.hasImage
            && next.base.staged == st.base.staged
               + (if FateOf(shared, st.trackWritten, st.queue[0]) == Goes then {st.queue[0].id} else {})
            && next.base.live.Keys == st.base.live.Keys
               + (if FateOf(shared, st.trackWritten, st.queue[0]) == Goes then {st.queue[0].id} else {})
  {
  }

  /** Dispatching moves requests between places; what it stages is what it dispatches. */
  lemma {:induction false} ProcessHeld(st: State, shared: Shared, id: nat)
    requires |shared.fetch| == |shared.written| && InRange(st, |shared.fetch|)
    requires HeldOnce(st) && st.base.Valid()
    ensures var p := ProcessAll(st, shared);
            && Held(p.st, id) == Held(st, id)
            && p.st.base.Valid()
            && (id in p.st.base.staged <==> id in st.base.staged || id in p.added)
            && (id in p.added ==> id in p.st.base.live && id !in st.base.live && InResults(Failures(p.added), id) == 1)
            && (id !in p.added ==> InResults(Failures(p.added), id) == 0)
    ensures ProcessAll(st, shared).st.image == st.image && ProcessAll(st, shared).st.hasImage == st.hasImage
    decreases |st.queue|
  {
    hide FateOf, Held, HeldOnce, Outside, OpOf;
    if st.queue != [] {
      assert st.queue[0] in st.queue;
      var rw := st.queue[0];
      if FateOf(shared, st.trackWritten, rw) != Stays {
        FrontHeldOnce(st, shared);
        FrontHeld(st, shared, id);
        FrontStages(st, shared);
        var next := ProcessFront(st, shared);
        assert InRange(next, |shared.fetch|);
        hide ProcessFront, InRange;
        var rest := ProcessAll(next, shared);
        ProcessHeld(next, shared, id);
        assert Failures([rw.id] + rest.added)[1..] == Failures(rest.added);
        assert [] + rest.added == rest.added;
      }
    }
  }

  /** If the joint submission fails, what was staged beside the dispatched requests is gone. */
  lemma SubmitHeld(st: State, shared: Shared, ok: bool, id: nat)
    requires |shared.fetch| == |shared.written| && InRange(st, |shared.fetch|)
    requires HeldOnce(st) && st.base.Valid()
    ensures var p := ProcessAll(st, shared);
            Held(SubmitProcessed(p, ok), id) == Held(st, id) - One(p.added != [] && !ok && id in st.base.staged)
  {
    hide ProcessAll, HeldOnce;
    ProcessHeld(st, shared, id);
    var p := ProcessAll(st, shared);
    ResultsAppend(p.st.finished, Failures(p.added), id);
  }

  /** The completions that a channel may deliver: submitted requests, each once. */
  ghost predicate Deliverable(c: Chan, done: seq<(nat, bool)>) {
    && (forall r | r in done :: r.0 in c.live && r.0 !in c.staged)
    && (forall id :: InResults(done, id) <= 1)
  }

  lemma {:induction false} InResultsIff(done: seq<(nat, bool)>, id: nat)
    ensures InResults(done, id) > 0 <==> id in IdsOf(done)
  {
    if done != [] {
      InResultsIff(done[1..], id);
      assert done == [done[0]] + done[1..];
      assert IdsOf(done) == {done[0].0} + IdsOf(done[1..]);
    }
  }

  lemma DeliverHeld(c: Chan, done: seq<(nat, bool)>, id: nat)
    requires Deliverable(c, done)
    ensures One(id in c.Remove(IdsOf(done)).live) + InResults(done, id) == One(id in c.live)
  {
    InResultsIff(done, id);
    if id in IdsOf(done) {
      var r :| r in done && r.0 == id;
    }
  }

  /** The completions that the two devices may deliver to this poll. */
  ghost predicate PollEnabled(st: State, shared: Shared, submitOk: bool, fromBase: seq<(nat, bool)>,
                              fromImage: seq<(nat, bool)>)
    requires |shared.fetch| == |shared.written| && InRange(st, |shared.fetch|)
  {
    && Deliverable(SubmitProcessed(ProcessAll(st, shared), submitOk).base, fromBase)
    && Deliverable(st.image, fromImage)
  }

  /** Whether this poll hands a queued request to the base device. */
  predicate Dispatches(st: State, shared: Shared)
    requires |shared.fetch| == |shared.written| && InRange(st, |shared.fetch|)
  {
    ProcessAll(st, shared).added != []
  }

  lemma PollHeld(st: State, shared: Shared, submitOk: bool, fromBase: seq<(nat, bool)>, fromImage: seq<(nat, bool)>,
                 id: nat)
    requires |shared.fetch| == |shared.written| && InRange(st, |shared.fetch|)
    requires HeldOnce(st) && st.base.Valid()
    requires PollEnabled(st, shared, submitOk, fromBase, fromImage)
    ensures var r := Poll(st, shared, submitOk, fromBase, fromImage);
            Held(r.st, id) + InResults(r.results, id)
            == Held(st, id) - One(Dispatches(st, shared) && !submitOk && id in st.base.staged)
  {
    hide ProcessAll, HeldOnce;
    SubmitHeld(st, shared, submitOk, id);
    ProcessHeld(st, shared, id);
    var s1 := SubmitProcessed(ProcessAll(st, shared), submitOk);
    hide SubmitProcessed, Deliverable;
    assert s1.image == st.image && s1.hasImage == st.hasImage by { assert s1 == s1; }
    DeliverHeld(s1.base, fromBase, id);
    DeliverHeld(st.image, fromImage, id);
    var img := if st.hasImage then fromImage else [];
    ResultsAppend(s1.finished + fromBase, img, id);
    ResultsAppend(s1.finished, fromBase, id);
  }

  /** Polling conserves requests exactly if its inner submission succeeds, or is not made, or nothing
      was added to the base channel since the last submission. */
  lemma PollConserves(st: State, shared: Shared, submitOk: bool, fromBase: seq<(nat, bool)>,
                      fromImage: seq<(nat, bool)>)
    requires |shared.fetch| == |shared.written| && InRange(st, |shared.fetch|)
    requires HeldOnce(st) && st.base.Valid()
    requires PollEnabled(st, shared, submitOk, fromBase, fromImage)
    ensures var r := Poll(st, shared, submitOk, fromBase, fromImage);
            (forall id :: Held(r.st, id) + InResults(r.results, id) == Held(st, id))
            <==> submitOk || !Dispatches(st, shared) || st.base.staged == {}
  {
    hide Held, Poll, PollEnabled, HeldOnce, InResults, Dispatches;
    var r := Poll(st, shared, submitOk, fromBase, fromImage);
    forall id ensures Held(r.st, id) + InResults(r.results, id)
                      == Held(st, id) - One(Dispatches(st, shared) && !submitOk && id in st.base.staged)
    {
      PollHeld(st, shared, submitOk, fromBase, fromImage, id);
    }
    if Dispatches(st, shared) && !submitOk && st.base.staged != {} {
      var x :| x in st.base.staged;
      assert Held(r.st, x) + InResults(r.results, x) == Held(st, x) - 1;
    }
  }

  // ----- no stripe that a queued request waits for is forgotten -----

  ghost predicate NoLostFetch(queue: seq<RW>, requested: set<nat>, shared: Shared) {
    forall rw, s: nat | rw in queue && rw.first <= s <= rw.last < |shared.fetch| :: shared.FetchedIfNeeded(s)
        || s in requested
  }

  lemma AdvanceKeepsFetches(queue: seq<RW>, requested: set<nat>, a: Shared, b: Shared)
    requires Advances(a, b) && NoLostFetch(queue, requested, a)
    ensures NoLostFetch(queue, requested, b)
  {
  }

  lemma AddKeepsFetches(st: State, shared: Shared, rw: RW, room: nat)
    requires rw.last < |shared.fetch| == |shared.written|
    requires NoLostFetch(st.queue, st.requested, shared)
    ensures var next := Add(st, shared, rw, room); NoLostFetch(next.queue, next.requested, shared)
  {
    hide RouteOf, OpOf, ToMark;
    var next := Add(st, shared, rw, room);
    forall q, s: nat | q in next.queue && q.first <= s <= q.last < |shared.fetch|
      ensures shared.FetchedIfNeeded(s) || s in next.requested
    {
      FetchesComplete(shared, st.requested, rw.first, rw.last, s);
    }
  }

  lemma FrontKeepsFetches(st: State, shared: Shared)
    requires st.queue != [] && st.queue[0].last < |shared.fetch| == |shared.written|
    requires NoLostFetch(st.queue, st.requested, shared)
    ensures var next := ProcessFront(st, shared); NoLostFetch(next.queue, next.requested, shared)
  {
    hide OpOf;
    var next := ProcessFront(st, shared);
    forall q, s: nat | q in next.queue && q.first <= s <= q.last < |shared.fetch|
      ensures shared.FetchedIfNeeded(s) || s in next.requested
    {
      assert q in st.queue;
    }
  }

  lemma {:induction false} ProcessKeepsFetches(st: State, shared: Shared)
    requires |shared.fetch| == |shared.written| && InRange(st, |shared.fetch|)
    requires NoLostFetch(st.queue, st.requested, shared)
    ensures var p := ProcessAll(st, shared);
            NoLostFetch(p.st.queue, p.st.requested, shared) && p.st.requested <= st.requested
    decreases |st.queue|
  {
    hide NoLostFetch, FateOf, OpOf;
    if st.queue != [] {
      assert st.queue[0] in st.queue;
      if FateOf(shared, st.trackWritten, st.queue[0]) != Stays {
        FrontKeepsFetches(st, shared);
        ProcessKeepsFetches(ProcessFront(st, shared), shared);
      }
    }
  }

  // ----- runs of one channel -----

  datatype Op =
    | AddOp(rw: RW, room: nat)
    | FlushAdded(id: nat)
    | Submitted
    | PollOp(submitOk: bool, fromBase: seq<(nat, bool)>, fromImage: seq<(nat, bool)>)

  /** An operation, and the shared state it finds. */
  datatype Event = Event(op: Op, shared: Shared)

  /** The channel with the history of what it accepted, reported and asked the worker to fetch. */
  datatype Ledger = Ledger(st: State, shared: Shared, accepted: multiset<nat>, reported: seq<(nat, bool)>,
                           sent: set<nat>)

  function NewLedger(hasImage: bool, track: bool, shared: Shared): (l: Ledger)
    requires |shared.fetch| == |shared.written|
    ensures Inv(l)
  {
    Ledger(NewState(hasImage, track), shared, multiset{}, [], {})
  }

  ghost predicate Accounted(l: Ledger) {
    forall id :: l.accepted[id] == InResults(l.reported, id) + Held(l.st, id)
  }

  ghost predicate Inv(l: Ledger) {
    && |l.shared.fetch| == |l.shared.written|
    && InRange(l.st, |l.shared.fetch|)
    && l.st.base.Valid()
    && HeldOnce(l.st)
    && Accounted(l)
    && NoLostFetch(l.st.queue, l.st.requested, l.shared)
    && l.st.requested <= l.sent
  }

  /** Ids in flight are not reused, outer submissions succeed, devices keep their contract. */
  ghost predicate Enabled(l: Ledger, e: Event)
    requires |l.shared.fetch| == |l.shared.written| && InRange(l.st, |l.shared.fetch|)
  {
    && Advances(l.shared, e.shared)
    && match e.op
       case AddOp(rw, _) => rw.first <= rw.last < |e.shared.fetch| && Held(l.st, rw.id) == 0
       case FlushAdded(id) => Held(l.st, id) == 0
       case Submitted => true
       case PollOp(ok, fromBase, fromImage) =>
         && PollEnabled(l.st, e.shared, ok, fromBase, fromImage)
         && (ok || !Dispatches(l.st, e.shared) || l.st.base.staged == {})
  }

  function Next(l: Ledger, e: Event): Ledger
    requires |l.shared.fetch| == |l.shared.written| && InRange(l.st, |l.shared.fetch|)
    requires Enabled(l, e)
  {
    match e.op
    case AddOp(rw, room) =>
      var queued := RouteOf(l.st, e.shared, rw) == ToQueue;
      Ledger(Add(l.st, e.shared, rw, room), e.shared, l.accepted + multiset{rw.id}, l.reported,
             l.sent + if queued then Elems(AskedFor(l.st, e.shared, rw, room)) else {})
    case FlushAdded(id) => l.(st := AddFlush(l.st, id), shared := e.shared, accepted := l.accepted + multiset{id})
    case Submitted => l.(st := Submit(l.st, true, true), shared := e.shared)
    case PollOp(ok, fromBase, fromImage) =>
      var r := Poll(l.st, e.shared, ok, fromBase, fromImage);
      l.(st := r.st, shared := e.shared, reported := l.reported + r.results)
  }

  lemma AddAccounted(l: Ledger, e: Event)
    requires Inv(l) && Enabled(l, e) && e.op.AddOp?
    ensures HeldOnce(Next(l, e).st) && Accounted(Next(l, e))
  {
    hide NoLostFetch, InRange, Add, Held, FetchesFrom, RouteOf;
    var next := Next(l, e);
    forall id ensures Held(next.st, id) <= 1 && next.accepted[id] == InResults(next.reported, id) + Held(next.st, id) {
      AddHolds(l.st, e.shared, e.op.rw, e.op.room, id);
    }
  }

  lemma PollAccounted(l: Ledger, e: Event)
    requires Inv(l) && Enabled(l, e) && e.op.PollOp?
    ensures HeldOnce(Next(l, e).st) && Accounted(Next(l, e))
  {
    hide NoLostFetch, Poll, Held, Dispatches;
    var next := Next(l, e);
    var r := Poll(l.st, e.shared, e.op.submitOk, e.op.fromBase, e.op.fromImage);
    forall id ensures Held(next.st, id) <= 1 && next.accepted[id] == InResults(next.reported, id) + Held(next.st, id) {
      PollHeld(l.st, e.shared, e.op.submitOk, e.op.fromBase, e.op.fromImage, id);
      ResultsAppend(l.reported, r.results, id);
    }
  }

  lemma AddInv(l: Ledger, e: Event)
    requires Inv(l) && Enabled(l, e) && e.op.AddOp?
    ensures Inv(Next(l, e))
  {
    AddAccounted(l, e);
    AdvanceKeepsFetches(l.st.queue, l.st.requested, l.shared, e.shared);
    AddKeepsFetches(l.st, e.shared, e.op.rw, e.op.room);
    hide NoLostFetch, HeldOnce, Accounted, OpOf, FetchesFrom;
  }

  lemma PollInv(l: Ledger, e: Event)
    requires Inv(l) && Enabled(l, e) && e.op.PollOp?
    ensures Inv(Next(l, e))
  {
    PollAccounted(l, e);
    AdvanceKeepsFetches(l.st.queue, l.st.requested, l.shared, e.shared);
    ProcessKeepsFetches(l.st, e.shared);
    ProcessHeld(l.st, e.shared, 0);
    hide NoLostFetch, HeldOnce, Accounted, ProcessAll, PollEnabled, Dispatches;
    var p := ProcessAll(l.st, e.shared);
    assert InRange(p.st, |e.shared.fetch|);
  }

  lemma AddedOrSubmittedInv(l: Ledger, e: Event)
    requires Inv(l) && Enabled(l, e) && (e.op.FlushAdded? || e.op.Submitted?)
    ensures Inv(Next(l, e))
  {
    AdvanceKeepsFetches(l.st.queue, l.st.requested, l.shared, e.shared);
    hide NoLostFetch, InQueue, InResults;
    var next := Next(l, e);
    forall id ensures Held(next.st, id) <= 1 && next.accepted[id] == InResults(next.reported, id) + Held(next.st, id) {
      assert Held(l.st, id) <= 1 && l.accepted[id] == InResults(l.reported, id) + Held(l.st, id);
    }
  }

  lemma NextInv(l: Ledger, e: Event)
    requires Inv(l) && Enabled(l, e)
    ensures Inv(Next(l, e))
  {
    match e.op
    case AddOp(_, _) => AddInv(l, e);
    case PollOp(_, _, _) => PollInv(l, e);
    case _ => AddedOrSubmittedInv(l, e);
  }

  ghost predicate Legal(l: Ledger, es: seq<Event>)
    requires Inv(l)
    decreases |es|
  {
    es == [] || (Enabled(l, es[0]) && (NextInv(l, es[0]); Legal(Next(l, es[0]), es[1..])))
  }

  ghost function Final(l: Ledger, es: seq<Event>): Ledger
    requires Inv(l) && Legal(l, es)
    decreases |es|
  {
    if es == [] then l else NextInv(l, es[0]); Final(Next(l, es[0]), es[1..])
  }

  lemma {:induction false} RunInv(l: Ledger, es: seq<Event>)
    requires Inv(l) && Legal(l, es)
    ensures Inv(Final(l, es))
    decreases |es|
  {
    if es != [] {
      NextInv(l, es[0]);
      RunInv(Next(l, es[0]), es[1..]);
    }
  }

  /** Over every run: a request is accounted for once for each time it was accepted, in exactly one
      place while it is unreported, and every stripe a queued request waits for was asked for. */
  lemma RunConserves(hasImage: bool, track: bool, shared: Shared, es: seq<Event>, id: nat)
    requires |shared.fetch| == |shared.written|
    requires Legal(NewLedger(hasImage, track, shared), es)
    ensures var l := Final(NewLedger(hasImage, track, shared), es);
            && l.accepted[id] == InResults(l.reported, id) + Held(l.st, id)
            && Held(l.st, id) <= 1
            && (forall rw, s: nat | rw in l.st.queue && rw.first <= s <= rw.last ::
                  s < |l.shared.fetch| && (l.shared.FetchedIfNeeded(s) || s in l.sent))
  {
    RunInv(NewLedger(hasImage, track, shared), es);
  }

  // ----- a run that loses a request -----

  function OneStripe(f: FetchState): Shared {
    Shared([f], [false], One(f == Fetched), 1)
  }

  function ReadFirstSector(id: nat): RW {
    RW(id, false, 0, 1, [], 0, 0)
  }

  /** A read that has to wait for its stripe, and after the stripe's arrival a second read. */
  function LosingRun(): seq<Event> {
    [Event(AddOp(ReadFirstSector(0), 1), OneStripe(NotFetched)),
     Event(AddOp(ReadFirstSector(1), 1), OneStripe(Fetched))]
  }

  /** The channel after these two reads. */
  function BeforeTheLoss(): State {
    NewState(false, false).(queue := [ReadFirstSector(0)], requested := {0},
                            base := Chan(map[1 := ReadOp(0, 1, map[])], {1}))
  }

  lemma LosingRunReaches()
    ensures var start := NewLedger(false, false, OneStripe(NotFetched));
            Legal(start, LosingRun()) && Final(start, LosingRun()).st == BeforeTheLoss()
  {
    hide HeldOnce, Accounted, NoLostFetch;
    var start := NewLedger(false, false, OneStripe(NotFetched));
    var e, d := LosingRun()[0], LosingRun()[1];
    assert StatusFrom(OneStripe(NotFetched), 0, 0) == Pending;
    assert FetchesFrom(OneStripe(NotFetched), {}, 1, 0) == [];
    assert FetchesFrom(OneStripe(NotFetched), {}, 0, 0) == [0];
    assert Enabled(start, e);
    NextInv(start, e);
    var mid := Next(start, e);
    assert mid.st == NewState(false, false).(queue := [ReadFirstSector(0)], requested := {0});
    assert InQueue([ReadFirstSector(0)], 1) == InQueue([], 1);
    assert StatusFrom(OneStripe(Fetched), 0, 0) == Complete;
    assert Enabled(mid, d);
    NextInv(mid, d);
    assert LosingRun()[1..] == [d] && [d][1..] == [];
  }

  lemma LosingPoll()
    ensures InRange(BeforeTheLoss(), 1) && Held(BeforeTheLoss(), 1) == 1
    ensures PollEnabled(BeforeTheLoss(), OneStripe(Fetched), false, [], [])
    ensures var r := Poll(BeforeTheLoss(), OneStripe(Fetched), false, [], []);
            Held(r.st, 1) == 0 && InResults(r.results, 1) == 0
  {
    var st, shared := BeforeTheLoss(), OneStripe(Fetched);
    assert InQueue(st.queue, 1) == InQueue([], 1);
    assert StatusFrom(shared, 0, 0) == Complete;
    var next := ProcessFront(st, shared);
    assert next.queue == [] && next.base.live.Keys == {0, 1};
    assert ProcessAll(next, shared) == Processed(next, []);
    assert ProcessAll(st, shared) == Processed(next, [0]);
    var r := Poll(st, shared, false, [], []);
    assert r.results == Failures([0]);
    assert Failures([0]) == [(0, false)];
    assert InResults([(0, false)], 1) == 0 + InResults([], 1);
  }

  /** A read added directly and not yet submitted is lost when a queued one fails to be submitted:
      the run above is legal, the poll after it reports nothing for the second read and drops it. */
  lemma PollLoses()
    ensures var start := NewLedger(false, false, OneStripe(NotFetched));
            && Legal(start, LosingRun())
            && var l := Final(start, LosingRun());
            && l.st == BeforeTheLoss() && InRange(l.st, 1) && Held(l.st, 1) == 1
            && PollEnabled(l.st, OneStripe(Fetched), false, [], [])
            && var r := Poll(l.st, OneStripe(Fetched), false, [], []);
            && Held(r.st, 1) == 0 && InResults(r.results, 1) == 0
  {
    hide Legal, Final, Inv, Held, Poll, PollEnabled, InResults, BeforeTheLoss, LosingRun;
    LosingRunReaches();
    LosingPoll();
  }
}
