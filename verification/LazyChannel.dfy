/** The guest-facing channel of the lazy device: requests to stripes that are not fetched yet are
    queued (or, for reads inside one stripe, served from the image). */
module LazyChannel {
  import opened Metadata
  import opened Disk

  datatype RW = RW(id: nat, out: bool, off: nat, cnt: nat, data: seq<Val>, first: nat, last: nat)

  datatype Msg = Fetch(stripe: nat) | SetWritten(stripe: nat) | Shutdown

  datatype State = State(
    queue: seq<RW>,
    finished: seq<(nat, bool)>,
    requested: set<nat>,
    base: Chan,
    image: Chan,
    hasImage: bool,
    trackWritten: bool)

  function NewState(hasImage: bool, trackWritten: bool): State {
    State([], [], {}, Chan(map[], {}), Chan(map[], {}), hasImage, trackWritten)
  }

  // ----- what the shared state says about a request -----

  datatype Status = Pending | Complete | FailedStripe(stripe: nat)

  /** The first stripe of the range that is not fetched-if-needed decides. */
  function StatusFrom(shared: Shared, i: nat, last: nat): (r: Status)
    requires last < |shared.fetch|
    ensures r == Complete <==> forall s: nat | i <= s <= last :: shared.FetchedIfNeeded(s)
    ensures r == Pending ==> exists s: nat :: i <= s <= last && shared.fetch[s] == NotFetched
    decreases last + 1 - i
  {
    if i > last then Complete
    else if shared.FetchedIfNeeded(i) then StatusFrom(shared, i + 1, last)
    else if shared.fetch[i] == NotFetched then Pending
    else FailedStripe(i)
  }

  predicate AllWritten(shared: Shared, first: nat, last: nat)
    requires last < |shared.written|
  {
    forall s | first <= s <= last :: shared.written[s]
  }

  /** Whether a request may go to the base device now. */
  predicate MayDispatch(shared: Shared, track: bool, rw: RW)
    requires rw.last < |shared.fetch| == |shared.written|
  {
    && StatusFrom(shared, rw.first, rw.last) == Complete
    && (track && rw.out ==> AllWritten(shared, rw.first, rw.last))
  }

  // ----- the messages a queued request needs -----

  function FetchesFrom(shared: Shared, requested: set<nat>, i: nat, last: nat): seq<nat>
    requires last < |shared.fetch|
    decreases last + 1 - i
  {
    if i > last then []
    else
      (if !shared.FetchedIfNeeded(i) && i !in requested then [i] else [])
      + FetchesFrom(shared, requested, i + 1, last)
  }

  function UnwrittenFrom(shared: Shared, i: nat, last: nat): seq<nat>
    requires last < |shared.written|
    decreases last + 1 - i
  {
    if i > last then []
    else (if !shared.written[i] then [i] else []) + UnwrittenFrom(shared, i + 1, last)
  }

  function Elems(s: seq<nat>): set<nat> {
    set x | x in s
  }

  lemma {:induction false} FetchesComplete(shared: Shared, requested: set<nat>, i: nat, last: nat, s: nat)
    requires last < |shared.fetch|
    ensures s in FetchesFrom(shared, requested, i, last) <==>
            i <= s <= last && !shared.FetchedIfNeeded(s) && s !in requested
    decreases last + 1 - i
  {
    if i <= last {
      FetchesComplete(shared, requested, i + 1, last, s);
    }
  }

  // ----- operations; room: how many more messages the background worker receives -----

  function OpOf(rw: RW): DevOp {
    if rw.out then WriteOp(rw.off, rw.data, map[], map[]) else ReadOp(rw.off, rw.cnt, map[])
  }

  function Prefix<T>(s: seq<T>, n: nat): seq<T> {
    if n < |s| then s[..n] else s
  }

  /** The stripes that a request asks to be marked written. */
  function ToMark(st: State, shared: Shared, rw: RW): seq<nat>
    requires rw.last < |shared.written|
  {
    if rw.out && st.trackWritten then UnwrittenFrom(shared, rw.first, rw.last) else []
  }

  /** The stripes that a request asks to be fetched, and does ask before a message gets lost. */
  function AskedFor(st: State, shared: Shared, rw: RW, room: nat): seq<nat>
    requires rw.last < |shared.fetch|
  {
    Prefix(FetchesFrom(shared, st.requested, rw.first, rw.last), room)
  }

  /** Queued if all its messages are received, else refused; the fetches asked for are remembered. */
  function Enqueue(st: State, shared: Shared, rw: RW, room: nat): State
    requires rw.last < |shared.fetch| == |shared.written|
  {
    var asked := st.(requested := st.requested + Elems(AskedFor(st, shared, rw, room)));
    if |FetchesFrom(shared, st.requested, rw.first, rw.last)| + |ToMark(st, shared, rw)| > room
    then asked.(finished := st.finished + [(rw.id, false)])
    else asked.(queue := st.queue + [rw])
  }

  function FetchMessages(stripes: seq<nat>): seq<Msg> {
    seq(|stripes|, i requires 0 <= i < |stripes| => Fetch(stripes[i]))
  }

  function WrittenMessages(stripes: seq<nat>): seq<Msg> {
    seq(|stripes|, i requires 0 <= i < |stripes| => SetWritten(stripes[i]))
  }

  /** What a request sends to the background worker when it is added. */
  function Messages(st: State, shared: Shared, rw: RW, room: nat): seq<Msg>
    requires rw.last < |shared.fetch| == |shared.written|
  {
    if RouteOf(st, shared, rw) != ToQueue then []
    else Prefix(FetchMessages(FetchesFrom(shared, st.requested, rw.first, rw.last))
                + WrittenMessages(ToMark(st, shared, rw)), room)
  }

  /** How a read or write is routed when it arrives. */
  datatype Route = ToBase | ToImage | ToQueue | Refused

  function RouteOf(st: State, shared: Shared, rw: RW): (r: Route)
    requires rw.last < |shared.fetch| == |shared.written|
    ensures r == ToBase <==> MayDispatch(shared, st.trackWritten, rw)
    ensures r == ToImage ==> !rw.out && rw.first == rw.last && shared.fetch[rw.first] == NotFetched
  {
    match StatusFrom(shared, rw.first, rw.last)
    case FailedStripe(_) => Refused
    case Complete => if st.trackWritten && rw.out && !AllWritten(shared, rw.first, rw.last) then ToQueue else ToBase
    case Pending => if !rw.out && rw.first == rw.last && st.hasImage then ToImage else ToQueue
  }

  function Add(st: State, shared: Shared, rw: RW, room: nat): State
    requires rw.last < |shared.fetch| == |shared.written|
  {
    match RouteOf(st, shared, rw)
    case ToBase => st.(base := st.base.Add(rw.id, OpOf(rw)))
    case ToImage => st.(image := st.image.Add(rw.id, OpOf(rw)))
    case Refused => st.(finished := st.finished + [(rw.id, false)])
    case ToQueue => Enqueue(st, shared, rw, room)
  }

  function AddFlush(st: State, id: nat): State {
    st.(base := st.base.Add(id, FlushOp(false, [], [])))
  }

  /** The image channel is submitted first; if that fails the base channel is not submitted. */
  function Submit(st: State, imageOk: bool, baseOk: bool): State {
    if st.hasImage && !imageOk then st.(image := st.image.Submit(false))
    else st.(image := if st.hasImage then st.image.Submit(true) else st.image, base := st.base.Submit(baseOk))
  }

  /** What happens to the request at the head of the queue. */
  datatype Fate = Stays | Fails | Goes

  function FateOf(shared: Shared, track: bool, rw: RW): (r: Fate)
    requires rw.last < |shared.fetch| == |shared.written|
    ensures r == Goes <==> MayDispatch(shared, track, rw)
  {
    match StatusFrom(shared, rw.first, rw.last)
    case Pending => Stays
    case FailedStripe(_) => Fails
    case Complete => if track && rw.out && !AllWritten(shared, rw.first, rw.last) then Stays else Goes
  }

  predicate InRange(st: State, n: nat) {
    forall rw | rw in st.queue :: rw.first <= rw.last < n
  }

  function Outside(requested: set<nat>, first: nat, last: nat): set<nat> {
    set s | s in requested && !(first <= s <= last)
  }

  /** One iteration over the queue: the head fails, or goes to the base device. */
  function ProcessFront(st: State, shared: Shared): State
    requires st.queue != [] && st.queue[0].last < |shared.fetch| == |shared.written|
  {
    var rw := st.queue[0];
    var popped := st.(queue := st.queue[1..]);
    match FateOf(shared, st.trackWritten, rw)
    case Stays => st
    case Fails => popped.(finished := st.finished + [(rw.id, false)])
    case Goes => popped.(requested := Outside(st.requested, rw.first, rw.last), base := st.base.Add(rw.id, OpOf(rw)))
  }

  datatype Processed = Processed(st: State, added: seq<nat>)

  function ProcessAll(st: State, shared: Shared): (r: Processed)
    requires |shared.fetch| == |shared.written| && InRange(st, |shared.fetch|)
    ensures InRange(r.st, |shared.fetch|)
    decreases |st.queue|
  {
    if st.queue == [] then Processed(st, [])
    else
      assert st.queue[0] in st.queue;
      var rw := st.queue[0];
      var fate := FateOf(shared, st.trackWritten, rw);
      if fate == Stays then Processed(st, [])
      else
        var rest := ProcessAll(ProcessFront(st, shared), shared);
        Processed(rest.st, (if fate == Goes then [rw.id] else []) + rest.added)
  }

  lemma ProcessUnfolds(st: State, shared: Shared)
    requires |shared.fetch| == |shared.written| && InRange(st, |shared.fetch|)
    ensures st.queue == [] ==> ProcessAll(st, shared) == Processed(st, [])
    ensures st.queue != [] ==>
              && st.queue[0] in st.queue
              && var fate := FateOf(shared, st.trackWritten, st.queue[0]);
              && (fate == Stays ==> ProcessFront(st, shared) == st && ProcessAll(st, shared) == Processed(st, []))
              && (fate != Stays ==>
                    && InRange(ProcessFront(st, shared), |shared.fetch|)
                    && |ProcessFront(st, shared).queue| < |st.queue|
                    && ProcessAll(st, shared).st == ProcessAll(ProcessFront(st, shared), shared).st
                    && ProcessAll(st, shared).added
                       == (if fate == Goes then [st.queue[0].id] else [])
                          + ProcessAll(ProcessFront(st, shared), shared).added)
  {
  }

  function Failures(ids: seq<nat>): seq<(nat, bool)> {
    seq(|ids|, i requires 0 <= i < |ids| => (ids[i], false))
  }

  /** Dispatched requests are submitted together; if that fails they are reported as failed. */
  function SubmitProcessed(p: Processed, ok: bool): State {
    if p.added == [] then p.st
    else if ok then p.st.(base := p.st.base.Submit(true))
    else p.st.(base := p.st.base.Submit(false), finished := p.st.finished + Failures(p.added))
  }

  function IdsOf(cs: seq<(nat, bool)>): set<nat> {
    set c | c in cs :: c.0
  }

  datatype Polled = Polled(st: State, results: seq<(nat, bool)>)

  function Poll(st: State, shared: Shared, submitOk: bool, fromBase: seq<(nat, bool)>,
                fromImage: seq<(nat, bool)>): Polled
    requires |shared.fetch| == |shared.written| && InRange(st, |shared.fetch|)
  {
    var s1 := SubmitProcessed(ProcessAll(st, shared), submitOk);
    Polled(s1.(finished := [], base := s1.base.Remove(IdsOf(fromBase)),
               image := if st.hasImage then s1.image.Remove(IdsOf(fromImage)) else s1.image),
           s1.finished + fromBase + if st.hasImage then fromImage else [])
  }
}
