/** The background worker: it receives requests and drives the stripe fetcher before the metadata
    flusher, handing the stripes that were fetched from the one to the other. */
module Worker {
  import opened Metadata
  import Disk
  import LazyChannel
  import Fetcher
  import Flusher
  import FetcherMethods
  import FlusherMethods

  datatype State = State(fe: Fetcher.State, fl: Flusher.State, shared: Shared, done: bool)

  ghost predicate Valid(w: State, n: nat) {
    && FetcherMethods.Ready(FetcherMethods.Pair(w.fe, w.shared), n)
    && Flusher.Valid(w.fl)
    && |w.shared.fetch| == |w.shared.written| == |w.fl.headers| == n
  }

  predicate Known(m: LazyChannel.Msg, n: nat) {
    match m
    case Fetch(s) => s < n
    case SetWritten(s) => s < n
    case Shutdown => true
  }

  function Process(w: State, m: LazyChannel.Msg): State
    requires Known(m, |w.shared.fetch|)
  {
    match m
    case Fetch(s) => w.(fe := Fetcher.Request(w.fe, w.shared, s))
    case SetWritten(s) => w.(fl := w.fl.(queue := w.fl.queue + [Flusher.Request(s, WrittenBit)]))
    case Shutdown => w.(done := true)
  }

  function ProcessAll(w: State, msgs: seq<LazyChannel.Msg>): (r: State)
    requires forall m | m in msgs :: Known(m, |w.shared.fetch|)
    ensures r.shared == w.shared && r.fl == w.fl.(queue := r.fl.queue)
  {
    if msgs == [] then w else Process(ProcessAll(w, msgs[..|msgs| - 1]), msgs[|msgs| - 1])
  }

  /** A request to record each stripe whose fetch succeeded. */
  function FetchedRequests(finished: seq<(nat, bool)>): (r: seq<Flusher.Request>)
    ensures forall s: nat :: Flusher.Request(s, FetchedBit) in r <==> (s, true) in finished
    ensures forall q | q in r :: q.bit == FetchedBit
  {
    if finished == [] then []
    else
      var k := |finished| - 1;
      assert finished == finished[..k] + [finished[k]];
      FetchedRequests(finished[..k])
      + if finished[k].1 then [Flusher.Request(finished[k].0, FetchedBit)] else []
  }

  /** What the devices answer during one update. */
  datatype Env = Env(
    accept: nat -> bool,
    fromSource: seq<(nat, bool)>,
    fromTarget: seq<(nat, bool)>,
    submitWrite: nat -> bool,
    submitFlush: nat -> bool,
    metaWrites: bool,
    metaDone: seq<(nat, bool)>,
    metaFlushes: bool)

  ghost predicate Answers(p: FetcherMethods.Pair, n: nat, env: Env)
    requires FetcherMethods.Ready(p, n)
  {
    var started := FetcherMethods.UpdateStarted(p, n, env.accept);
    && FetcherMethods.SourceBatch(started.st, env.fromSource)
    && FetcherMethods.TargetBatch(FetcherMethods.SourceAll(started, n, env.fromSource, env.submitWrite).st,
                                  env.fromTarget)
    && Disk.DistinctIds(env.metaDone)
  }

  function FetcherPolled(p: FetcherMethods.Pair, n: nat, env: Env): FetcherMethods.Pair
    requires FetcherMethods.Ready(p, n) && Answers(p, n, env)
  {
    FetcherMethods.PollSpec(FetcherMethods.UpdateStarted(p, n, env.accept), n, env.fromSource, env.fromTarget,
                            env.submitWrite, env.submitFlush)
  }

  /** One update: the fetcher first, then what it fetched goes to the flusher, then the flusher. */
  function Updated(w: State, n: nat, env: Env): (r: State)
    requires Valid(w, n) && Answers(FetcherMethods.Pair(w.fe, w.shared), n, env)
    ensures Valid(r, n)
  {
    hide Flusher.Valid, FetcherMethods.PollSpec, FlusherMethods.PollSpec, FlusherMethods.StartWritesSpec,
         FlusherMethods.PublishAll;
    var p := FetcherPolled(FetcherMethods.Pair(w.fe, w.shared), n, env);
    var asked := Asked(w.fl, p.st.finished);
    AskedValid(w.fl, p.st, n);
    var mid := FlusherMethods.StartWritesSpec(asked, env.metaWrites);
    State(p.st.(finished := []), FlusherMethods.PollSpec(mid, env.metaDone, env.metaFlushes),
          FlusherMethods.PublishAll(p.shared, FlusherMethods.Finished(mid, env.metaDone)), w.done)
  }

  function Asked(fl: Flusher.State, finished: seq<(nat, bool)>): Flusher.State {
    fl.(queue := fl.queue + FetchedRequests(finished))
  }

  lemma AskedValid(fl: Flusher.State, fe: Fetcher.State, n: nat)
    requires Flusher.Valid(fl) && Fetcher.Valid(fe, n) && n == |fl.headers|
    ensures Flusher.Valid(Asked(fl, fe.finished))
    ensures Fetcher.Valid(fe.(finished := []), n)
    ensures forall f | f in fe.finished :: f.0 < n
  {
    forall r | r in FetchedRequests(fe.finished) ensures r.stripe < n {
      assert r == Flusher.Request(r.stripe, FetchedBit);
      assert (r.stripe, true) in fe.finished;
    }
  }

  // ----- the objects -----

  /** The receiving half of the request channel. */
  class Receiver {
    var pending: seq<LazyChannel.Msg>
    var disconnected: bool

    constructor ()
      ensures pending == [] && !disconnected
    {
      pending, disconnected := [], false;
    }
  }

  class BgWorker {
    const fetcher: FetcherMethods.StripeFetcher
    const flusher: FlusherMethods.MetadataFlusher
    const receiver: Receiver
    var done: bool

    ghost predicate Ok()
      reads this, fetcher, fetcher.pool, fetcher.shared, flusher, flusher.pool, flusher.channel, flusher.shared
    {
      && fetcher.shared == flusher.shared && fetcher.pool != flusher.pool
      && fetcher.Ok() && flusher.Ok() && fetcher.stripes == |flusher.headers|
      && (forall s | s < fetcher.stripes :: s * fetcher.stripeSectors <= fetcher.targetSectors)
    }

    ghost function View(): State
      reads this, fetcher, fetcher.pool, fetcher.shared, flusher, flusher.pool
    {
      State(fetcher.View(), flusher.View(), fetcher.shared.View(), done)
    }

    constructor (fetcher: FetcherMethods.StripeFetcher, flusher: FlusherMethods.MetadataFlusher, receiver: Receiver)
      requires fetcher.shared == flusher.shared && fetcher.pool != flusher.pool
      requires fetcher.Ok() && flusher.Ok() && fetcher.stripes == |flusher.headers|
      requires forall s | s < fetcher.stripes :: s * fetcher.stripeSectors <= fetcher.targetSectors
      ensures Ok() && !done && this.fetcher == fetcher && this.flusher == flusher && this.receiver == receiver
    {
      this.fetcher, this.flusher, this.receiver, done := fetcher, flusher, receiver, false;
    }

    method ProcessRequest(m: LazyChannel.Msg)
      requires Ok() && Known(m, fetcher.stripes)
      modifies this, fetcher, flusher
      ensures Ok() && View() == Process(old(View()), m)
    {
      match m
      case Fetch(s) => fetcher.HandleFetchRequest(s);
      case SetWritten(s) => flusher.SetStripeWritten(s);
      case Shutdown => done := true;
    }

    /** Processes everything that is pending. A blocking call waits for the first request; it
        returns without one only when the senders are gone. */
    method ReceiveRequests(block: bool)
      requires Ok() && forall m | m in receiver.pending :: Known(m, fetcher.stripes)
      requires block ==> receiver.pending != [] || receiver.disconnected
      modifies this, fetcher, flusher, receiver
      ensures Ok() && receiver.pending == [] && receiver.disconnected == old(receiver.disconnected)
      ensures var w := ProcessAll(old(View()), old(receiver.pending));
              View() == w.(done := w.done || receiver.disconnected)
    {
      ghost var all := receiver.pending;
      ghost var i := 0;
      while receiver.pending != []
        invariant Ok() && i <= |all| && receiver.pending == all[i..]
        invariant fetcher.stripes == |old(View()).shared.fetch|
        invariant View() == ProcessAll(old(View()), all[..i])
        invariant receiver.disconnected == old(receiver.disconnected)
        decreases |receiver.pending|
      {
        var m := receiver.pending[0];
        assert m == all[i] && all[..i + 1][..i] == all[..i];
        receiver.pending := receiver.pending[1..];
        ProcessRequest(m);
        i := i + 1;
      }
      assert all[..i] == all;
      if receiver.disconnected {
        done := true;
      }
    }

    method Update(env: Env)
      requires Ok() && Answers(fetcher.Both(), fetcher.stripes, env)
      modifies fetcher, fetcher.pool, fetcher.shared, flusher, flusher.pool, flusher.channel
      ensures Ok()
      ensures var w := Updated(old(View()), fetcher.stripes, env);
              && View() == w.(fe := w.fe.(disconnected := fetcher.disconnected))
              && (fetcher.disconnected && !w.fe.disconnected && w.shared.Counted() ==>
                    forall s: nat | s < fetcher.stripes :: w.shared.FetchedIfNeeded(s))
    {
      hide Fetcher.Valid, Flusher.Valid, FetcherMethods.PollSpec, FetcherMethods.UpdateStarted,
           FetcherMethods.SourceAll;
      hide FlusherMethods.PollSpec, FlusherMethods.StartWritesSpec, FlusherMethods.PublishAll,
           FlusherMethods.Finished, FetchedRequests;
      AskedValid(flusher.View(), FetcherPolled(fetcher.Both(), fetcher.stripes, env).st, fetcher.stripes);
      fetcher.Update(env.accept, env.fromSource, env.fromTarget, env.submitWrite, env.submitFlush);
      var finished := fetcher.TakeFinishedFetches();
      Hand(finished);
      flusher.Update(env.metaWrites, env.metaDone, env.metaFlushes);
      fetcher.DisconnectFromSourceIfAllFetched();
    }

    /** The stripes fetched with success are to be recorded as fetched. */
    method Hand(finished: seq<(nat, bool)>)
      requires flusher.Ok() && forall f | f in finished :: f.0 < |flusher.headers|
      modifies flusher
      ensures flusher.Ok() && flusher.View() == Asked(old(flusher.View()), finished)
    {
      for i := 0 to |finished|
        invariant flusher.Ok() && flusher.View() == Asked(old(flusher.View()), finished[..i])
      {
        assert finished[..i + 1][..i] == finished[..i];
        var (s, success) := finished[i];
        assert finished[i] in finished;
        if success {
          flusher.SetStripeFetched(s);
        }
      }
      assert finished[..|finished|] == finished;
    }
  }
}
