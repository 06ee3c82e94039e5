/** Reading stripes back from an archive: requests for the same object share one get, and every
    request completes exactly once. */
module ArchiveSource {
  import opened Codec
  import opened StripeMapping
  import opened Archive

  /** An opened archive: how its objects are read, and which object holds which stripe. */
  datatype Source = Source(p: Params, hashes: map<nat, Content>)

  /** A stripe and the buffer it is wanted in. */
  datatype Want = Want(stripe: nat, buf: nat)

  /** gets: the objects asked of the store, in order; mem: the destination buffers. */
  datatype State = State(
    pending: map<Hash, seq<Want>>,
    finished: seq<(nat, bool)>,
    mem: map<nat, seq<byte>>,
    gets: seq<Hash>)

  function NewState(mem: map<nat, seq<byte>>): State {
    State.State(map[], [], mem, [])
  }

  function Request(src: Source, st: State, w: Want): State
    requires w.buf in st.mem
  {
    if w.stripe !in src.hashes || src.hashes[w.stripe].ZeroStripe? then
      st.(mem := st.mem[w.buf := Zeros(|st.mem[w.buf]|)], finished := st.finished + [(w.stripe, true)])
    else
      var h := src.hashes[w.stripe].hash;
      if h in st.pending then st.(pending := st.pending[h := st.pending[h] + [w]])
      else st.(pending := st.pending[h := [w]], gets := st.gets + [h])
  }

  /** The object has arrived: it is checked against its hash, decoded for the stripe, and padded. */
  function FinishStripe(src: Source, st: State, h: Hash, data: seq<byte>, w: Want): State
    requires Sane(src.p) && w.buf in st.mem
  {
    if src.p.sha(data) != h then st.(finished := st.finished + [(w.stripe, false)])
    else match Decode(src.p, w.stripe, data, |st.mem[w.buf]|)
      case None => st.(finished := st.finished + [(w.stripe, false)])
      case Some(x) => st.(mem := st.mem[w.buf := x], finished := st.finished + [(w.stripe, true)])
  }

  function FinishPending(src: Source, st: State, h: Hash, data: seq<byte>, wants: seq<Want>): (r: State)
    requires Sane(src.p) && forall w | w in wants :: w.buf in st.mem
    ensures r.mem.Keys == st.mem.Keys && r.pending == st.pending && r.gets == st.gets
    decreases |wants|
  {
    if wants == [] then st
    else
      var rest := FinishPending(src, st, h, data, wants[..|wants| - 1]);
      assert wants[|wants| - 1] in wants;
      FinishStripe(src, rest, h, data, wants[|wants| - 1])
  }

  function FailPending(st: State, wants: seq<Want>): State {
    st.(finished := st.finished + seq(|wants|, i requires 0 <= i < |wants| => (wants[i].stripe, false)))
  }

  /** All buffers that are waited for exist. */
  predicate BuffersExist(st: State) {
    forall h | h in st.pending :: forall w | w in st.pending[h] :: w.buf in st.mem
  }

  /** The store's answer for one object, if it was asked for. */
  function Arrived(src: Source, st: State, h: Hash, answer: Option<seq<byte>>): (r: State)
    requires Sane(src.p) && BuffersExist(st)
    ensures r.mem.Keys == st.mem.Keys && BuffersExist(r) && r.gets == st.gets
    ensures r.pending == st.pending - {h}
  {
    if h !in st.pending then
      assert st.pending - {h} == st.pending;
      st
    else
      var wants, rest := st.pending[h], st.(pending := st.pending - {h});
      match answer
      case Some(data) => FinishPending(src, rest, h, data, wants)
      case None => FailPending(rest, wants)
  }

  function ArrivedAll(src: Source, st: State, answers: seq<(Hash, Option<seq<byte>>)>): (r: State)
    requires Sane(src.p) && BuffersExist(st)
    ensures r.mem.Keys == st.mem.Keys && BuffersExist(r)
    decreases |answers|
  {
    if answers == [] then st
    else
      var rest := ArrivedAll(src, st, answers[..|answers| - 1]);
      Arrived(src, rest, answers[|answers| - 1].0, answers[|answers| - 1].1)
  }

  predicate IsMax(hashes: map<nat, Content>, m: nat) {
    m in hashes && forall s | s in hashes :: s <= m
  }

  /** The stripes that the source spans, given the largest number in its manifest. */
  function StripeCount(hashes: map<nat, Content>, maxStripe: nat): nat {
    if hashes == map[] then 0 else maxStripe + 1
  }

  // ----- every request completes exactly once -----

  function One(b: bool): nat {
    if b then 1 else 0
  }

  function InWants(wants: seq<Want>, s: nat): nat {
    if wants == [] then 0 else InWants(wants[..|wants| - 1], s) + One(wants[|wants| - 1].stripe == s)
  }

  function InResults(results: seq<(nat, bool)>, s: nat): nat {
    if results == [] then 0 else InResults(results[..|results| - 1], s) + One(results[|results| - 1].0 == s)
  }

  lemma {:induction false} ResultsAppend(a: seq<(nat, bool)>, b: seq<(nat, bool)>, s: nat)
    ensures InResults(a + b, s) == InResults(a, s) + InResults(b, s)
  {
    if b == [] {
      assert a + b == a;
    } else {
      assert (a + b)[..|a + b| - 1] == a + b[..|b| - 1];
      ResultsAppend(a, b[..|b| - 1], s);
    }
  }

  /** Requests for the stripe that wait for its object. */
  function Waiting(src: Source, st: State, s: nat): nat {
    if s in src.hashes && src.hashes[s].Object? && src.hashes[s].hash in st.pending
    then InWants(st.pending[src.hashes[s].hash], s) else 0
  }

  /** Stripes wait only for the object that holds them. */
  predicate Sorted(src: Source, st: State) {
    forall h | h in st.pending :: forall w | w in st.pending[h] ::
                                   w.stripe in src.hashes && src.hashes[w.stripe] == Object(h)
  }

  lemma {:induction false} NotWanted(wants: seq<Want>, s: nat)
    requires forall w | w in wants :: w.stripe != s
    ensures InWants(wants, s) == 0
  {
    if wants != [] {
      NotWanted(wants[..|wants| - 1], s);
      assert wants[|wants| - 1] in wants;
    }
  }

  lemma OneMoreWant(wants: seq<Want>, w: Want, s: nat)
    ensures InWants(wants + [w], s) == InWants(wants, s) + One(w.stripe == s)
  {
    assert (wants + [w])[..|wants|] == wants;
  }

  lemma OneMoreResult(results: seq<(nat, bool)>, r: (nat, bool), s: nat)
    ensures InResults(results + [r], s) == InResults(results, s) + One(r.0 == s)
  {
    assert (results + [r])[..|results|] == results;
  }

  lemma RequestSorted(src: Source, st: State, w: Want)
    requires w.buf in st.mem && Sorted(src, st)
    ensures Sorted(src, Request(src, st, w))
  {
  }

  lemma RequestCounted(src: Source, st: State, w: Want, s: nat)
    requires w.buf in st.mem && Sorted(src, st)
    ensures Sorted(src, Request(src, st, w))
    ensures Waiting(src, Request(src, st, w), s) + InResults(Request(src, st, w).finished, s)
            == Waiting(src, st, s) + InResults(st.finished, s) + One(s == w.stripe)
  {
    hide InWants, InResults, Zeros;
    RequestSorted(src, st, w);
    if w.stripe in src.hashes && src.hashes[w.stripe].Object? {
      var h := src.hashes[w.stripe].hash;
      var wants := if h in st.pending then st.pending[h] else [];
      NotWanted([], s);
      OneMoreWant(wants, w, s);
      assert Request(src, st, w).pending[h] == wants + [w];
    } else {
      OneMoreResult(st.finished, (w.stripe, true), s);
    }
  }

  lemma {:induction false} FinishCounted(src: Source, st: State, h: Hash, data: seq<byte>, wants: seq<Want>, s: nat)
    requires Sane(src.p) && forall w | w in wants :: w.buf in st.mem
    ensures InResults(FinishPending(src, st, h, data, wants).finished, s) == InResults(st.finished, s)
            + InWants(wants, s)
    decreases |wants|
  {
    hide Decode;
    if wants != [] {
      FinishCounted(src, st, h, data, wants[..|wants| - 1], s);
      assert wants[|wants| - 1] in wants;
    }
  }

  lemma {:induction false} FailCounted(wants: seq<Want>, s: nat)
    ensures InResults(seq(|wants|, i requires 0 <= i < |wants| => (wants[i].stripe, false)), s) == InWants(wants, s)
  {
    if wants != [] {
      var n := |wants| - 1;
      FailCounted(wants[..n], s);
      var all := seq(|wants|, i requires 0 <= i < |wants| => (wants[i].stripe, false));
      assert all[..n] == seq(n, i requires 0 <= i < n => (wants[..n][i].stripe, false));
    }
  }

  /** Whatever the store answers, each waiting request for the object becomes exactly one result. */
  lemma ArrivedCounted(src: Source, st: State, h: Hash, answer: Option<seq<byte>>, s: nat)
    requires Sane(src.p) && BuffersExist(st) && Sorted(src, st)
    ensures Sorted(src, Arrived(src, st, h, answer))
    ensures Waiting(src, Arrived(src, st, h, answer), s) + InResults(Arrived(src, st, h, answer).finished, s)
            == Waiting(src, st, s) + InResults(st.finished, s)
  {
    hide FinishPending, Decode, InWants, InResults;
    if h in st.pending {
      var wants, rest := st.pending[h], st.(pending := st.pending - {h});
      if answer.Some? {
        FinishCounted(src, rest, h, answer.value, wants, s);
      } else {
        FailCounted(wants, s);
        ResultsAppend(st.finished, seq(|wants|, i requires 0 <= i < |wants| => (wants[i].stripe, false)), s);
      }
      if !(s in src.hashes && src.hashes[s] == Object(h)) {
        NotWanted(wants, s);
      }
    }
  }

  lemma {:induction false} PollCounted(src: Source, st: State, answers: seq<(Hash, Option<seq<byte>>)>, s: nat)
    requires Sane(src.p) && BuffersExist(st) && Sorted(src, st)
    ensures Sorted(src, ArrivedAll(src, st, answers))
    ensures Waiting(src, ArrivedAll(src, st, answers), s) + InResults(ArrivedAll(src, st, answers).finished, s)
            == Waiting(src, st, s) + InResults(st.finished, s)
    decreases |answers|
  {
    hide Arrived, BuffersExist, Sorted, Waiting, InResults;
    if answers != [] {
      PollCounted(src, st, answers[..|answers| - 1], s);
      ArrivedCounted(src, ArrivedAll(src, st, answers[..|answers| - 1]), answers[|answers| - 1].0,
                     answers[|answers| - 1].1, s);
    }
  }

  // ----- at most one get per object is outstanding -----

  function Asked(gets: seq<Hash>, h: Hash): nat {
    if gets == [] then 0 else Asked(gets[..|gets| - 1], h) + One(gets[|gets| - 1] == h)
  }

  /** A get is issued exactly when the object is not being fetched yet. */
  lemma RequestCoalesces(src: Source, st: State, w: Want, h: Hash)
    requires w.buf in st.mem
    ensures Asked(Request(src, st, w).gets, h) == Asked(st.gets, h)
            + One(h !in st.pending && w.stripe in src.hashes && src.hashes[w.stripe] == Object(h))
    ensures h in Request(src, st, w).pending <==>
            h in st.pending || (w.stripe in src.hashes && src.hashes[w.stripe] == Object(h))
  {
    if w.stripe in src.hashes && src.hashes[w.stripe].Object? {
      var g := src.hashes[w.stripe].hash;
      assert (st.gets + [g])[..|st.gets|] == st.gets;
    }
  }

  // ----- what a stripe reads as -----

  /** The bytes are what the archive says of the stripe: zeros, or an object with the right hash. */
  ghost predicate Genuine(src: Source, s: nat, x: seq<byte>)
    requires Sane(src.p)
  {
    if s !in src.hashes || src.hashes[s].ZeroStripe? then x == Zeros(|x|)
    else exists data: seq<byte> :: src.p.sha(data) == src.hashes[s].hash && Decode(src.p, s, data, |x|) == Some(x)
  }

  lemma FinishedGenuine(src: Source, st: State, h: Hash, data: seq<byte>, w: Want)
    requires Sane(src.p) && w.buf in st.mem && w.stripe in src.hashes && src.hashes[w.stripe] == Object(h)
    ensures var next := FinishStripe(src, st, h, data, w);
            && |next.mem[w.buf]| == |st.mem[w.buf]|
            && (|| (next.finished == st.finished + [(w.stripe, true)] && Genuine(src, w.stripe, next.mem[w.buf]))
                || next == st.(finished := st.finished + [(w.stripe, false)]))
  {
  }

  // ----- a store that returns what was put -----

  /** What the store holds for the stripe, zeros if the archive has none. */
  function Contents(src: Source, store: map<Hash, seq<byte>>, s: nat, size: nat): seq<byte>
    requires Sane(src.p)
  {
    if s !in src.hashes || src.hashes[s].ZeroStripe? || src.hashes[s].hash !in store then Zeros(size)
    else
      var x := Decode(src.p, s, store[src.hashes[s].hash], size);
      if x.Some? then x.value else Zeros(size)
  }

  /** Every object that the archive names is stored under its hash, and decodes. */
  ghost predicate Serves(src: Source, store: map<Hash, seq<byte>>, size: nat)
    requires Sane(src.p)
  {
    forall s | s in src.hashes && src.hashes[s].Object? ::
      && src.hashes[s].hash in store && src.p.sha(store[src.hashes[s].hash]) == src.hashes[s].hash
      && Decode(src.p, s, store[src.hashes[s].hash], size).Some?
  }

  /** The answer is what the store holds. */
  predicate HonestAnswer(store: map<Hash, seq<byte>>, a: (Hash, Option<seq<byte>>)) {
    a.0 in store ==> a.1 == Some(store[a.0])
  }

  predicate Honest(store: map<Hash, seq<byte>>, answers: seq<(Hash, Option<seq<byte>>)>) {
    forall a | a in answers :: HonestAnswer(store, a)
  }

  lemma FinishedServed(src: Source, store: map<Hash, seq<byte>>, st: State, h: Hash, w: Want)
    requires Sane(src.p) && w.buf in st.mem && w.stripe in src.hashes && src.hashes[w.stripe] == Object(h)
    requires Serves(src, store, |st.mem[w.buf]|) && h in store
    ensures FinishStripe(src, st, h, store[h], w)
            == st.(mem := st.mem[w.buf := Contents(src, store, w.stripe, |st.mem[w.buf]|)],
                   finished := st.finished + [(w.stripe, true)])
    ensures |Contents(src, store, w.stripe, |st.mem[w.buf]|)| == |st.mem[w.buf]|
  {
  }

  function Successes(wants: seq<Want>): seq<(nat, bool)> {
    seq(|wants|, i requires 0 <= i < |wants| => (wants[i].stripe, true))
  }

  /** No buffer is wanted twice, and all have the size of a stripe. */
  ghost predicate Separate(mem: map<nat, seq<byte>>, wants: seq<Want>, size: nat) {
    && (forall w | w in wants :: w.buf in mem && |mem[w.buf]| == size)
    && (forall i, j :: 0 <= i < j < |wants| ==> wants[i].buf != wants[j].buf)
  }

  /** All who wait for an object get it: each is told so, each finds its own stripe in its buffer, and
      no other buffer changes. */
  lemma {:induction false} PendingServed(src: Source, store: map<Hash, seq<byte>>, st: State, h: Hash,
                                         wants: seq<Want>, size: nat)
    requires Sane(src.p) && Serves(src, store, size) && h in store && Separate(st.mem, wants, size)
    requires forall w | w in wants :: w.stripe in src.hashes && src.hashes[w.stripe] == Object(h)
    ensures var next := FinishPending(src, st, h, store[h], wants);
            && next.finished == st.finished + Successes(wants)
            && (forall w | w in wants :: next.mem[w.buf] == Contents(src, store, w.stripe, size))
            && (forall b | b in st.mem && (forall w | w in wants :: w.buf != b) :: next.mem[b] == st.mem[b])
            && (forall b | b in st.mem :: |next.mem[b]| == |st.mem[b]|)
    decreases |wants|
  {
    hide Contents, Serves, FinishStripe;
    if wants != [] {
      var n := |wants| - 1;
      var w := wants[n];
      assert w in wants && wants == wants[..n] + [w];
      assert forall v | v in wants[..n] :: v in wants;
      PendingServed(src, store, st, h, wants[..n], size);
      var rest := FinishPending(src, st, h, store[h], wants[..n]);
      assert |rest.mem[w.buf]| == size;
      FinishedServed(src, store, rest, h, w);
      assert Successes(wants) == Successes(wants[..n]) + [(w.stripe, true)];
      forall v | v in wants[..n] ensures v.buf != w.buf {
        var i :| 0 <= i < n && wants[i] == v;
      }
    }
  }

  /** Of every object that is waited for: nobody shares a buffer, within it or with another object. */
  ghost predicate AllSeparate(st: State, size: nat) {
    && (forall h | h in st.pending :: Separate(st.mem, st.pending[h], size))
    && (forall g, h, v, w | g in st.pending && h in st.pending && g != h && v in st.pending[g]
        && w in st.pending[h] :: v.buf != w.buf)
  }

  /** The reader's promise for a waiter whose object the honest store has delivered. */
  ghost predicate Received(src: Source, store: map<Hash, seq<byte>>, st: State, w: Want, size: nat)
    requires Sane(src.p)
  {
    (w.stripe, true) in st.finished && w.buf in st.mem && st.mem[w.buf] == Contents(src, store, w.stripe, size)
  }

  lemma ArrivedServed(src: Source, store: map<Hash, seq<byte>>, st: State, a: (Hash, Option<seq<byte>>), size: nat)
    requires Sane(src.p) && Serves(src, store, size) && BuffersExist(st) && Sorted(src, st) && AllSeparate(st, size)
    requires HonestAnswer(store, a) && (a.0 in st.pending ==> a.0 in store)
    ensures var next := Arrived(src, st, a.0, a.1);
            && (a.0 in st.pending ==> next.finished == st.finished + Successes(st.pending[a.0]))
            && (a.0 !in st.pending ==> next == st)
            && (a.0 in st.pending ==> forall w | w in st.pending[a.0] ::
                                       w.buf in next.mem && next.mem[w.buf] == Contents(src, store, w.stripe, size))
            && (forall b | b in st.mem && (a.0 in st.pending ==> forall w | w in st.pending[a.0] :: w.buf != b) ::
                next.mem[b] == st.mem[b])
            && AllSeparate(next, size)
  {
    hide Contents, Serves, FinishPending;
    if a.0 in st.pending {
      PendingServed(src, store, st.(pending := st.pending - {a.0}), a.0, st.pending[a.0], size);
    }
  }

  predicate AnsweredIn(answers: seq<(Hash, Option<seq<byte>>)>, h: Hash) {
    exists a :: a in answers && a.0 == h
  }

  /** What is answered is not waited for any more; the rest is waited for as before. */
  lemma {:induction false} PendingLeft(src: Source, st: State, answers: seq<(Hash, Option<seq<byte>>)>, h: Hash)
    requires Sane(src.p) && BuffersExist(st)
    ensures var next := ArrivedAll(src, st, answers);
            && (h in next.pending <==> h in st.pending && !AnsweredIn(answers, h))
            && (h in next.pending ==> next.pending[h] == st.pending[h])
    decreases |answers|
  {
    hide Arrived, BuffersExist;
    if answers != [] {
      var n := |answers| - 1;
      assert answers == answers[..n] + [answers[n]] && answers[n] in answers;
      PendingLeft(src, st, answers[..n], h);
    }
  }

  lemma ReceivedKept(src: Source, store: map<Hash, seq<byte>>, st: State, a: (Hash, Option<seq<byte>>), w: Want,
                     size: nat)
    requires Sane(src.p) && Serves(src, store, size) && BuffersExist(st) && Sorted(src, st) && AllSeparate(st, size)
    requires HonestAnswer(store, a) && (a.0 in st.pending ==> a.0 in store)
    requires Received(src, store, st, w, size)
             && (a.0 in st.pending ==> forall v | v in st.pending[a.0] :: v.buf != w.buf)
    ensures Received(src, store, Arrived(src, st, a.0, a.1), w, size)
  {
    hide Contents, Serves, Arrived, Sorted, AllSeparate, BuffersExist;
    ArrivedServed(src, store, st, a, size);
  }

  lemma JustReceived(src: Source, store: map<Hash, seq<byte>>, st: State, a: (Hash, Option<seq<byte>>), w: Want,
                     size: nat)
    requires Sane(src.p) && Serves(src, store, size) && BuffersExist(st) && Sorted(src, st) && AllSeparate(st, size)
    requires HonestAnswer(store, a) && a.0 in st.pending && a.0 in store && w in st.pending[a.0]
    ensures Received(src, store, Arrived(src, st, a.0, a.1), w, size)
  {
    hide Contents, Serves, Arrived, Sorted, AllSeparate, BuffersExist;
    ArrivedServed(src, store, st, a, size);
    var wants := st.pending[a.0];
    var i :| 0 <= i < |wants| && wants[i] == w;
    assert Arrived(src, st, a.0, a.1).finished[|st.finished| + i] == Successes(wants)[i];
  }

  /** Objects that are waited for are stored. */
  lemma WaitedStored(src: Source, store: map<Hash, seq<byte>>, st: State, h: Hash, size: nat)
    requires Sane(src.p) && Serves(src, store, size) && Sorted(src, st) && Waited(st) && h in st.pending
    ensures h in store
  {
    hide Decode;
    var w := st.pending[h][0];
    assert w in st.pending[h];
  }

  /** Nothing is pending that nobody waits for. */
  predicate Waited(st: State) {
    forall h | h in st.pending :: st.pending[h] != []
  }

  /** The state of a reader that has its own buffer for every request, and was never refused. */
  ghost predicate Reading(src: Source, st: State, size: nat) {
    && BuffersExist(st) && Sorted(src, st) && AllSeparate(st, size) && Waited(st)
    && forall r | r in st.finished :: r.1
  }

  ghost predicate Serving(src: Source, store: map<Hash, seq<byte>>, st: State, size: nat)
    requires Sane(src.p)
  {
    Serves(src, store, size) && Reading(src, st, size)
  }

  /** Nobody waits for data in this buffer. */
  predicate Unused(st: State, b: nat) {
    forall h | h in st.pending :: forall w | w in st.pending[h] :: w.buf != b
  }

  lemma ZeroReading(src: Source, st: State, b: nat, s: nat, size: nat)
    requires Reading(src, st, size) && b in st.mem && |st.mem[b]| == size && Unused(st, b)
    ensures Reading(src, st.(mem := st.mem[b := Zeros(size)], finished := st.finished + [(s, true)]), size)
  {
    var next := st.(mem := st.mem[b := Zeros(size)], finished := st.finished + [(s, true)]);
    forall h | h in next.pending ensures Separate(next.mem, next.pending[h], size) {
      assert Separate(st.mem, st.pending[h], size);
    }
  }

  lemma ObjectReading(src: Source, st: State, h: Hash, w: Want, gets: seq<Hash>, size: nat)
    requires Reading(src, st, size) && w.buf in st.mem && |st.mem[w.buf]| == size && Unused(st, w.buf)
    requires w.stripe in src.hashes && src.hashes[w.stripe] == Object(h)
    ensures var wants := if h in st.pending then st.pending[h] else [];
            Reading(src, st.(pending := st.pending[h := wants + [w]], gets := gets), size)
  {
    var wants := if h in st.pending then st.pending[h] else [];
    assert Separate(st.mem, wants, size);
    SeparateMore(st.mem, wants, w, size);
    hide Separate;
  }

  lemma RequestReading(src: Source, st: State, w: Want, size: nat)
    requires Reading(src, st, size) && w.buf in st.mem && |st.mem[w.buf]| == size && Unused(st, w.buf)
    ensures Reading(src, Request(src, st, w), size)
  {
    hide Reading, Unused;
    if w.stripe in src.hashes && src.hashes[w.stripe].Object? {
      assert [] + [w] == [w];
      ObjectReading(src, st, src.hashes[w.stripe].hash, w, Request(src, st, w).gets, size);
    } else {
      ZeroReading(src, st, w.buf, w.stripe, size);
    }
  }

  lemma SeparateMore(mem: map<nat, seq<byte>>, wants: seq<Want>, w: Want, size: nat)
    requires Separate(mem, wants, size) && w.buf in mem && |mem[w.buf]| == size
             && forall v | v in wants :: v.buf != w.buf
    ensures Separate(mem, wants + [w], size)
  {
    forall i, j | 0 <= i < j < |wants + [w]| ensures (wants + [w])[i].buf != (wants + [w])[j].buf {
      if j == |wants| {
        assert wants[i] in wants;
      }
    }
  }

  lemma ServingKept(src: Source, store: map<Hash, seq<byte>>, st: State, a: (Hash, Option<seq<byte>>), size: nat)
    requires Sane(src.p) && Serving(src, store, st, size) && HonestAnswer(store, a)
    ensures Serving(src, store, Arrived(src, st, a.0, a.1), size)
  {
    hide Contents, Serves, Arrived, Sorted, AllSeparate, BuffersExist;
    ArrivedCounted(src, st, a.0, a.1, 0);
    if a.0 in st.pending {
      WaitedStored(src, store, st, a.0, size);
    }
    ArrivedServed(src, store, st, a, size);
  }

  lemma {:induction false} ServingAll(src: Source, store: map<Hash, seq<byte>>, st: State,
                                      answers: seq<(Hash, Option<seq<byte>>)>, size: nat)
    requires Sane(src.p) && Serving(src, store, st, size) && Honest(store, answers)
    ensures BuffersExist(st) && Serving(src, store, ArrivedAll(src, st, answers), size)
    decreases |answers|
  {
    hide Arrived, Serves, Sorted, AllSeparate, Waited;
    if answers != [] {
      var n := |answers| - 1;
      assert forall a | a in answers[..n] :: a in answers;
      assert answers[n] in answers;
      ServingAll(src, store, st, answers[..n], size);
      ServingKept(src, store, ArrivedAll(src, st, answers[..n]), answers[n], size);
    }
  }

  /** Every waiter whose object is among the answers of an honest store is served, shared objects
      included, whatever else arrives in the same poll; and nobody is refused. */
  lemma {:induction false} PollServed(src: Source, store: map<Hash, seq<byte>>, st: State,
                                      answers: seq<(Hash, Option<seq<byte>>)>,
                                      h: Hash, w: Want, size: nat)
    requires Sane(src.p) && Serving(src, store, st, size) && Honest(store, answers)
    requires h in st.pending && w in st.pending[h] && AnsweredIn(answers, h)
    ensures BuffersExist(st) && Received(src, store, ArrivedAll(src, st, answers), w, size)
    ensures forall r | r in ArrivedAll(src, st, answers).finished :: r.1
    decreases |answers|
  {
    hide Contents, Serves, Arrived, Sorted, AllSeparate, BuffersExist, Waited, Received, Separate;
    ServingAll(src, store, st, answers, size);
    var n := |answers| - 1;
    var a := answers[n];
    assert forall b | b in answers[..n] :: b in answers;
    assert a in answers && answers == answers[..n] + [a];
    ServingAll(src, store, st, answers[..n], size);
    var mid := ArrivedAll(src, st, answers[..n]);
    PendingLeft(src, st, answers[..n], a.0);
    PendingLeft(src, st, answers[..n], h);
    if a.0 in mid.pending {
      WaitedStored(src, store, mid, a.0, size);
    }
    if AnsweredIn(answers[..n], h) {
      PollServed(src, store, st, answers[..n], h, w, size);
      if a.0 in mid.pending {
        OtherBuffers(st, a.0, h, w, size);
      }
      ReceivedKept(src, store, mid, a, w, size);
    } else {
      JustReceived(src, store, mid, a, w, size);
    }
  }

  lemma OtherBuffers(st: State, g: Hash, h: Hash, w: Want, size: nat)
    requires AllSeparate(st, size) && g in st.pending && h in st.pending && g != h && w in st.pending[h]
    ensures forall v | v in st.pending[g] :: v.buf != w.buf
  {
  }

  // ----- archive, then read -----

  /** A finished archive, whose store has reported on outstanding puts only, serves every stripe: with the
      bytes that the archiver had in its buffer, which begin with what the device or the source held. */
  lemma ArchiveServes(job: Job, st: Archive.State, s: nat)
    requires JobOk(job) && Finished(job, st) && st.strayPuts == 0 && Collisionless(job.p, st.views)
    ensures Serves(Source(job.p, st.hashes), st.objects, StripeBytes(job.p))
    ensures s < |job.headers| && ShouldBeArchived(job, s) ==>
              && s in st.views && Contents(Source(job.p, st.hashes), st.objects, s, StripeBytes(job.p)) == st.views[s]
              && (st.strayReads == 0 ==> ViewOf(job, s) <= st.views[s])
              && (st.strayReads == 0 && |ViewOf(job, s)| == StripeBytes(job.p) ==> st.views[s] == ViewOf(job, s))
    ensures !(s < |job.headers| && ShouldBeArchived(job, s)) ==>
              Contents(Source(job.p, st.hashes), st.objects, s, StripeBytes(job.p)) == Zeros(StripeBytes(job.p))
  {
    hide Finished, Decode, JobOk;
    ManifestComplete(job, st);
    forall t | t in st.hashes && st.hashes[t].Object?
      ensures st.hashes[t].hash in st.objects && job.p.sha(st.objects[st.hashes[t].hash]) == st.hashes[t].hash
              && Sane(job.p) && Decode(job.p, t, st.objects[st.hashes[t].hash], StripeBytes(job.p)).Some?
    {
      JobSane(job);
      ArchivedStripe(job, st, t);
    }
    JobSane(job);
    if s in st.hashes {
      ArchivedStripe(job, st, s);
      ArchivedBytes(job, st, s);
    }
  }

  /** Whatever a store answers: if the reader accepts it, and it does not collide with what an honest
      store holds, the buffer gets the stripe as the honest store holds it. */
  lemma AcceptedIsContents(src: Source, store: map<Hash, seq<byte>>, st: State, h: Hash, data: seq<byte>, w: Want)
    requires Sane(src.p) && w.buf in st.mem && w.stripe in src.hashes && src.hashes[w.stripe] == Object(h)
    requires Serves(src, store, |st.mem[w.buf]|)
    requires src.p.sha(data) == src.p.sha(store[h]) ==> data == store[h]
    ensures var next := FinishStripe(src, st, h, data, w);
            next.finished == st.finished + [(w.stripe, true)] ==>
              w.buf in next.mem && next.mem[w.buf] == Contents(src, store, w.stripe, |st.mem[w.buf]|)
  {
    hide Decode;
    var next := FinishStripe(src, st, h, data, w);
    assert next.finished[|st.finished|] == (w.stripe, true) || next.finished[|st.finished|] == (w.stripe, false);
  }

  /** Archive round trip: a reader of the finished archive that gets answers from an honest store is told
      success for every stripe it waits for, and finds in its buffer the bytes that the archiver saw. */
  lemma ArchiveRoundTrip(job: Job, ast: Archive.State, st: State, answers: seq<(Hash, Option<seq<byte>>)>, h: Hash,
                         w: Want)
    requires JobOk(job) && Finished(job, ast) && ast.strayPuts == 0 && Sane(job.p) && Collisionless(job.p, ast.views)
    requires Reading(Source(job.p, ast.hashes), st, StripeBytes(job.p))
    requires Honest(ast.objects, answers) && h in st.pending && w in st.pending[h] && AnsweredIn(answers, h)
    ensures BuffersExist(st) && w.stripe in ast.views
    ensures var next := ArrivedAll(Source(job.p, ast.hashes), st, answers);
            && (w.stripe, true) in next.finished && (forall r | r in next.finished :: r.1)
            && w.buf in next.mem && next.mem[w.buf] == ast.views[w.stripe]
  {
    hide Finished, Decode, JobOk, Contents, ArrivedAll, AllSeparate, Waited, BuffersExist;
    var src := Source(job.p, ast.hashes);
    ArchiveServes(job, ast, w.stripe);
    PollServed(src, ast.objects, st, answers, h, w, StripeBytes(job.p));
    ManifestComplete(job, ast);
    assert w.stripe in ast.hashes;
  }
}
