/** Exporting an archive to a raw image: stripes are requested in order, completed and written in any
    order. */
module Export {
  import opened Codec
  import opened StripeMapping
  import opened Archive
  import opened ArchiveSource

  // ----- the file, stripe by stripe -----

  function Chunk(file: seq<byte>, size: nat, s: nat): (r: seq<byte>)
    requires (s + 1) * size <= |file|
    ensures |r| == size
  {
    InFile(file, size, s);
    file[s * size..(s + 1) * size]
  }

  function PutChunk(file: seq<byte>, size: nat, s: nat, data: seq<byte>): (r: seq<byte>)
    requires (s + 1) * size <= |file| && |data| == size
    ensures |r| == |file|
  {
    InFile(file, size, s);
    file[..s * size] + data + file[(s + 1) * size..]
  }

  lemma InFile(file: seq<byte>, size: nat, s: nat)
    requires (s + 1) * size <= |file|
    ensures 0 <= s * size && s * size + size == (s + 1) * size
  {
  }

  lemma Apart(a: nat, b: nat, size: nat)
    requires a < b
    ensures (a + 1) * size <= b * size
  {
    assert b * size == (a + 1) * size + (b - a - 1) * size;
  }

  lemma PutThenChunk(file: seq<byte>, size: nat, s: nat, data: seq<byte>, t: nat)
    requires (s + 1) * size <= |file| && |data| == size && (t + 1) * size <= |file|
    ensures Chunk(PutChunk(file, size, s, data), size, t) == if s == t then data else Chunk(file, size, t)
  {
    InFile(file, size, s);
    InFile(file, size, t);
    if t < s {
      Apart(t, s, size);
    } else if s < t {
      Apart(s, t, size);
      var put := PutChunk(file, size, s, data);
      forall i | t * size <= i < (t + 1) * size ensures put[i] == file[i] {
        assert put[i] == file[(s + 1) * size..][i - (s + 1) * size];
      }
    }
  }

  // ----- while stripes are read into buffers of their own -----

  /** What is known of the store: nothing, or that it holds and returns these objects. */
  type Trust = Option<map<Hash, seq<byte>>>

  ghost predicate Trusted(src: Source, store: Trust, size: nat)
    requires Sane(src.p)
  {
    store.Some? ==> Serves(src, store.value, size)
  }

  predicate Expected(store: Trust, a: (Hash, Option<seq<byte>>)) {
    store.Some? ==> HonestAnswer(store.value, a)
  }

  /** The bytes are right for the stripe: what the trusted store holds, or what the archive vouches for. */
  ghost predicate Right(src: Source, store: Trust, s: nat, x: seq<byte>)
    requires Sane(src.p)
  {
    if store.Some? then x == Contents(src, store.value, s, |x|) else Genuine(src, s, x)
  }

  ghost predicate Tidy(src: Source, store: Trust, st: ArchiveSource.State, size: nat)
    requires Sane(src.p)
  {
    && Sorted(src, st) && Waited(st)
    && (forall h | h in st.pending :: OwnBuffers(src, st.mem, st.pending[h], size))
    && ResultsRight(src, store, st.mem, st.finished, size)
    && (forall s :: Waiting(src, st, s) + InResults(st.finished, s) <= 1)
  }

  /** Every stripe that is waited for has the buffer of its own number. */
  ghost predicate OwnBuffers(src: Source, mem: map<nat, seq<byte>>, wants: seq<Want>, size: nat) {
    forall w | w in wants :: w.buf == w.stripe && w.stripe in mem && |mem[w.stripe]| == size
  }

  /** Successes come with the right bytes; and with a trusted store there is nothing but successes. */
  ghost predicate ResultsRight(src: Source, store: Trust, mem: map<nat, seq<byte>>, finished: seq<(nat, bool)>,
                               size: nat)
    requires Sane(src.p)
  {
    && (store.Some? ==> forall r | r in finished :: r.1)
    && (forall r | r in finished && r.1 :: r.0 in mem && |mem[r.0]| == size && Right(src, store, r.0, mem[r.0]))
  }

  /** No result for s: its buffer may be written without disturbing what is finished. */
  lemma {:induction false} NoResult(finished: seq<(nat, bool)>, s: nat)
    requires InResults(finished, s) == 0
    ensures forall r | r in finished :: r.0 != s
  {
    if finished != [] {
      var n := |finished| - 1;
      NoResult(finished[..n], s);
      assert finished == finished[..n] + [finished[n]];
    }
  }

  lemma {:induction false} Wanted(wants: seq<Want>, w: Want)
    requires w in wants
    ensures InWants(wants, w.stripe) > 0
  {
    var n := |wants| - 1;
    if wants[n] != w {
      assert w in wants[..n];
      Wanted(wants[..n], w);
    }
  }

  /** The buffers keep their sizes, and only those of wanted stripes change. */
  ghost predicate SameSizes(a: map<nat, seq<byte>>, b: map<nat, seq<byte>>) {
    a.Keys == b.Keys && forall k | k in a :: |a[k]| == |b[k]|
  }

  lemma FinishOneTidy(src: Source, store: Trust, st: ArchiveSource.State, h: Hash, data: seq<byte>, w: Want, size: nat)
    requires Sane(src.p) && w.buf == w.stripe && w.stripe in st.mem && |st.mem[w.stripe]| == size
    requires w.stripe in src.hashes && src.hashes[w.stripe] == Object(h)
    requires Trusted(src, store, size) && (store.Some? ==> h in store.value && data == store.value[h])
    requires ResultsRight(src, store, st.mem, st.finished, size) && InResults(st.finished, w.stripe) == 0
    ensures var next := FinishStripe(src, st, h, data, w);
            SameSizes(st.mem, next.mem) && ResultsRight(src, store, next.mem, next.finished, size)
  {
    hide Decode, Genuine, Contents, Serves;
    FinishedGenuine(src, st, h, data, w);
    if store.Some? {
      FinishedServed(src, store.value, st, h, w);
    }
    NoResult(st.finished, w.stripe);
  }

  lemma {:induction false} FinishTidy(src: Source, store: Trust, st: ArchiveSource.State, h: Hash, data: seq<byte>,
                                      wants: seq<Want>, size: nat)
    requires Sane(src.p) && OwnBuffers(src, st.mem, wants, size)
    requires Trusted(src, store, size) && (store.Some? ==> h in store.value && data == store.value[h])
    requires forall w | w in wants :: w.stripe in src.hashes && src.hashes[w.stripe] == Object(h)
    requires ResultsRight(src, store, st.mem, st.finished, size)
    requires forall s: nat :: InWants(wants, s) + InResults(st.finished, s) <= 1
    ensures var next := FinishPending(src, st, h, data, wants);
            SameSizes(st.mem, next.mem) && ResultsRight(src, store, next.mem, next.finished, size)
    decreases |wants|
  {
    hide FinishStripe, ResultsRight, Trusted;
    if wants != [] {
      var n := |wants| - 1;
      var w := wants[n];
      assert w in wants;
      forall s: nat ensures InWants(wants[..n], s) + InResults(st.finished, s) <= 1 {
        assert InWants(wants, s) + InResults(st.finished, s) <= 1;
      }
      FinishTidy(src, store, st, h, data, wants[..n], size);
      var rest := FinishPending(src, st, h, data, wants[..n]);
      FinishCounted(src, st, h, data, wants[..n], w.stripe);
      assert InWants(wants, w.stripe) == InWants(wants[..n], w.stripe) + 1;
      FinishOneTidy(src, store, rest, h, data, w, size);
    }
  }

  lemma FailTidy(src: Source, store: Trust, st: ArchiveSource.State, wants: seq<Want>, size: nat)
    requires Sane(src.p) && store.None? && ResultsRight(src, store, st.mem, st.finished, size)
    ensures ResultsRight(src, store, FailPending(st, wants).mem, FailPending(st, wants).finished, size)
  {
    hide Genuine;
  }

  lemma ArrivedTidy(src: Source, store: Trust, st: ArchiveSource.State, h: Hash, answer: Option<seq<byte>>, size: nat)
    requires Sane(src.p) && BuffersExist(st) && Tidy(src, store, st, size)
    requires Trusted(src, store, size) && Expected(store, (h, answer))
    ensures Tidy(src, store, Arrived(src, st, h, answer), size) && SameSizes(st.mem, Arrived(src, st, h, answer).mem)
  {
    hide FinishPending, ResultsRight, InWants, InResults, Serves;
    var next := Arrived(src, st, h, answer);
    forall s ensures Waiting(src, next, s) + InResults(next.finished, s) <= 1 {
      ArrivedCounted(src, st, h, answer, s);
      assert Waiting(src, st, s) + InResults(st.finished, s) <= 1;
    }
    ArrivedCounted(src, st, h, answer, 0);
    if h in st.pending {
      var wants, rest := st.pending[h], st.(pending := st.pending - {h});
      forall s: nat ensures InWants(wants, s) + InResults(st.finished, s) <= 1 {
        assert Waiting(src, st, s) + InResults(st.finished, s) <= 1;
        if !(s in src.hashes && src.hashes[s] == Object(h)) {
          NotWanted(wants, s);
        }
      }
      if store.Some? {
        WaitedStored(src, store.value, st, h, size);
      }
      if answer.Some? {
        FinishTidy(src, store, rest, h, answer.value, wants, size);
      } else {
        FailTidy(src, store, rest, wants, size);
      }
    }
  }

  lemma {:induction false} PollTidy(src: Source, store: Trust, st: ArchiveSource.State,
                                    answers: seq<(Hash, Option<seq<byte>>)>, size: nat)
    requires Sane(src.p) && BuffersExist(st) && Tidy(src, store, st, size)
    requires Trusted(src, store, size) && forall a | a in answers :: Expected(store, a)
    ensures Tidy(src, store, ArrivedAll(src, st, answers), size) && SameSizes(st.mem, ArrivedAll(src, st, answers).mem)
    decreases |answers|
  {
    hide Arrived, Tidy, BuffersExist, Trusted, Expected;
    if answers != [] {
      var n := |answers| - 1;
      assert forall a | a in answers[..n] :: a in answers;
      assert answers[n] in answers && answers[n] == (answers[n].0, answers[n].1);
      PollTidy(src, store, st, answers[..n], size);
      ArrivedTidy(src, store, ArrivedAll(src, st, answers[..n]), answers[n].0, answers[n].1, size);
    }
  }

  lemma RequestRight(src: Source, store: Trust, st: ArchiveSource.State, s: nat, size: nat)
    requires Sane(src.p) && s in st.mem && |st.mem[s]| == size
    requires ResultsRight(src, store, st.mem, st.finished, size) && InResults(st.finished, s) == 0
    ensures var next := Request(src, st, Want(s, s));
            && SameSizes(st.mem, next.mem) && ResultsRight(src, store, next.mem, next.finished, size)
            && forall h | h in next.pending ::
                 || (h in st.pending && next.pending[h] == st.pending[h])
                 || (next.pending[h] == (if h in st.pending then st.pending[h] else []) + [Want(s, s)])
  {
    hide Decode;
    NoResult(st.finished, s);
    assert s !in src.hashes || src.hashes[s].ZeroStripe? ==> Right(src, store, s, Zeros(size));
    hide Right;
  }

  lemma RequestTidy(src: Source, store: Trust, st: ArchiveSource.State, s: nat, size: nat)
    requires Sane(src.p) && Tidy(src, store, st, size) && s in st.mem && |st.mem[s]| == size
    requires Waiting(src, st, s) == 0 && InResults(st.finished, s) == 0
    ensures Tidy(src, store, Request(src, st, Want(s, s)), size) && SameSizes(st.mem, Request(src, st, Want(s, s)).mem)
  {
    hide Request, Waiting, InResults, InWants, ResultsRight, Sorted, Sane;
    var w := Want(s, s);
    var next := Request(src, st, w);
    forall t ensures Waiting(src, next, t) + InResults(next.finished, t) <= 1 {
      RequestCounted(src, st, w, t);
      assert Waiting(src, st, t) + InResults(st.finished, t) <= 1;
    }
    RequestCounted(src, st, w, s);
    RequestRight(src, store, st, s, size);
    forall h | h in next.pending ensures OwnBuffers(src, next.mem, next.pending[h], size) {
      if h in st.pending {
        assert OwnBuffers(src, st.mem, st.pending[h], size);
      }
    }
  }
}
