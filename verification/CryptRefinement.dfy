/** The encrypting channel over an encrypted disk behaves as the plain disk, however the sectors are
    grouped into writes and reads. */
module CryptRefinement {
  import opened Codec
  import opened Xts
  import opened CryptChannel

  /** base: the disk below the channel; plain: the disk it stands for. data: of each write, what its
      buffer held when it was added; applied: of each write, the sectors that the device has written;
      got: of each read, what the plain disk held at each sector that the device has read. */
  datatype World = World(
    c: Cipher,
    st: State,
    base: seq<seq<byte>>,
    plain: seq<seq<byte>>,
    data: map<nat, seq<byte>>,
    applied: map<nat, set<nat>>,
    got: map<nat, map<nat, seq<byte>>>)

  datatype Step =
    | Put(b: nat, bytes: seq<byte>)
    | Read(r: Req, id: nat) | Write(r: Req, id: nat) | Flush(id: nat) | SubmitAll(ok: bool)
    | ReadSector(id: nat, i: nat) | WriteSector(id: nat, i: nat) | Done(id: nat, ok: bool)

  predicate Uses(op: BaseOp, b: nat) {
    !op.BaseFlush? && op.req.buf == b
  }

  predicate Free(st: State, b: nat) {
    forall id | id in st.ops :: !Uses(st.ops[id], b)
  }

  ghost predicate DisksOk(c: Cipher, base: seq<seq<byte>>, plain: seq<seq<byte>>) {
    && |base| == |plain|
    && forall k: nat | k < |base| :: |plain[k]| == SECTOR_SIZE && base[k] == c.enc(Tweak(k), plain[k])
  }

  ghost predicate OpOk(w: World, id: nat)
    requires Lawful(w.c) && id in w.st.ops
  {
    match w.st.ops[id]
    case BaseFlush => true
    case BaseRead(r) =>
      && Fits(w.st.mem, r) && r.off + r.cnt <= |w.base|
      && id in w.got
      && (forall i | i in w.got[id] ::
            i < r.cnt && |w.got[id][i]| == SECTOR_SIZE
                && Sector(w.st.mem[r.buf], i) == w.c.enc(Tweak(r.off + i), w.got[id][i]))
    case BaseWrite(r) =>
      && Fits(w.st.mem, r) && r.off + r.cnt <= |w.base|
      && id in w.data && |w.data[id]| == |w.st.mem[r.buf]| && id in w.applied
      && w.st.mem[r.buf] == Transformed(w.c.enc, w.data[id], r.off, r.cnt)
  }

  /** No two requests share a buffer. */
  ghost predicate OwnBuffers(ops: map<nat, BaseOp>) {
    forall a, b, x | a in ops && b in ops && Uses(ops[a], x) && Uses(ops[b], x) :: a == b
  }

  ghost predicate Inv(w: World) {
    && Lawful(w.c)
    && DisksOk(w.c, w.base, w.plain)
    && SlotsCover(w.st)
    && OwnBuffers(w.st.ops)
    && forall id | id in w.st.ops :: OpOk(w, id)
  }

  /** A submission may fail. Its reads leave their slots behind; writes and flushes are not to be added
      under the ids of such slots, until a read was. */
  ghost predicate Enabled(w: World, step: Step)
    requires Inv(w)
  {
    match step
    case Put(b, _) => Free(w.st, b)
    case Read(r, id) => id !in w.st.ops && Free(w.st, r.buf) && Fits(w.st.mem, r) && r.off + r.cnt <= |w.base|
    case Write(r, id) =>
      && id !in w.st.ops && id !in w.st.slots
      && Free(w.st, r.buf) && Fits(w.st.mem, r) && r.off + r.cnt <= |w.base|
    case Flush(id) => id !in w.st.ops && id !in w.st.slots
    case SubmitAll(ok) => true
    case ReadSector(id, i) => id in w.st.ops && w.st.ops[id].BaseRead? && i < w.st.ops[id].req.cnt
    case WriteSector(id, i) =>
      id in w.st.ops && w.st.ops[id].BaseWrite? && i < w.st.ops[id].req.cnt && id in w.applied && i !in w.applied[id]
    case Done(id, ok) => id in w.st.ops && (ok ==> Served(w, id))
  }

  /** A request succeeds only when the device has read or written all of its sectors. */
  ghost predicate Served(w: World, id: nat)
    requires id in w.st.ops
  {
    match w.st.ops[id]
    case BaseRead(r) => id in w.got && forall i: nat | i < r.cnt :: i in w.got[id]
    case BaseWrite(r) => id in w.applied && forall i: nat | i < r.cnt :: i in w.applied[id]
    case BaseFlush => true
  }

  function Noted(got: map<nat, seq<byte>>, i: nat, v: seq<byte>): map<nat, seq<byte>> {
    got[i := v]
  }

  ghost function Next(w: World, step: Step): World
    requires Inv(w) && Enabled(w, step)
  {
    match step
    case Put(b, bytes) => w.(st := w.st.(mem := w.st.mem[b := bytes]))
    case Read(r, id) => w.(st := AddRead(w.st, r, id), got := w.got[id := map[]])
    case Write(r, id) => w.(st := AddWrite(w.c, w.st, r, id), data := w.data[id := w.st.mem[r.buf]],
                              applied := w.applied[id := {}])
    case Flush(id) => w.(st := AddFlush(w.st, id))
    case SubmitAll(ok) => w.(st := Submit(w.st, ok))
    case ReadSector(id, i) =>
      assert OpOk(w, id);
      var r := w.st.ops[id].req;
      InRange(w.st.mem[r.buf], r.cnt, i);
      w.(st := w.st.(mem := w.st.mem[r.buf := PutSector(w.st.mem[r.buf], i, w.base[r.off + i])]),
         got := w.got[id := Noted(w.got[id], i, w.plain[r.off + i])])
    case WriteSector(id, i) =>
      assert OpOk(w, id);
      var r := w.st.ops[id].req;
      InRange(w.st.mem[r.buf], r.cnt, i);
      w.(base := w.base[r.off + i := Sector(w.st.mem[r.buf], i)], plain := w.plain[r.off + i := Sector(w.data[id], i)],
         applied := w.applied[id := w.applied[id] + {i}])
    case Done(id, ok) =>
      assert OpOk(w, id);
      w.(st := Complete(w.c, w.st, id, ok))
  }

  lemma InRange(data: seq<byte>, cnt: nat, i: nat)
    requires cnt * SECTOR_SIZE <= |data| && i < cnt
    ensures (i + 1) * SECTOR_SIZE <= |data|
  {
  }

  // ----- every step keeps the invariant -----

  /** A new channel over any disk: the plain disk is its decryption. */
  lemma NewInv(c: Cipher, mem: map<nat, seq<byte>>, base: seq<seq<byte>>, plain: seq<seq<byte>>)
    requires Lawful(c) && |plain| == |base|
    requires forall k: nat | k < |base| :: |base[k]| == SECTOR_SIZE && plain[k] == c.dec(Tweak(k), base[k])
    ensures Inv(World(c, State(map[], mem, map[], {}), base, plain, map[], map[], map[]))
  {
    hide Tweak;
  }

  /** An operation whose buffer is not touched stays as it is. */
  lemma OpFrame(w: World, w': World, id: nat)
    requires Lawful(w.c) && w'.c == w.c && |w'.base| == |w.base|
    requires id in w.st.ops && id in w'.st.ops && w'.st.ops[id] == w.st.ops[id] && OpOk(w, id)
    requires !w.st.ops[id].BaseFlush? && w.st.ops[id].req.buf in w.st.mem ==>
               w.st.ops[id].req.buf in w'.st.mem && w'.st.mem[w.st.ops[id].req.buf] == w.st.mem[w.st.ops[id].req.buf]
    requires id in w.data ==> id in w'.data && w'.data[id] == w.data[id]
    requires id in w.applied ==> id in w'.applied
    requires id in w.got ==> id in w'.got && w'.got[id] == w.got[id]
    ensures OpOk(w', id)
  {
  }

  lemma PutInv(w: World, step: Step)
    requires Inv(w) && Enabled(w, step) && step.Put?
    ensures Inv(Next(w, step))
  {
    hide Transformed, OwnBuffers;
    var w' := Next(w, step);
    forall id | id in w'.st.ops ensures OpOk(w', id) {
      OpFrame(w, w', id);
    }
  }

  /** A new request under a fresh id, with a buffer of its own. */
  lemma AddedApart(st: State, st': State, id: nat, op: BaseOp)
    requires SlotsCover(st) && OwnBuffers(st.ops) && id !in st.ops && (op.BaseFlush? || Free(st, op.req.buf))
    requires op.BaseRead? || id !in st.slots
    requires st'.ops == st.ops[id := op] && st'.slots == if op.BaseRead? then st.slots[id := op.req] else st.slots
    ensures SlotsCover(st') && OwnBuffers(st'.ops)
  {
  }

  lemma AddInv(w: World, step: Step)
    requires Inv(w) && Enabled(w, step) && (step.Read? || step.Write? || step.Flush?)
    ensures Inv(Next(w, step))
  {
    hide Transformed, DisksOk, SlotsCover, OwnBuffers;
    var w' := Next(w, step);
    assert OpOk(w', step.id);
    AddedApart(w.st, w'.st, step.id, w'.st.ops[step.id]);
    forall id | id in w'.st.ops ensures OpOk(w', id) {
      if id != step.id {
        OpFrame(w, w', id);
      }
    }
  }

  lemma SubmitInv(w: World, ok: bool)
    requires Inv(w) && Enabled(w, SubmitAll(ok))
    ensures Inv(Next(w, SubmitAll(ok)))
  {
    hide Transformed;
    var w' := Next(w, SubmitAll(ok));
    forall id | id in w'.st.ops ensures OpOk(w', id) {
      OpFrame(w, w', id);
    }
  }

  /** Sector i arrives in the buffer; the others stay. */
  lemma Arrived(c: Cipher, buf: seq<byte>, r: Req, got: map<nat, seq<byte>>, i: nat, v: seq<byte>, j: nat)
    requires Lawful(c) && r.cnt * SECTOR_SIZE <= |buf| && i < r.cnt && |v| == SECTOR_SIZE
    requires j in got ==> j < r.cnt && |got[j]| == SECTOR_SIZE && Sector(buf, j) == c.enc(Tweak(r.off + j), got[j])
    requires j in got || j == i
    ensures (i + 1) * SECTOR_SIZE <= |buf| && (j + 1) * SECTOR_SIZE <= |buf|
    ensures Sector(PutSector(buf, i, c.enc(Tweak(r.off + i), v)), j) == c.enc(Tweak(r.off + j), Noted(got, i, v)[j])
  {
    InRange(buf, r.cnt, i);
    InRange(buf, r.cnt, j);
    PutThenGet(buf, i, c.enc(Tweak(r.off + i), v), j);
  }

  lemma ReadSectorOp(w: World, id: nat, i: nat)
    requires Inv(w) && Enabled(w, ReadSector(id, i))
    ensures OpOk(Next(w, ReadSector(id, i)), id)
  {
    hide Transformed, SlotsCover, OwnBuffers, PutSector, Sector, Tweak;
    assert OpOk(w, id);
    var r := w.st.ops[id].req;
    var w' := Next(w, ReadSector(id, i));
    forall j | j in w'.got[id]
      ensures j < r.cnt && |w'.got[id][j]| == SECTOR_SIZE && (j + 1) * SECTOR_SIZE <= |w'.st.mem[r.buf]|
              && Sector(w'.st.mem[r.buf], j) == w.c.enc(Tweak(r.off + j), w'.got[id][j])
    {
      Arrived(w.c, w.st.mem[r.buf], r, w.got[id], i, w.plain[r.off + i], j);
    }
  }

  lemma ReadSectorInv(w: World, id: nat, i: nat)
    requires Inv(w) && Enabled(w, ReadSector(id, i))
    ensures Inv(Next(w, ReadSector(id, i)))
  {
    ReadSectorOp(w, id, i);
    hide Transformed, PutSector;
    var w' := Next(w, ReadSector(id, i));
    forall t | t in w'.st.ops ensures OpOk(w', t) {
      if t != id {
        assert Uses(w.st.ops[id], w.st.ops[id].req.buf);
        OpFrame(w, w', t);
      }
    }
  }

  lemma WriteSectorInv(w: World, id: nat, i: nat)
    requires Inv(w) && Enabled(w, WriteSector(id, i))
    ensures Inv(Next(w, WriteSector(id, i)))
  {
    hide Transformed, OwnBuffers, SlotsCover, Sector, Tweak;
    assert OpOk(w, id);
    var r := w.st.ops[id].req;
    InRange(w.st.mem[r.buf], r.cnt, i);
    TransformedAt(w.c.enc, w.data[id], r.off, r.cnt, i);
    var w' := Next(w, WriteSector(id, i));
    assert w'.base[r.off + i] == w.c.enc(Tweak(r.off + i), w'.plain[r.off + i]);
    forall t | t in w'.st.ops ensures OpOk(w', t) {
      OpFrame(w, w', t);
    }
  }

  lemma DoneInv(w: World, id: nat, ok: bool)
    requires Inv(w) && Enabled(w, Done(id, ok))
    ensures Inv(Next(w, Done(id, ok)))
  {
    assert OpOk(w, id);
    CompletionTouches(w.c, w.st, id, ok);
    var w' := Next(w, Done(id, ok));
    hide Transformed, SlotsCover;
    forall t | t in w'.st.ops ensures OpOk(w', t) {
      if !w.st.ops[t].BaseFlush? {
        assert OpOk(w, t) && Uses(w.st.ops[t], w.st.ops[t].req.buf);
        assert w.st.ops[id].BaseFlush? || Uses(w.st.ops[id], w.st.ops[id].req.buf);
      }
      OpFrame(w, w', t);
    }
  }

  lemma NextInv(w: World, step: Step)
    requires Inv(w) && Enabled(w, step)
    ensures Inv(Next(w, step))
  {
    hide Inv, Enabled;
    match step
    case SubmitAll(ok) => SubmitInv(w, ok);
    case ReadSector(id, i) => ReadSectorInv(w, id, i);
    case WriteSector(id, i) => WriteSectorInv(w, id, i);
    case Done(id, ok) => DoneInv(w, id, ok);
    case Put(_, _) => PutInv(w, step);
    case _ => AddInv(w, step);
  }

  // ----- what a completed read holds -----

  /** When a read completes, each sector of its buffer is what the plain disk held when the device
      read it. */
  lemma ReadDecrypted(w: World, id: nat, i: nat)
    requires Inv(w) && Enabled(w, Done(id, true)) && w.st.ops[id].BaseRead? && i < w.st.ops[id].req.cnt
    ensures var r := w.st.ops[id].req;
            var mem := Next(w, Done(id, true)).st.mem;
            r.buf in mem && (i + 1) * SECTOR_SIZE <= |mem[r.buf]| && id in w.got && i in w.got[id]
            && Sector(mem[r.buf], i) == w.got[id][i]
  {
    assert OpOk(w, id);
    var r := w.st.ops[id].req;
    InRange(w.st.mem[r.buf], r.cnt, i);
    TransformedAt(w.c.dec, w.st.mem[r.buf], r.off, r.cnt, i);
  }

  ghost predicate Legal(w: World, run: seq<Step>)
    requires Inv(w)
    decreases |run|
  {
    run != [] ==> Enabled(w, run[0]) && (NextInv(w, run[0]); Legal(Next(w, run[0]), run[1..]))
  }

  ghost function Final(w: World, run: seq<Step>): (end: World)
    requires Inv(w) && Legal(w, run)
    ensures Inv(end)
    decreases |run|
  {
    if run == [] then w else NextInv(w, run[0]); Final(Next(w, run[0]), run[1..])
  }

  /** The read stays at the base channel during the run. */
  ghost predicate Persists(w: World, run: seq<Step>, id: nat)
    requires Inv(w) && Legal(w, run)
    decreases |run|
  {
    && id in w.st.ops && w.st.ops[id].BaseRead?
    && (run != [] ==> (NextInv(w, run[0]); Persists(Next(w, run[0]), run[1..], id)))
  }

  ghost predicate HeldAtSomeMoment(w: World, run: seq<Step>, k: nat, v: seq<byte>)
    requires Inv(w) && Legal(w, run)
    decreases |run|
  {
    || (k < |w.plain| && w.plain[k] == v)
    || (run != [] && (NextInv(w, run[0]); HeldAtSomeMoment(Next(w, run[0]), run[1..], k, v)))
  }

  lemma GotKnown(w: World, id: nat)
    requires Inv(w) && id in w.st.ops && w.st.ops[id].BaseRead?
    ensures id in w.got
  {
    assert OpOk(w, id);
  }

  lemma SameSize(c: Cipher, base: seq<seq<byte>>, plain: seq<seq<byte>>)
    requires DisksOk(c, base, plain)
    ensures |base| == |plain|
  {
  }

  lemma GotStep(w: World, step: Step, id: nat, i: nat)
    requires Inv(w) && Enabled(w, step) && id in w.st.ops && w.st.ops[id].BaseRead?
    requires id in Next(w, step).st.ops && Next(w, step).st.ops[id].BaseRead?
    ensures id in w.got && id in Next(w, step).got && Next(w, step).st.ops[id] == w.st.ops[id]
    ensures w.st.ops[id].req.off + w.st.ops[id].req.cnt <= |w.plain|
    ensures i in Next(w, step).got[id] ==>
              || (i in w.got[id] && Next(w, step).got[id][i] == w.got[id][i])
              || (i < w.st.ops[id].req.cnt && Next(w, step).got[id][i] == w.plain[w.st.ops[id].req.off + i])
  {
    hide Transformed, OwnBuffers, PutSector, DisksOk, SlotsCover, Lawful;
    assert OpOk(w, id);
    SameSize(w.c, w.base, w.plain);
  }

  lemma {:induction false} GotWasHeld(w: World, run: seq<Step>, id: nat, i: nat)
    requires Inv(w) && Legal(w, run) && Persists(w, run, id)
    ensures var end := Final(w, run);
            && id in end.st.ops && end.st.ops[id] == w.st.ops[id] && id in w.got && id in end.got
            && (i in end.got[id] ==>
                  || (i in w.got[id] && w.got[id][i] == end.got[id][i])
                  || HeldAtSomeMoment(w, run, w.st.ops[id].req.off + i, end.got[id][i]))
    decreases |run|
  {
    hide Inv, Enabled, Next;
    GotKnown(w, id);
    if run != [] {
      NextInv(w, run[0]);
      GotStep(w, run[0], id, i);
      GotWasHeld(Next(w, run[0]), run[1..], id, i);
    }
  }

  /** A read that was just added, and completes after any run: each sector of its buffer then holds,
      decrypted, what the plain disk held at some moment in between. */
  lemma ReadsLikePlain(w: World, run: seq<Step>, id: nat, i: nat)
    requires Inv(w) && Legal(w, run) && Persists(w, run, id)
    requires id in w.got && w.got[id] == map[] && i < w.st.ops[id].req.cnt
    requires Enabled(Final(w, run), Done(id, true))
    ensures var r := w.st.ops[id].req;
            var mem := Next(Final(w, run), Done(id, true)).st.mem;
            && r.buf in mem && (i + 1) * SECTOR_SIZE <= |mem[r.buf]|
            && HeldAtSomeMoment(w, run, r.off + i, Sector(mem[r.buf], i))
  {
    GotWasHeld(w, run, id, i);
    ReadDecrypted(Final(w, run), id, i);
  }

  // ----- what a completed write has done -----

  /** The sector of the disks that a step writes, and the plain data it writes there. */
  ghost predicate WritesAt(w: World, step: Step, k: nat, v: seq<byte>)
    requires Inv(w) && Enabled(w, step)
  {
    && step.WriteSector?
    && (hide Transformed, OwnBuffers, SlotsCover, DisksOk; assert OpOk(w, step.id);
        var r := w.st.ops[step.id].req;
        InRange(w.st.mem[r.buf], r.cnt, step.i);
        k == r.off + step.i && v == Sector(w.data[step.id], step.i))
  }

  /** Nothing but a write of that very sector changes a sector of the plain disk. */
  lemma PlainStep(w: World, step: Step, k: nat)
    requires Inv(w) && Enabled(w, step) && k < |w.plain|
    ensures k < |Next(w, step).plain|
    ensures Next(w, step).plain[k] == w.plain[k] || WritesAt(w, step, k, Next(w, step).plain[k])
  {
    hide Transformed, OwnBuffers, SlotsCover, PutSector;
    if step.WriteSector? {
      assert OpOk(w, step.id);
    }
  }

  /** During the run v is written to sector k. */
  ghost predicate WrittenDuring(w: World, run: seq<Step>, k: nat, v: seq<byte>)
    requires Inv(w) && Legal(w, run)
    decreases |run|
  {
    run != [] && (WritesAt(w, run[0], k, v) || (NextInv(w, run[0]); WrittenDuring(Next(w, run[0]), run[1..], k, v)))
  }

  lemma {:induction false} KeptOrWritten(w: World, run: seq<Step>, k: nat)
    requires Inv(w) && Legal(w, run) && k < |w.plain|
    ensures k < |Final(w, run).plain|
    ensures Final(w, run).plain[k] == w.plain[k] || WrittenDuring(w, run, k, Final(w, run).plain[k])
    decreases |run|
  {
    hide Inv, Enabled, Next, WritesAt;
    if run != [] {
      NextInv(w, run[0]);
      PlainStep(w, run[0], k);
      KeptOrWritten(Next(w, run[0]), run[1..], k);
    }
  }

  /** The write stays at the base channel during the run. */
  ghost predicate WritePersists(w: World, run: seq<Step>, id: nat)
    requires Inv(w) && Legal(w, run)
    decreases |run|
  {
    && id in w.st.ops && w.st.ops[id].BaseWrite?
    && (run != [] ==> (NextInv(w, run[0]); WritePersists(Next(w, run[0]), run[1..], id)))
  }

  lemma WriteKnown(w: World, id: nat, i: nat)
    requires Inv(w) && id in w.st.ops && w.st.ops[id].BaseWrite? && i < w.st.ops[id].req.cnt
    ensures id in w.data && id in w.applied && (i + 1) * SECTOR_SIZE <= |w.data[id]|
    ensures w.st.ops[id].req.off + i < |w.plain|
  {
    hide Transformed, OwnBuffers, SlotsCover;
    assert OpOk(w, id);
    InRange(w.data[id], w.st.ops[id].req.cnt, i);
  }

  /** One step of a write that stays: its data does not change, and applying a sector writes it. */
  lemma WriteStep(w: World, step: Step, id: nat, i: nat)
    requires Inv(w) && Enabled(w, step) && id in w.st.ops && w.st.ops[id].BaseWrite? && i < w.st.ops[id].req.cnt
    requires id in Next(w, step).st.ops && Next(w, step).st.ops[id].BaseWrite?
    ensures id in w.data && id in w.applied && (i + 1) * SECTOR_SIZE <= |w.data[id]|
            && w.st.ops[id].req.off + i < |w.plain|
    ensures var w' := Next(w, step);
            && id in w'.data && id in w'.applied && w'.st.ops[id] == w.st.ops[id] && w'.data[id] == w.data[id]
            && (i in w'.applied[id] ==> i in w.applied[id] || step == WriteSector(id, i))
    ensures step == WriteSector(id, i) ==>
              var k := w.st.ops[id].req.off + i;
              k < |Next(w, step).plain| && Next(w, step).plain[k] == Sector(w.data[id], i)
  {
    WriteKnown(w, id, i);
    hide Transformed, OwnBuffers, SlotsCover, DisksOk, PutSector, OpOk;
  }

  /** During the run the sector is written by this request; what the plain disk holds at the end is
      that, or what another write has put there later. */
  ghost predicate HoldsOrLater(w: World, run: seq<Step>, id: nat, i: nat, k: nat, v: seq<byte>)
    requires Inv(w) && Legal(w, run)
    decreases |run|
  {
    && run != []
    && (NextInv(w, run[0]);
        var next := Next(w, run[0]);
        || (run[0] == WriteSector(id, i) && WritesAt(w, run[0], k, v)
            && k < |Final(next, run[1..]).plain|
            && (Final(next, run[1..]).plain[k] == v
                || WrittenDuring(next, run[1..], k, Final(next, run[1..]).plain[k])))
        || HoldsOrLater(next, run[1..], id, i, k, v))
  }

  lemma {:induction false} AppliedReaches(w: World, run: seq<Step>, id: nat, i: nat)
    requires Inv(w) && Legal(w, run) && WritePersists(w, run, id) && i < w.st.ops[id].req.cnt
    requires id in w.applied && i !in w.applied[id] && id in w.data && (i + 1) * SECTOR_SIZE <= |w.data[id]|
    ensures var end := Final(w, run);
            && id in end.st.ops && end.st.ops[id] == w.st.ops[id] && id in end.applied
            && (i in end.applied[id] ==> HoldsOrLater(w, run, id, i, w.st.ops[id].req.off + i, Sector(w.data[id], i)))
    decreases |run|
  {
    hide Inv, Enabled, Next, WritesAt, WrittenDuring;
    if run != [] {
      var step, k := run[0], w.st.ops[id].req.off + i;
      NextInv(w, step);
      var w' := Next(w, step);
      WriteStep(w, step, id, i);
      if step == WriteSector(id, i) {
        WritesThere(w, id, i);
        KeptOrWritten(w', run[1..], k);
        StillApplied(w', run[1..], id);
      } else {
        AppliedReaches(w', run[1..], id, i);
      }
    }
  }

  lemma WritesThere(w: World, id: nat, i: nat)
    requires Inv(w) && Enabled(w, WriteSector(id, i))
    ensures id in w.data && (i + 1) * SECTOR_SIZE <= |w.data[id]|
    ensures WritesAt(w, WriteSector(id, i), w.st.ops[id].req.off + i, Sector(w.data[id], i))
  {
    hide Transformed, OwnBuffers, SlotsCover, DisksOk;
    WriteKnown(w, id, i);
  }

  lemma {:induction false} StillApplied(w: World, run: seq<Step>, id: nat)
    requires Inv(w) && Legal(w, run) && WritePersists(w, run, id)
    ensures var end := Final(w, run);
            id in end.st.ops && end.st.ops[id].BaseWrite? && end.st.ops[id] == w.st.ops[id] && id in end.applied
    decreases |run|
  {
    hide Inv, Enabled, Next;
    AppliedKnown(w, id);
    if run != [] {
      NextInv(w, run[0]);
      SameOp(w, run[0], id);
      StillApplied(Next(w, run[0]), run[1..], id);
    }
  }

  lemma AppliedKnown(w: World, id: nat)
    requires Inv(w) && id in w.st.ops && w.st.ops[id].BaseWrite?
    ensures id in w.applied
  {
    assert OpOk(w, id);
  }

  lemma SameOp(w: World, step: Step, id: nat)
    requires Inv(w) && Enabled(w, step) && id in w.st.ops && id in Next(w, step).st.ops
    ensures Next(w, step).st.ops[id] == w.st.ops[id]
  {
    hide Transformed, OwnBuffers, SlotsCover, DisksOk, PutSector, OpOk;
  }

  /** A write that was just added, and succeeds after any run: each of its sectors holds its data on the
      plain disk, or what a later write has put there. */
  lemma CompletedWriteHolds(w: World, run: seq<Step>, id: nat, i: nat)
    requires Inv(w) && Legal(w, run) && WritePersists(w, run, id) && i < w.st.ops[id].req.cnt
    requires id in w.applied && w.applied[id] == {}
    requires Enabled(Final(w, run), Done(id, true))
    ensures id in w.data && (i + 1) * SECTOR_SIZE <= |w.data[id]|
    ensures HoldsOrLater(w, run, id, i, w.st.ops[id].req.off + i, Sector(w.data[id], i))
  {
    WriteKnown(w, id, i);
    hide Inv, Legal, Final, Next, HoldsOrLater, WritePersists, OpOk;
    AppliedReaches(w, run, id, i);
  }

  // ----- a write, and a read that divides the sectors differently -----

  /** The step does not write sector k. */
  ghost predicate Apart(w: World, step: Step, k: nat)
    requires Inv(w) && Enabled(w, step)
  {
    step.WriteSector? ==> k != w.st.ops[step.id].req.off + step.i
  }

  /** No request writes sector k during the run. */
  ghost predicate NoWriter(w: World, run: seq<Step>, k: nat)
    requires Inv(w) && Legal(w, run)
    decreases |run|
  {
    run != [] ==> Apart(w, run[0], k) && (NextInv(w, run[0]); NoWriter(Next(w, run[0]), run[1..], k))
  }

  /** No other request than id writes sector k during the run. */
  ghost predicate OnlyWriter(w: World, run: seq<Step>, k: nat, id: nat)
    requires Inv(w) && Legal(w, run)
    decreases |run|
  {
    run != [] ==>
      && (Apart(w, run[0], k) || (run[0].WriteSector? && run[0].id == id))
      && (NextInv(w, run[0]); OnlyWriter(Next(w, run[0]), run[1..], k, id))
  }

  lemma ApartKeeps(w: World, step: Step, k: nat)
    requires Inv(w) && Enabled(w, step) && k < |w.plain| && Apart(w, step, k)
    ensures k < |Next(w, step).plain| && Next(w, step).plain[k] == w.plain[k]
  {
    hide Transformed, OwnBuffers, SlotsCover, PutSector;
    if step.WriteSector? {
      assert OpOk(w, step.id);
    }
  }

  lemma {:induction false} NothingWritten(w: World, run: seq<Step>, k: nat)
    requires Inv(w) && Legal(w, run) && k < |w.plain| && NoWriter(w, run, k)
    ensures k < |Final(w, run).plain| && Final(w, run).plain[k] == w.plain[k]
    ensures forall v | HeldAtSomeMoment(w, run, k, v) :: v == w.plain[k]
    decreases |run|
  {
    hide Inv, Enabled, Next, Apart;
    if run != [] {
      NextInv(w, run[0]);
      ApartKeeps(w, run[0], k);
      NothingWritten(Next(w, run[0]), run[1..], k);
    }
  }

  ghost predicate AppliedHeld(w: World, id: nat, i: nat, k: nat, v: seq<byte>) {
    id in w.applied && k < |w.plain| && (i in w.applied[id] ==> w.plain[k] == v)
  }

  lemma {:induction false} OwnWriteStays(w: World, run: seq<Step>, id: nat, i: nat, v: seq<byte>)
    requires Inv(w) && Legal(w, run) && WritePersists(w, run, id) && i < w.st.ops[id].req.cnt
    requires id in w.data && (i + 1) * SECTOR_SIZE <= |w.data[id]| && Sector(w.data[id], i) == v
    requires AppliedHeld(w, id, i, w.st.ops[id].req.off + i, v) && OnlyWriter(w, run, w.st.ops[id].req.off + i, id)
    ensures id in Final(w, run).st.ops && Final(w, run).st.ops[id] == w.st.ops[id]
    ensures AppliedHeld(Final(w, run), id, i, w.st.ops[id].req.off + i, v)
    decreases |run|
  {
    hide Inv, Enabled, Next, Apart;
    if run != [] {
      var step, k := run[0], w.st.ops[id].req.off + i;
      NextInv(w, step);
      WriteStep(w, step, id, i);
      if Apart(w, step, k) {
        ApartKeeps(w, step, k);
      } else {
        SameSector(w, step, id, i);
      }
      OwnWriteStays(Next(w, step), run[1..], id, i, v);
    }
  }

  lemma SameSector(w: World, step: Step, id: nat, i: nat)
    requires Inv(w) && Enabled(w, step) && id in w.st.ops && w.st.ops[id].BaseWrite? && i < w.st.ops[id].req.cnt
    requires step.WriteSector? && step.id == id && !Apart(w, step, w.st.ops[id].req.off + i)
    ensures step == WriteSector(id, i)
  {
    hide Inv;
  }

  lemma ServedApplied(w: World, id: nat, i: nat)
    requires Inv(w) && Enabled(w, Done(id, true)) && w.st.ops[id].BaseWrite? && i < w.st.ops[id].req.cnt
    ensures id in w.applied && i in w.applied[id]
    ensures Next(w, Done(id, true)).plain == w.plain
  {
    hide Inv;
  }

  /** A write that nobody else disturbs at this sector completes: the plain disk holds its data. */
  lemma WriteHeld(w: World, run: seq<Step>, id: nat, i: nat, after: World)
    requires Inv(w) && Legal(w, run) && WritePersists(w, run, id) && i < w.st.ops[id].req.cnt
    requires id in w.applied && w.applied[id] == {} && OnlyWriter(w, run, w.st.ops[id].req.off + i, id)
    requires Enabled(Final(w, run), Done(id, true)) && after == Next(Final(w, run), Done(id, true))
    ensures id in w.data && (i + 1) * SECTOR_SIZE <= |w.data[id]| && w.st.ops[id].req.off + i < |after.plain|
    ensures after.plain[w.st.ops[id].req.off + i] == Sector(w.data[id], i)
  {
    hide Inv, Legal, Final, Next, OnlyWriter, Enabled, Sector;
    WriteKnown(w, id, i);
    OwnWriteStays(w, run, id, i, Sector(w.data[id], i));
    ServedApplied(Final(w, run), id, i);
  }

  /** A read during which nobody writes the sector returns what the plain disk holds there. */
  lemma ReadHeld(w: World, run: seq<Step>, id: nat, j: nat, after: World)
    requires Inv(w) && Legal(w, run) && Persists(w, run, id) && id in w.got && w.got[id] == map[]
    requires j < w.st.ops[id].req.cnt && NoWriter(w, run, w.st.ops[id].req.off + j)
    requires Enabled(Final(w, run), Done(id, true)) && after == Next(Final(w, run), Done(id, true))
    ensures w.st.ops[id].req.off + j < |w.plain|
    ensures var r := w.st.ops[id].req;
            && r.buf in after.st.mem && (j + 1) * SECTOR_SIZE <= |after.st.mem[r.buf]|
            && Sector(after.st.mem[r.buf], j) == w.plain[r.off + j]
  {
    hide Inv, Legal, Final, Next, NoWriter, Enabled, HeldAtSomeMoment, Sector;
    ReadKnown(w, id, j);
    NothingWritten(w, run, w.st.ops[id].req.off + j);
    ReadsLikePlain(w, run, id, j);
  }

  lemma ReadKnown(w: World, id: nat, j: nat)
    requires Inv(w) && id in w.st.ops && w.st.ops[id].BaseRead? && j < w.st.ops[id].req.cnt
    ensures w.st.ops[id].req.off + j < |w.plain|
  {
    assert OpOk(w, id);
  }

  /** A write completes; later a read that covers one of its sectors, however the two divide the
      disk into requests, is added and completes. If no other write touches the sector, the read
      returns the write's data there. */
  lemma WriteThenRead(w: World, run1: seq<Step>, wid: nat, i: nat, w2: World, run2: seq<Step>,
                      w3: World, run3: seq<Step>, rid: nat, j: nat, after: World)
    requires Inv(w) && Legal(w, run1) && WritePersists(w, run1, wid) && i < w.st.ops[wid].req.cnt
    requires wid in w.applied && w.applied[wid] == {} && OnlyWriter(w, run1, w.st.ops[wid].req.off + i, wid)
    requires Enabled(Final(w, run1), Done(wid, true)) && w2 == Next(Final(w, run1), Done(wid, true))
    requires Inv(w2) && Legal(w2, run2) && NoWriter(w2, run2, w.st.ops[wid].req.off + i) && w3 == Final(w2, run2)
    requires Legal(w3, run3) && Persists(w3, run3, rid) && rid in w3.got && w3.got[rid] == map[]
    requires j < w3.st.ops[rid].req.cnt && w3.st.ops[rid].req.off + j == w.st.ops[wid].req.off + i
    requires NoWriter(w3, run3, w3.st.ops[rid].req.off + j)
    requires Enabled(Final(w3, run3), Done(rid, true)) && after == Next(Final(w3, run3), Done(rid, true))
    ensures wid in w.data && (i + 1) * SECTOR_SIZE <= |w.data[wid]|
    ensures var r := w3.st.ops[rid].req;
            && r.buf in after.st.mem && (j + 1) * SECTOR_SIZE <= |after.st.mem[r.buf]|
            && Sector(after.st.mem[r.buf], j) == Sector(w.data[wid], i)
  {
    hide Inv, Legal, Final, Next, NoWriter, OnlyWriter, Enabled, Sector;
    WriteHeld(w, run1, wid, i, w2);
    NothingWritten(w2, run2, w.st.ops[wid].req.off + i);
    ReadHeld(w3, run3, rid, j, after);
  }

  // ----- a difference from a plain disk -----

  /** The channel encrypts in the caller's buffer. A caller that adds a failed write again without
      filling the buffer anew has its data encrypted twice: what the second write carries is the data
      exactly if encryption does not change it. */
  lemma RetryEncryptsTwice(w: World, r: Req, id: nat, again: nat, i: nat)
    requires Inv(w) && Enabled(w, Write(r, id)) && i < r.cnt
    requires var w1 := Next(w, Write(r, id)); Inv(w1) && Enabled(w1, Done(id, false))
    requires var w2 := Next(Next(w, Write(r, id)), Done(id, false)); Inv(w2) && Enabled(w2, Write(r, again))
    ensures (i + 1) * SECTOR_SIZE <= |w.st.mem[r.buf]|
    ensures var w3 := Next(Next(Next(w, Write(r, id)), Done(id, false)), Write(r, again));
            && again in w3.data && (i + 1) * SECTOR_SIZE <= |w3.data[again]|
            && Sector(w3.data[again], i) == w.c.enc(Tweak(r.off + i), Sector(w.st.mem[r.buf], i))
            && (Sector(w3.data[again], i) == Sector(w.st.mem[r.buf], i)
                <==> w.c.enc(Tweak(r.off + i), Sector(w.st.mem[r.buf], i)) == Sector(w.st.mem[r.buf], i))
  {
    hide DisksOk, OwnBuffers, SlotsCover, OpOk, Tweak;
    InRange(w.st.mem[r.buf], r.cnt, i);
    TransformedAt(w.c.enc, w.st.mem[r.buf], r.off, r.cnt, i);
    hide Transformed, Sector;
  }

  /** A caller that fills the buffer anew has its data written. */
  lemma RefilledRetry(w: World, r: Req, id: nat, again: nat)
    requires Inv(w) && Enabled(w, Write(r, id))
    requires var w1 := Next(w, Write(r, id)); Inv(w1) && Enabled(w1, Done(id, false))
    requires var w2 := Next(Next(w, Write(r, id)), Done(id, false));
             Inv(w2) && Enabled(w2, Put(r.buf, w.st.mem[r.buf]))
    requires var w3 := Next(Next(Next(w, Write(r, id)), Done(id, false)), Put(r.buf, w.st.mem[r.buf]));
             Inv(w3) && Enabled(w3, Write(r, again))
    ensures var w3 := Next(Next(Next(w, Write(r, id)), Done(id, false)), Put(r.buf, w.st.mem[r.buf]));
            again in Next(w3, Write(r, again)).data && Next(w3, Write(r, again)).data[again] == w.st.mem[r.buf]
  {
    hide DisksOk, OwnBuffers, SlotsCover, OpOk, Tweak, Transformed, Sector;
  }
}
