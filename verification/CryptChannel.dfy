/** The encrypting channel: writes are encrypted in their buffer before they go to the base channel,
    reads are decrypted in theirs when they complete. */
module CryptChannel {
  import opened Codec
  import opened Xts

  datatype Req = Req(off: nat, cnt: nat, buf: nat)

  datatype BaseOp = BaseRead(req: Req) | BaseWrite(req: Req) | BaseFlush

  /** slots: reads to be decrypted, by id; mem: the shared buffers; ops: what is at the base channel,
      staged: what of it is not submitted. */
  datatype State = State(slots: map<nat, Req>, mem: map<nat, seq<byte>>, ops: map<nat, BaseOp>, staged: set<nat>)

  predicate Fits(mem: map<nat, seq<byte>>, r: Req) {
    r.buf in mem && r.cnt * SECTOR_SIZE <= |mem[r.buf]|
  }

  function AddRead(st: State, r: Req, id: nat): State {
    st.(slots := st.slots[id := r], ops := st.ops[id := BaseRead(r)], staged := st.staged + {id})
  }

  function AddWrite(c: Cipher, st: State, r: Req, id: nat): State
    requires Lawful(c) && Fits(st.mem, r)
  {
    st.(mem := st.mem[r.buf := Transformed(c.enc, st.mem[r.buf], r.off, r.cnt)],
        ops := st.ops[id := BaseWrite(r)], staged := st.staged + {id})
  }

  function AddFlush(st: State, id: nat): State {
    st.(ops := st.ops[id := BaseFlush], staged := st.staged + {id})
  }

  /** A failed submission drops the staged requests from the base channel, and nothing else. */
  function Submit(st: State, ok: bool): State {
    if ok then st.(staged := {}) else st.(ops := st.ops - st.staged, staged := {})
  }

  function Complete(c: Cipher, st: State, id: nat, ok: bool): State
    requires Lawful(c) && (id in st.slots ==> Fits(st.mem, st.slots[id]))
  {
    var done := st.(slots := st.slots - {id}, ops := st.ops - {id}, staged := st.staged - {id});
    if id in st.slots && ok then
      var r := st.slots[id];
      done.(mem := st.mem[r.buf := Transformed(c.dec, st.mem[r.buf], r.off, r.cnt)])
    else done
  }

  // ----- slots and reads correspond, unless a submission fails -----

  /** The slots are exactly the reads at the base channel. */
  predicate SlotsMatch(st: State) {
    && (forall id | id in st.slots :: id in st.ops && st.ops[id] == BaseRead(st.slots[id]))
    && (forall id | id in st.ops && st.ops[id].BaseRead? :: id in st.slots)
  }

  /** Every read has its slot, and no other request has one. Slots may be left of requests that are gone. */
  predicate SlotsCover(st: State) {
    forall id | id in st.ops ::
      if st.ops[id].BaseRead? then id in st.slots && st.slots[id] == st.ops[id].req else id !in st.slots
  }

  predicate ReadStaged(st: State) {
    exists id :: id in st.staged && id in st.ops && st.ops[id].BaseRead?
  }

  /** A submission keeps slots and reads in step exactly if it succeeds or no read was staged. */
  lemma SubmitKeepsSlots(st: State, ok: bool)
    requires SlotsMatch(st)
    ensures SlotsMatch(Submit(st, ok)) <==> ok || !ReadStaged(st)
  {
    if !ok && ReadStaged(st) {
      var id :| id in st.staged && id in st.ops && st.ops[id].BaseRead?;
      assert id in Submit(st, ok).slots && id !in Submit(st, ok).ops;
    }
  }

  /** Even after failed submissions: while no other request has the id of a slot, only completing a read
      changes a buffer, and then its own. */
  lemma CompletionTouches(c: Cipher, st: State, id: nat, ok: bool)
    requires Lawful(c) && SlotsCover(st) && (id in st.slots ==> id in st.ops && Fits(st.mem, st.slots[id]))
    ensures SlotsCover(Complete(c, st, id, ok)) && (SlotsMatch(st) ==> SlotsMatch(Complete(c, st, id, ok)))
    ensures !(id in st.ops && st.ops[id].BaseRead?) ==> Complete(c, st, id, ok).mem == st.mem
    ensures forall b | b in st.mem && !(id in st.ops && st.ops[id].BaseRead? && st.ops[id].req.buf == b) ::
              b in Complete(c, st, id, ok).mem && Complete(c, st, id, ok).mem[b] == st.mem[b]
  {
  }

  /** Decryption leaves the buffer as it is. */
  ghost predicate FixedPoint(c: Cipher, buf: seq<byte>, r: Req)
    requires r.cnt * SECTOR_SIZE <= |buf|
  {
    forall i: nat | i < r.cnt ::
      (i + 1) * SECTOR_SIZE <= |buf| && c.dec(Tweak(r.off + i), Sector(buf, i)) == Sector(buf, i)
  }

  /** What a caller sees of the completion of a write or flush: its memory is left alone exactly if no
      slot was left behind under the id, or the request failed, or decryption happens to change nothing. */
  lemma CompletionVisible(c: Cipher, st: State, id: nat, ok: bool)
    requires Lawful(c) && id in st.ops && !st.ops[id].BaseRead? && (id in st.slots ==> Fits(st.mem, st.slots[id]))
    ensures Complete(c, st, id, ok).mem == st.mem
            <==> id !in st.slots || !ok || FixedPoint(c, st.mem[st.slots[id].buf], st.slots[id])
  {
    if id in st.slots && ok {
      var r := st.slots[id];
      var buf := st.mem[r.buf];
      UnchangedIffFixed(c, buf, r);
      assert Complete(c, st, id, ok).mem == st.mem <==> Transformed(c.dec, buf, r.off, r.cnt) == buf;
    }
  }

  lemma UnchangedIffFixed(c: Cipher, buf: seq<byte>, r: Req)
    requires Lawful(c) && r.cnt * SECTOR_SIZE <= |buf|
    ensures Transformed(c.dec, buf, r.off, r.cnt) == buf <==> FixedPoint(c, buf, r)
  {
    hide Transformed, Tweak, Sector;
    if FixedPoint(c, buf, r) {
      FixedUnchanged(c, buf, r, r.cnt);
    }
    if Transformed(c.dec, buf, r.off, r.cnt) == buf {
      forall i: nat | i < r.cnt
        ensures (i + 1) * SECTOR_SIZE <= |buf| && c.dec(Tweak(r.off + i), Sector(buf, i)) == Sector(buf, i)
      {
        UnchangedAt(c, buf, r, i);
      }
    }
  }

  lemma UnchangedAt(c: Cipher, buf: seq<byte>, r: Req, i: nat)
    requires Lawful(c) && r.cnt * SECTOR_SIZE <= |buf| && Transformed(c.dec, buf, r.off, r.cnt) == buf && i < r.cnt
    ensures (i + 1) * SECTOR_SIZE <= |buf| && c.dec(Tweak(r.off + i), Sector(buf, i)) == Sector(buf, i)
  {
    hide Transformed, Tweak, Sector;
    assert (i + 1) * SECTOR_SIZE <= r.cnt * SECTOR_SIZE;
    TransformedAt(c.dec, buf, r.off, r.cnt, i);
  }

  lemma {:induction false} FixedUnchanged(c: Cipher, buf: seq<byte>, r: Req, n: nat)
    requires Lawful(c) && r.cnt * SECTOR_SIZE <= |buf| && FixedPoint(c, buf, r) && n <= r.cnt
    ensures n * SECTOR_SIZE <= |buf| && Transformed(c.dec, buf, r.off, n) == buf
    decreases n
  {
    assert n * SECTOR_SIZE <= r.cnt * SECTOR_SIZE;
    if n > 0 {
      FixedUnchanged(c, buf, r, n - 1);
      assert PutSector(buf, n - 1, Sector(buf, n - 1)) == buf;
    }
  }

  /** After a failed submission of a read, its id is free for a write; completing that write
      decrypts the buffer of the read. */
  lemma StaleSlot(c: Cipher, readBuf: seq<byte>, writeBuf: seq<byte>)
    requires Lawful(c) && |readBuf| == |writeBuf| == SECTOR_SIZE
    ensures var st0 := State(map[], map[0 := readBuf, 1 := writeBuf], map[], {});
            var st1 := Submit(AddRead(st0, Req(5, 1, 0), 7), false);
            && Fits(st1.mem, Req(9, 1, 1))
            && var st2 := Submit(AddWrite(c, st1, Req(9, 1, 1), 7), true);
            && 7 in st2.ops && st2.ops[7].BaseWrite?
            && (7 in st2.slots ==> Fits(st2.mem, st2.slots[7]))
            && 0 in Complete(c, st2, 7, true).mem
            && Complete(c, st2, 7, true).mem[0] == c.dec(Tweak(5), readBuf)
  {
    assert Transformed(c.dec, readBuf, 5, 0) == readBuf;
    assert Sector(readBuf, 0) == readBuf;
    assert PutSector(readBuf, 0, c.dec(Tweak(5), readBuf)) == c.dec(Tweak(5), readBuf);
    assert Transformed(c.dec, readBuf, 5, 1) == c.dec(Tweak(5), readBuf);
  }

  /** A batch of completions, in order; every buffer that is to be decrypted is large enough. */
  ghost predicate BatchFits(c: Cipher, st: State, done: seq<(nat, bool)>)
    requires Lawful(c)
    decreases |done|
  {
    done != [] ==>
      && (done[0].0 in st.slots ==> Fits(st.mem, st.slots[done[0].0]))
      && BatchFits(c, Complete(c, st, done[0].0, done[0].1), done[1..])
  }

  ghost function CompleteAll(c: Cipher, st: State, done: seq<(nat, bool)>): State
    requires Lawful(c) && BatchFits(c, st, done)
    decreases |done|
  {
    if done == [] then st else CompleteAll(c, Complete(c, st, done[0].0, done[0].1), done[1..])
  }
}
