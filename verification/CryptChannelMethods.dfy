/** The encrypting channel as an object. Each method has exactly the effect of its specification. */
module CryptChannelMethods {
  import opened Codec
  import opened Xts
  import opened CryptChannel

  /** The buffers that guest, channel and device share; no two of them are the same memory. */
  class Memory {
    var buffers: map<nat, array<byte>>

    ghost function Arrays(): set<array<byte>>
      reads this
    {
      buffers.Values
    }

    ghost predicate Apart()
      reads this
    {
      forall a, b | a in buffers && b in buffers && a != b :: buffers[a] != buffers[b]
    }

    ghost function Data(): map<nat, seq<byte>>
      reads this, Arrays()
    {
      map b | b in buffers :: buffers[b][..]
    }

    constructor ()
      ensures buffers == map[] && Apart()
    {
      buffers := map[];
    }

    /** A new buffer, filled with these bytes. */
    method Put(b: nat, bytes: seq<byte>)
      requires Apart()
      modifies this
      ensures b in buffers && fresh(buffers[b]) && Apart() && Data() == old(Data())[b := bytes]
    {
      var a := new byte[|bytes|](i requires 0 <= i < |bytes| => bytes[i]);
      assert a[..] == bytes;
      buffers := buffers[b := a];
      assert forall x | x in buffers && x != b :: buffers[x] in old(buffers).Values;
    }

    /** The sectors of one buffer are transformed in place. */
    method EncryptIn(c: Cipher, r: Req)
      requires Lawful(c) && Apart() && Fits(Data(), r)
      modifies Arrays()
      ensures Data() == old(Data())[r.buf := Transformed(c.enc, old(Data()[r.buf]), r.off, r.cnt)]
    {
      hide Transformed;
      var buf := buffers[r.buf];
      assert buf in Arrays();
      Encrypt(c, buf, r.off, r.cnt);
    }

    method DecryptIn(c: Cipher, r: Req)
      requires Lawful(c) && Apart() && Fits(Data(), r)
      modifies Arrays()
      ensures Data() == old(Data())[r.buf := Transformed(c.dec, old(Data()[r.buf]), r.off, r.cnt)]
    {
      hide Transformed;
      var buf := buffers[r.buf];
      assert buf in Arrays();
      Decrypt(c, buf, r.off, r.cnt);
    }
  }

  class BaseChannel {
    var ops: map<nat, BaseOp>
    var staged: set<nat>

    constructor ()
      ensures ops == map[] && staged == {}
    {
      ops, staged := map[], {};
    }

    method Add(op: BaseOp, id: nat)
      modifies this
      ensures ops == old(ops)[id := op] && staged == old(staged) + {id}
    {
      ops, staged := ops[id := op], staged + {id};
    }

    method Submit(ok: bool)
      modifies this
      ensures ops == (if ok then old(ops) else old(ops) - old(staged)) && staged == {}
    {
      if !ok {
        ops := ops - staged;
      }
      staged := {};
    }

    method Finish(id: nat)
      modifies this
      ensures ops == old(ops) - {id} && staged == old(staged) - {id}
    {
      ops, staged := ops - {id}, staged - {id};
    }
  }

  class CryptIoChannel {
    const base: BaseChannel
    const memory: Memory
    const cipher: Cipher
    var readRequests: seq<Option<Req>>

    ghost function View(): State
      reads this, base, memory, memory.Arrays()
    {
      State(map id: nat | id < |readRequests| && readRequests[id].Some? :: readRequests[id].value,
            memory.Data(), base.ops, base.staged)
    }

    constructor (base: BaseChannel, memory: Memory, cipher: Cipher)
      requires base.ops == map[] && base.staged == {}
      ensures this.base == base && this.memory == memory && this.cipher == cipher
      ensures View() == State(map[], memory.Data(), map[], {})
    {
      this.base, this.memory, this.cipher, readRequests := base, memory, cipher, [];
    }

    method AddRead(r: Req, id: nat)
      modifies this, base
      ensures View() == CryptChannel.AddRead(old(View()), r, id)
    {
      if id >= |readRequests| {
        readRequests := readRequests + seq(id + 1 - |readRequests|, _ => None);
      }
      readRequests := readRequests[id := Some(r)];
      base.Add(BaseRead(r), id);
    }

    /** Every sector of the request is encrypted where it is, under its own tweak; all other bytes of
        the buffer and all other buffers stay. */
    method AddWrite(r: Req, id: nat)
      requires Lawful(cipher) && memory.Apart() && Fits(memory.Data(), r)
      modifies base, memory.Arrays()
      ensures View() == CryptChannel.AddWrite(cipher, old(View()), r, id)
      ensures |memory.Data()[r.buf]| == |old(memory.Data()[r.buf])|
      ensures forall i: nat | (i + 1) * SECTOR_SIZE <= |memory.Data()[r.buf]| ::
                Sector(memory.Data()[r.buf], i)
                == var was := Sector(old(memory.Data()[r.buf]), i);
                   if i < r.cnt then cipher.enc(Tweak(r.off + i), was) else was
    {
      hide Transformed, Sector, Tweak;
      ghost var was := memory.Data()[r.buf];
      forall i: nat | (i + 1) * SECTOR_SIZE <= |was|
        ensures Sector(Transformed(cipher.enc, was, r.off, r.cnt), i)
                == if i < r.cnt then cipher.enc(Tweak(r.off + i), Sector(was, i)) else Sector(was, i)
      {
        TransformedAt(cipher.enc, was, r.off, r.cnt, i);
      }
      memory.EncryptIn(cipher, r);
      base.Add(BaseWrite(r), id);
    }

    method AddFlush(id: nat)
      modifies base
      ensures View() == CryptChannel.AddFlush(old(View()), id)
    {
      base.Add(BaseFlush, id);
    }

    method Submit(ok: bool)
      modifies base
      ensures View() == CryptChannel.Submit(old(View()), ok)
    {
      base.Submit(ok);
    }

    /** One completion from the base channel. */
    method FinishOne(id: nat, ok: bool)
      requires Lawful(cipher) && memory.Apart() && (id in View().slots ==> Fits(View().mem, View().slots[id]))
      modifies this, base, memory.Arrays()
      ensures View() == Complete(cipher, old(View()), id, ok)
    {
      base.Finish(id);
      if id < |readRequests| && readRequests[id].Some? {
        var r := readRequests[id].value;
        assert id in View().slots;
        readRequests := readRequests[id := None];
        if ok {
          memory.DecryptIn(cipher, r);
        }
      }
    }

    method Poll(done: seq<(nat, bool)>) returns (results: seq<(nat, bool)>)
      requires Lawful(cipher) && memory.Apart() && BatchFits(cipher, View(), done)
      modifies this, base, memory.Arrays()
      ensures View() == CompleteAll(cipher, old(View()), done) && results == done
    {
      results := [];
      for i := 0 to |done|
        invariant results == done[..i]
        invariant BatchFits(cipher, View(), done[i..])
        invariant CompleteAll(cipher, old(View()), done) == CompleteAll(cipher, View(), done[i..])
      {
        assert done[i..][1..] == done[i + 1..];
        FinishOne(done[i].0, done[i].1);
        results := results + [done[i]];
      }
    }
  }
}
