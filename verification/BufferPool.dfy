/** The pool of aligned I/O buffers: a queue of free indices and one in-use flag per buffer. */
module BufferPool {

  datatype Pool = Pool(available: seq<nat>, inUse: seq<bool>) {

    /** The free queue lists exactly the buffers not in use, each once. */
    ghost predicate Valid() {
      && (forall i :: 0 <= i < |available| ==> available[i] < |inUse| && !inUse[available[i]])
      && (forall i, j :: 0 <= i < j < |available| ==> available[i] != available[j])
      && (forall b :: 0 <= b < |inUse| && !inUse[b] ==> b in available)
    }

    predicate Holds(b: nat) {
      b < |inUse| && inUse[b]
    }

    /** The buffer at the head of the free queue becomes used. */
    function Take(): (p: Pool)
      requires available != [] && available[0] < |inUse|
    {
      Pool(available[1..], inUse[available[0] := true])
    }

    /** A used buffer goes to the tail of the free queue. */
    function Give(b: nat): (p: Pool)
      requires Holds(b)
    {
      Pool(available + [b], inUse[b := false])
    }
  }

  function NewPool(count: nat): (p: Pool)
    ensures p.Valid() && |p.inUse| == count && p.available == seq(count, i => i)
    ensures forall b: nat :: !p.Holds(b)
  {
    var p := Pool(seq(count, i => i), seq(count, i => false));
    assert forall b | 0 <= b < count :: b in p.available by {
      forall b | 0 <= b < count ensures b in p.available {
        assert p.available[b] == b;
      }
    }
    p
  }

  lemma TakeKeepsValid(p: Pool)
    requires p.Valid() && p.available != []
    ensures p.Take().Valid()
    ensures forall b: nat :: p.Take().Holds(b) <==> p.Holds(b) || b == p.available[0]
    ensures !p.Holds(p.available[0])
  {
    var q := p.Take();
    forall b: nat | b < |q.inUse| && !q.inUse[b] ensures b in q.available {
      assert b in p.available && b != p.available[0];
      assert p.available == [p.available[0]] + q.available;
    }
  }

  lemma GiveKeepsValid(p: Pool, b: nat)
    requires p.Valid() && p.Holds(b)
    ensures p.Give(b).Valid()
    ensures forall c: nat :: p.Give(b).Holds(c) <==> p.Holds(c) && c != b
  {
    var q := p.Give(b);
    forall i, j | 0 <= i < j < |q.available| ensures q.available[i] != q.available[j] {
      if j == |p.available| {
        assert q.available[i] == p.available[i] && !p.inUse[p.available[i]];
      }
    }
    forall c: nat | c < |q.inUse| && !q.inUse[c] ensures c in q.available {
      if c == b {
        assert q.available[|p.available|] == b;
      } else {
        assert c in p.available;
      }
    }
  }

  /** Buffers handed out to stripes: no two stripes share a buffer, and the buffers in use are exactly the
      allocated ones. */
  ghost predicate BuffersValid(buffers: map<nat, nat>, pool: Pool) {
    && (forall s | s in buffers :: pool.Holds(buffers[s]))
    && (forall s, t :: s in buffers && t in buffers && buffers[s] == buffers[t] ==> s == t)
    && (forall b: nat | pool.Holds(b) :: b in buffers.Values)
  }

  lemma GiveBuffer(buffers: map<nat, nat>, pool: Pool, s: nat)
    requires pool.Valid() && BuffersValid(buffers, pool) && s in buffers
    ensures pool.Give(buffers[s]).Valid() && BuffersValid(buffers - {s}, pool.Give(buffers[s]))
  {
    GiveKeepsValid(pool, buffers[s]);
    forall b: nat | pool.Give(buffers[s]).Holds(b) ensures b in (buffers - {s}).Values {
      assert b in buffers.Values;
      var t :| t in buffers && buffers[t] == b;
      assert t in buffers - {s};
    }
  }

  lemma TakeBuffer(buffers: map<nat, nat>, pool: Pool, s: nat)
    requires pool.Valid() && BuffersValid(buffers, pool) && s !in buffers && pool.available != []
    ensures pool.Take().Valid() && BuffersValid(buffers[s := pool.available[0]], pool.Take())
  {
    TakeKeepsValid(pool);
    var next := buffers[s := pool.available[0]];
    forall b: nat | pool.Take().Holds(b) ensures b in next.Values {
      if b == pool.available[0] {
        assert next[s] == b;
      } else {
        assert b in buffers.Values;
        var t :| t in buffers && buffers[t] == b;
        assert next[t] == b;
      }
    }
  }

  class AlignedBufferPool {
    var available: seq<nat>
    var inUse: seq<bool>

    function View(): Pool
      reads this
    {
      Pool(available, inUse)
    }

    constructor (count: nat)
      ensures View() == NewPool(count)
    {
      available := seq(count, i => i);
      inUse := seq(count, i => false);
    }

    method GetBuffer() returns (found: bool, index: nat)
      requires View().Valid()
      modifies this
      ensures View().Valid()
      ensures found <==> old(available) != []
      ensures found ==> index == old(available[0]) && View() == old(View()).Take()
      ensures !found ==> View() == old(View())
    {
      if available == [] {
        return false, 0;
      }
      TakeKeepsValid(View());
      found, index := true, available[0];
      inUse := inUse[index := true];
      available := available[1..];
    }

    /** The three assertions of the source are the precondition: a foreign or idle buffer panics. */
    method ReturnBuffer(index: nat)
      requires View().Valid() && View().Holds(index)
      modifies this
      ensures View().Valid() && View() == old(View()).Give(index)
    {
      GiveKeepsValid(View(), index);
      inUse := inUse[index := false];
      available := available + [index];
    }
  }
}
