/** Block devices: sectors with a write cache, and channels that hold requests on their way. */
module Disk {

  /** The contents of one sector. */
  type Val = int

  /** A sector: every value applied to it, the newest value of an acknowledged write, and the newest
      value that a flush has made durable. A crash leaves any value from index durable on. */
  datatype Cell = Cell(hist: seq<Val>, acked: nat, durable: nat) {
    predicate Valid() {
      durable <= acked < |hist|
    }
    function Current(): Val
      requires Valid()
    {
      hist[|hist| - 1]
    }
    function Apply(v: Val): Cell {
      this.(hist := hist + [v])
    }
    function Acknowledge(i: nat): Cell {
      this.(acked := if i > acked then i else acked)
    }
    function Harden(i: nat): Cell {
      this.(durable := if i > durable then i else durable)
    }
    /** What is left if the crash keeps the value at position i. */
    function Crash(i: nat): Cell {
      if i < |hist| then Cell([hist[i]], 0, 0) else this
    }
  }

  /** A request at a device, with its progress. A read has got the values of some sectors. A write
      was applied to some sectors, at these positions of their histories, and at the positions
      `reference` of the reference disk that runs alongside. A flush that has begun covers the
      writes acknowledged before it began. */
  datatype DevOp =
    | ReadOp(off: nat, cnt: nat, got: map<nat, Val>)
    | WriteOp(off: nat, data: seq<Val>, at: map<nat, nat>, reference: map<nat, nat>)
    | FlushOp(begun: bool, covers: seq<nat>, referenceCovers: seq<nat>)
  {
    predicate Touches(k: nat) {
      match this
      case ReadOp(off, cnt, _) => off <= k < off + cnt
      case WriteOp(off, data, _, _) => off <= k < off + |data|
      case FlushOp(_, _, _) => false
    }
  }

  /** A channel: live requests, and those among them that are not submitted yet. */
  datatype Chan = Chan(live: map<nat, DevOp>, staged: set<nat>) {
    ghost predicate Valid() {
      staged <= live.Keys
    }
    function Add(id: nat, op: DevOp): Chan {
      Chan(live[id := op], staged + {id})
    }
    /** A failed submission drops what was staged. */
    function Submit(ok: bool): Chan {
      if ok then Chan(live, {}) else Chan(live - staged, {})
    }
    function Remove(ids: set<nat>): Chan {
      Chan(live - ids, staged - ids)
    }
  }

  /** A later sector lies in no earlier stripe. */
  lemma RangeOrdered(a: nat, b: nat, s: nat)
    requires a <= b && s > 0
    ensures a / s <= b / s
  {
    if b / s < a / s {
      Scaled(b / s + 1, a / s, s);
      assert false;
    }
  }

  /** A batch of completions: each request completes once. */
  predicate DistinctIds(cs: seq<(nat, bool)>) {
    forall i, j :: 0 <= i < j < |cs| ==> cs[i].0 != cs[j].0
  }

  lemma Scaled(x: nat, y: nat, s: nat)
    requires x <= y
    ensures x * s <= y * s
  {
    assert y * s == x * s + (y - x) * s;
  }

  class IoChannel {
    var live: map<nat, DevOp>
    var staged: set<nat>

    function View(): Chan
      reads this
    {
      Chan(live, staged)
    }

    constructor ()
      ensures View() == Chan(map[], {})
    {
      live, staged := map[], {};
    }

    method AddRead(off: nat, cnt: nat, id: nat)
      modifies this
      ensures View() == old(View()).Add(id, ReadOp(off, cnt, map[]))
    {
      live, staged := live[id := ReadOp(off, cnt, map[])], staged + {id};
    }

    method AddWrite(off: nat, data: seq<Val>, id: nat)
      modifies this
      ensures View() == old(View()).Add(id, WriteOp(off, data, map[], map[]))
    {
      live, staged := live[id := WriteOp(off, data, map[], map[])], staged + {id};
    }

    method AddFlush(id: nat)
      modifies this
      ensures View() == old(View()).Add(id, FlushOp(false, [], []))
    {
      live, staged := live[id := FlushOp(false, [], [])], staged + {id};
    }

    method Submit(ok: bool)
      modifies this
      ensures View() == old(View()).Submit(ok)
    {
      if !ok {
        live := live - staged;
      }
      staged := {};
    }

    /** The completions that the device delivers now. */
    method Poll(done: seq<(nat, bool)>) returns (r: seq<(nat, bool)>)
      modifies this
      ensures r == done && View() == old(View()).Remove(set c | c in done :: c.0)
    {
      var ids := set c | c in done :: c.0;
      live, staged := live - ids, staged - ids;
      r := done;
    }
  }
}
