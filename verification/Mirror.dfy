/** How a sector of the target relates to the same sector of the plain disk that it stands for. */
module Mirror {
  import opened Disk

  /** The plain history is the end of the target's, up to what is acknowledged; the target is at
      least as durable. If `exact` is false the oldest plain value is not defined yet. */
  ghost predicate Aligned(c: Cell, p: Cell, exact: bool) {
    && |p.hist| <= |c.hist|
    && var o := |c.hist| - |p.hist|;
    && c.acked == o + p.acked
    && c.durable >= o + p.durable
    && (forall i :: 0 <= i < |p.hist| && (exact || i > 0) ==> c.hist[o + i] == p.hist[i])
  }

  /** The plain sector holds its initial contents and was never written. */
  ghost predicate Untouched(p: Cell, given: bool, v: Val) {
    |p.hist| == 1 && (given ==> p.hist[0] == v)
  }

  /** Of one sector: sourced, fetched (durably), published, and given by the source as v. A sector that
      the source does not reach gets its initial contents when its stripe is published. */
  ghost predicate SectorOk(src: bool, fetched: bool, published: bool, given: bool, c: Cell, p: Cell, v: Val) {
    && c.Valid() && p.Valid()
    && (fetched || !src ==> Aligned(c, p, given || published || !src))
    && (src && !published ==> Untouched(p, given, v))
  }

  function Newest(c: Cell): Val {
    if |c.hist| > 0 then c.hist[|c.hist| - 1] else 0
  }

  /** Publication fixes the contents of a fetched sector that the source does not reach. */
  lemma PublishBoth(fetched: bool, published: bool, given: bool, c: Cell, p: Cell, v: Val)
    requires SectorOk(true, fetched, published, given, c, p, v) && fetched
    ensures var p' := if published || given then p else Cell([Newest(c)], 0, 0);
            SectorOk(true, true, true, given, c, p', v) && Evolves(c, p, c, p')
  {
  }

  /** A guest write of v, applied at position i of the target and j of the plain sector. */
  predicate WriteRel(c: Cell, p: Cell, i: nat, j: nat, v: Val) {
    i < |c.hist| && j < |p.hist| && i - j == |c.hist| - |p.hist| && c.hist[i] == p.hist[j] == v
  }

  /** A guest flush that covers position i of the target and j of the plain sector. */
  predicate FlushRel(c: Cell, p: Cell, i: nat, j: nat) {
    i <= c.acked && j <= p.acked && (j == 0 || i - j >= |c.hist| - |p.hist|)
  }

  /** Histories and acknowledgements only grow; their distance is kept, or no write was acknowledged. */
  predicate Evolves(c: Cell, p: Cell, c': Cell, p': Cell) {
    && c.hist <= c'.hist && |p.hist| <= |p'.hist|
    && c.acked <= c'.acked && p.acked <= p'.acked
    && (|c'.hist| - |p'.hist| == |c.hist| - |p.hist| || p'.acked == 0)
  }

  lemma FlushRelKept(c: Cell, p: Cell, c': Cell, p': Cell, i: nat, j: nat)
    requires FlushRel(c, p, i, j) && Evolves(c, p, c', p')
    ensures FlushRel(c', p', i, j)
  {
  }

  lemma WriteRelKept(c: Cell, p: Cell, c': Cell, p': Cell, i: nat, j: nat, v: Val)
    requires WriteRel(c, p, i, j, v) && Evolves(c, p, c', p')
    requires p.hist <= p'.hist && |c'.hist| - |p'.hist| == |c.hist| - |p.hist|
    ensures WriteRel(c', p', i, j, v)
  {
  }

  // ----- the guest's steps, taken by both disks -----

  lemma ApplyBoth(c: Cell, p: Cell, exact: bool, v: Val)
    requires c.Valid() && p.Valid() && Aligned(c, p, exact)
    ensures var c', p' := c.Apply(v), p.Apply(v);
            && c'.Valid() && p'.Valid() && Aligned(c', p', exact) && Evolves(c, p, c', p')
            && WriteRel(c', p', |c.hist|, |p.hist|, v)
            && c'.Current() == p'.Current() == v
  {
  }

  lemma AckBoth(c: Cell, p: Cell, exact: bool, i: nat, j: nat, v: Val)
    requires c.Valid() && p.Valid() && Aligned(c, p, exact) && WriteRel(c, p, i, j, v)
    ensures var c', p' := c.Acknowledge(i), p.Acknowledge(j);
            c'.Valid() && p'.Valid() && Aligned(c', p', exact) && Evolves(c, p, c', p')
  {
  }

  lemma HardenBoth(src: bool, fetched: bool, published: bool, given: bool, c: Cell, p: Cell, v: Val, i: nat, j: nat)
    requires SectorOk(src, fetched, published, given, c, p, v) && FlushRel(c, p, i, j)
    ensures var c', p' := c.Harden(i), p.Harden(j);
            SectorOk(src, fetched, published, given, c', p', v) && Evolves(c, p, c', p')
  {
  }

  /** A read of a sector with defined contents returns what the plain disk holds. */
  lemma ReadsPlain(c: Cell, p: Cell)
    requires c.Valid() && p.Valid() && Aligned(c, p, true)
    ensures c.Current() == p.Current()
  {
  }

  // ----- the fetcher's steps, taken by the target only -----

  lemma FetchApplied(c: Cell, p: Cell, given: bool, v: Val, w: Val)
    requires SectorOk(true, false, false, given, c, p, v)
    ensures SectorOk(true, false, false, given, c.Apply(w), p, v) && Evolves(c, p, c.Apply(w), p)
  {
  }

  lemma FetchAcked(c: Cell, p: Cell, given: bool, v: Val)
    requires SectorOk(true, false, false, given, c, p, v)
    ensures SectorOk(true, false, false, given, c.Acknowledge(|c.hist| - 1), p, v)
    ensures Evolves(c, p, c.Acknowledge(|c.hist| - 1), p)
  {
  }

  /** Flushing some other stripe hardens acknowledged values only. */
  lemma HardenTarget(src: bool, fetched: bool, published: bool, given: bool, c: Cell, p: Cell, v: Val, i: nat)
    requires SectorOk(src, fetched, published, given, c, p, v) && i <= c.acked
    ensures SectorOk(src, fetched, published, given, c.Harden(i), p, v) && Evolves(c, p, c.Harden(i), p)
  {
  }

  /** A flushed copy of the source makes the sector a mirror of the untouched plain sector. */
  lemma FetchHardened(c: Cell, p: Cell, given: bool, v: Val)
    requires SectorOk(true, false, false, given, c, p, v)
    requires c.acked == |c.hist| - 1 && (given ==> c.Current() == v)
    ensures SectorOk(true, true, false, given, c.Harden(c.acked), p, v)
  {
  }

  // ----- a crash -----

  /** The value of the plain disk that a crash of the target at position i corresponds to. */
  function Corresponding(aligned: bool, c: Cell, p: Cell, i: nat): nat {
    if aligned && i >= |c.hist| - |p.hist| then i - (|c.hist| - |p.hist|) else 0
  }

  /** Whatever a crash leaves on the target is what a crash may leave on the plain disk. What the
      metadata says after the crash may be less than was fetched, but not less than was published.
      If the crash publishes a sector that the source does not reach, its contents become defined. */
  lemma CrashBoth(src: bool, fetched: bool, published: bool, given: bool, c: Cell, p: Cell, v: Val, i: nat,
                  loaded: bool)
    requires SectorOk(src, fetched, published, given, c, p, v)
    requires published && src ==> loaded
    requires loaded ==> fetched
    requires c.durable <= i < |c.hist|
    ensures var j := Corresponding(fetched || !src, c, p, i);
            && p.durable <= j < |p.hist|
            && var p' := if src && !published && !given && loaded then Cell([c.hist[i]], 0, 0) else p.Crash(j);
               SectorOk(src, loaded, loaded || !src, given, c.Crash(i), p', v)
  {
  }
}
