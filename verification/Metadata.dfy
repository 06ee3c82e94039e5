/** Stripe headers, their layout in metadata sectors, and the state shared by all threads. */
module Metadata {

  const STRIPE_HEADERS_PER_SECTOR: nat := 508

  datatype Bit = FetchedBit | WrittenBit

  datatype Header = Header(fetched: bool, written: bool, hasSource: bool) {
    predicate Has(b: Bit) {
      match b case FetchedBit => fetched case WrittenBit => written
    }
    function Set(b: Bit): Header {
      match b case FetchedBit => this.(fetched := true) case WrittenBit => this.(written := true)
    }
    function Clear(b: Bit): Header {
      match b case FetchedBit => this.(fetched := false) case WrittenBit => this.(written := false)
    }
  }

  function GroupOf(stripe: nat): nat {
    stripe / STRIPE_HEADERS_PER_SECTOR
  }

  function Slot(stripe: nat): nat {
    stripe % STRIPE_HEADERS_PER_SECTOR
  }

  /** Sector 0 holds the superblock; group g of stripe headers is sector g + 1. */
  function SectorOf(stripe: nat): nat {
    GroupOf(stripe) + 1
  }

  function GroupCount(stripes: nat): nat {
    (stripes + STRIPE_HEADERS_PER_SECTOR - 1) / STRIPE_HEADERS_PER_SECTOR
  }

  /** What the sector of group g holds when the headers are written out. */
  function Image(headers: seq<Header>, g: nat): seq<Header>
    requires g < GroupCount(|headers|)
  {
    var start := g * STRIPE_HEADERS_PER_SECTOR;
    var end := start + STRIPE_HEADERS_PER_SECTOR;
    headers[start..if end < |headers| then end else |headers|]
  }

  lemma ImageAt(headers: seq<Header>, stripe: nat)
    requires stripe < |headers|
    ensures GroupOf(stripe) < GroupCount(|headers|)
    ensures Slot(stripe) < |Image(headers, GroupOf(stripe))|
    ensures Image(headers, GroupOf(stripe))[Slot(stripe)] == headers[stripe]
  {
    assert stripe == GroupOf(stripe) * STRIPE_HEADERS_PER_SECTOR + Slot(stripe);
  }

  /** Changing one header changes one slot of one image. */
  lemma ImageUpdate(headers: seq<Header>, stripe: nat, h: Header, g: nat)
    requires stripe < |headers| && g < GroupCount(|headers|)
    ensures g != GroupOf(stripe) ==> Image(headers[stripe := h], g) == Image(headers, g)
    ensures g == GroupOf(stripe) ==> Slot(stripe) < |Image(headers, g)|
                                     && Image(headers[stripe := h], g) == Image(headers, g)[Slot(stripe) := h]
  {
    ImageAt(headers, stripe);
    assert stripe == GroupOf(stripe) * STRIPE_HEADERS_PER_SECTOR + Slot(stripe);
  }

  /** The headers read back from one image per group. */
  function Load(images: seq<seq<Header>>, stripes: nat): (headers: seq<Header>)
    requires |images| == GroupCount(stripes)
    requires forall s: nat | s < stripes :: GroupOf(s) < |images| && Slot(s) < |images[GroupOf(s)]|
  {
    seq(stripes, s requires 0 <= s < stripes => images[GroupOf(s)][Slot(s)])
  }

  datatype FetchState = NotFetched | Fetched | Failed | NoSource

  function Count(fetch: seq<FetchState>, f: FetchState): nat {
    if fetch == [] then 0 else Count(fetch[..|fetch| - 1], f) + (if fetch[|fetch| - 1] == f then 1 else 0)
  }

  lemma {:induction false} CountUpdate(fetch: seq<FetchState>, i: nat, v: FetchState, f: FetchState)
    requires i < |fetch|
    ensures Count(fetch[i := v], f) == Count(fetch, f) - (if fetch[i] == f then 1 else 0) + (if v == f then 1 else 0)
  {
    var n := |fetch| - 1;
    if i == n {
      assert fetch[i := v][..n] == fetch[..n];
    } else {
      assert fetch[i := v][..n] == fetch[..n][i := v];
      CountUpdate(fetch[..n], i, v, f);
    }
  }

  /** If as many stripes are fetched as have a source, then none with a source is left. */
  lemma {:induction false} AllFetched(fetch: seq<FetchState>, i: nat)
    requires i < |fetch|
    requires Count(fetch, Fetched) == |fetch| - Count(fetch, NoSource)
    ensures fetch[i] == Fetched || fetch[i] == NoSource
  {
    var n := |fetch| - 1;
    CountsBounded(fetch[..n]);
    if i < n {
      AllFetched(fetch[..n], i);
    }
  }

  lemma {:induction false} CountsBounded(fetch: seq<FetchState>)
    ensures Count(fetch, Fetched) + Count(fetch, NoSource) <= |fetch|
  {
    if fetch != [] {
      CountsBounded(fetch[..|fetch| - 1]);
    }
  }

  datatype Shared = Shared(fetch: seq<FetchState>, written: seq<bool>, fetchedCount: int, sourceCount: int) {

    predicate FetchedIfNeeded(stripe: nat)
      requires stripe < |fetch|
    {
      fetch[stripe] == Fetched || fetch[stripe] == NoSource
    }

    predicate Shows(stripe: nat, b: Bit)
      requires stripe < |fetch| == |written|
    {
      match b case FetchedBit => fetch[stripe] == Fetched case WrittenBit => written[stripe]
    }

    function SetHeader(stripe: nat, h: Header): Shared
      requires stripe < |fetch| == |written|
    {
      var s1 := if !h.fetched then this
                else this.(fetch := fetch[stripe := Fetched],
                           fetchedCount := fetchedCount + if FetchedIfNeeded(stripe) then 0 else 1);
      if h.written then s1.(written := written[stripe := true]) else s1
    }

    function SetFailed(stripe: nat): Shared
      requires stripe < |fetch|
    {
      this.(fetch := fetch[stripe := Failed])
    }

    ghost predicate Counted() {
      && fetchedCount == Count(fetch, Fetched)
      && sourceCount == |fetch| - Count(fetch, NoSource)
    }
  }

  function InitialFetchState(h: Header): FetchState {
    if !h.hasSource then NoSource else if h.fetched then Fetched else NotFetched
  }

  function CountHeaders(headers: seq<Header>, fetched: bool): nat {
    if headers == [] then 0
    else
      var last := headers[|headers| - 1];
      CountHeaders(headers[..|headers| - 1], fetched)
      + if (fetched && last.fetched) || (!fetched && last.hasSource) then 1 else 0
  }

  function NewShared(headers: seq<Header>): Shared {
    Shared(seq(|headers|, i requires 0 <= i < |headers| => InitialFetchState(headers[i])),
           seq(|headers|, i requires 0 <= i < |headers| => headers[i].written),
           CountHeaders(headers, true), CountHeaders(headers, false))
  }

  /** Both counters of a freshly loaded state agree with the table of fetch states exactly if no
      stripe without a source is marked as fetched. */
  lemma {:induction false} NewSharedCounted(headers: seq<Header>)
    ensures NewShared(headers).fetchedCount >= Count(NewShared(headers).fetch, Fetched)
    ensures NewShared(headers).sourceCount == |headers| - Count(NewShared(headers).fetch, NoSource)
    ensures NewShared(headers).Counted() <==> forall h | h in headers :: h.fetched ==> h.hasSource
  {
    if headers != [] {
      var n := |headers| - 1;
      NewSharedCounted(headers[..n]);
      assert NewShared(headers).fetch[..n] == NewShared(headers[..n]).fetch;
      assert headers == headers[..n] + [headers[n]];
    }
  }

  lemma SetHeaderCounted(sh: Shared, stripe: nat, h: Header)
    requires stripe < |sh.fetch| == |sh.written| && sh.Counted()
    requires h.fetched ==> sh.fetch[stripe] != NoSource
    ensures sh.SetHeader(stripe, h).Counted()
  {
    CountUpdate(sh.fetch, stripe, Fetched, Fetched);
    CountUpdate(sh.fetch, stripe, Fetched, NoSource);
  }

  lemma SetFailedCounted(sh: Shared, stripe: nat)
    requires stripe < |sh.fetch| && sh.Counted()
    requires !sh.FetchedIfNeeded(stripe)
    ensures sh.SetFailed(stripe).Counted()
  {
    CountUpdate(sh.fetch, stripe, Failed, Fetched);
    CountUpdate(sh.fetch, stripe, Failed, NoSource);
  }

  /** The shared state only ever advances, except that an unfetched stripe may be marked failed. */
  ghost predicate Advances(a: Shared, b: Shared) {
    && |a.fetch| == |b.fetch| && |a.written| == |b.written|
    && (forall s: nat | s < |a.fetch| :: a.FetchedIfNeeded(s) ==> b.FetchedIfNeeded(s))
    && (forall s: nat | s < |a.written| :: a.written[s] ==> b.written[s])
  }

  class SharedMetadataState {
    var fetch: seq<FetchState>
    var written: seq<bool>
    var fetchedCount: int
    var sourceCount: int

    function View(): Shared
      reads this
    {
      Shared(fetch, written, fetchedCount, sourceCount)
    }

    constructor (headers: seq<Header>)
      ensures View() == NewShared(headers)
    {
      var f: seq<FetchState>, w: seq<bool>, fetched: int, sourced: int := [], [], 0, 0;
      for i := 0 to |headers|
        invariant |f| == |w| == i
        invariant forall j :: 0 <= j < i ==> f[j] == InitialFetchState(headers[j]) && w[j] == headers[j].written
        invariant fetched == CountHeaders(headers[..i], true) && sourced == CountHeaders(headers[..i], false)
      {
        var h := headers[i];
        var state := NotFetched;
        assert headers[..i + 1][..i] == headers[..i];
        if h.fetched {
          state := Fetched;
          fetched := fetched + 1;
        }
        if h.hasSource {
          sourced := sourced + 1;
        } else {
          state := NoSource;
        }
        f, w := f + [state], w + [h.written];
      }
      assert headers[..|headers|] == headers;
      fetch, written, fetchedCount, sourceCount := f, w, fetched, sourced;
    }

    method SetStripeHeader(stripe: nat, h: Header)
      requires stripe < |fetch| == |written|
      modifies this
      ensures View() == old(View()).SetHeader(stripe, h)
    {
      if h.fetched {
        var prev := fetch[stripe];
        fetch := fetch[stripe := Fetched];
        if prev != Fetched && prev != NoSource {
          fetchedCount := fetchedCount + 1;
        }
      }
      if h.written {
        written := written[stripe := true];
      }
    }

    method SetStripeFailed(stripe: nat)
      requires stripe < |fetch|
      modifies this
      ensures View() == old(View()).SetFailed(stripe)
    {
      fetch := fetch[stripe := Failed];
    }
  }
}
