/** Whole runs of the flusher: crash safety, reloading, and the failure-free run as a fold. */
module FlusherRuns {
  import opened Metadata
  import opened Flusher
  import opened FlusherCrash

  ghost predicate Legal(w: World, es: seq<Event>)
    requires Inv(w)
    decreases |es|
  {
    es != [] ==> Enabled(w, es[0]) && (NextInv(w, es[0]); Legal(Next(w, es[0]), es[1..]))
  }

  /** Every reachable world satisfies the invariant. */
  ghost function Final(w: World, es: seq<Event>): (end: World)
    requires Inv(w) && Legal(w, es)
    ensures Inv(end) && |end.fl.headers| == |w.fl.headers|
    decreases |es|
  {
    if es == [] then w else NextInv(w, es[0]); Final(Next(w, es[0]), es[1..])
  }

  /** One image per sector, any of those the crash may leave. */
  ghost predicate CrashChoice(disk: MetaDisk, picks: seq<seq<Header>>) {
    |picks| == |disk.images| && forall g: nat | g < |picks| :: picks[g] in disk.images[g]
  }

  lemma LoadDefined(w: World, picks: seq<seq<Header>>)
    requires Inv(w) && CrashChoice(w.disk, picks)
    ensures |picks| == GroupCount(|w.fl.headers|)
    ensures forall s: nat | s < |w.fl.headers| :: GroupOf(s) < |picks| && Slot(s) < |picks[GroupOf(s)]|
  {
    forall s: nat | s < |w.fl.headers| ensures GroupOf(s) < |picks| && Slot(s) < |picks[GroupOf(s)]| {
      ImageAt(w.fl.headers, s);
      assert WellShaped(picks[GroupOf(s)], w.fl.headers, GroupOf(s));
    }
  }

  ghost function Reloaded(w: World, picks: seq<seq<Header>>): seq<Header>
    requires Inv(w) && CrashChoice(w.disk, picks)
  {
    LoadDefined(w, picks);
    Load(picks, |w.fl.headers|)
  }

  /** After any legal run under arbitrary failures and any crash, every published bit is read back,
      and no stripe gains or loses its source. */
  lemma CrashKeepsPublished(w: World, es: seq<Event>, picks: seq<seq<Header>>, s: nat, b: Bit)
    requires Inv(w) && Legal(w, es) && s < |w.fl.headers|
    requires CrashChoice(Final(w, es).disk, picks)
    ensures Final(w, es).shared.Shows(s, b) ==> Reloaded(Final(w, es), picks)[s].Has(b)
    ensures Reloaded(Final(w, es), picks)[s].hasSource == Final(w, es).fl.headers[s].hasSource
  {
    ReloadKeeps(Final(w, es), picks, s, b);
  }

  lemma ReloadKeeps(w: World, picks: seq<seq<Header>>, s: nat, b: Bit)
    requires Inv(w) && CrashChoice(w.disk, picks) && s < |w.fl.headers|
    ensures w.shared.Shows(s, b) ==> Reloaded(w, picks)[s].Has(b)
    ensures Reloaded(w, picks)[s].hasSource == w.fl.headers[s].hasSource
  {
    ImageAt(w.fl.headers, s);
    LoadDefined(w, picks);
    assert WellShaped(picks[GroupOf(s)], w.fl.headers, GroupOf(s));
    if w.shared.Shows(s, b) {
      assert Durable(w.disk, s, b);
    }
  }

  // ----- which bits can appear at all -----

  /** FETCHED appears for stripes of d only: in memory, in the queue, and in every possible image. */
  ghost predicate FetchedWithin(w: World, d: set<nat>)
    requires Sized(w)
  {
    && (forall s: nat | s < |w.fl.headers| && w.fl.headers[s].fetched :: s in d)
    && (forall r | r in w.fl.queue && r.bit == FetchedBit :: r.stripe in d)
    && (forall s: nat, img: seq<Header> | s < |w.fl.headers| && img in w.disk.images[GroupOf(s)] && Slot(s) < |img|
          && img[Slot(s)].fetched :: s in d)
  }

  /** An image is new only by being what memory holds. */
  lemma NewImage(w: World, e: Event, g: nat, img: seq<Header>)
    requires Inv(w) && Enabled(w, e) && g < |w.disk.images|
    requires |Next(w, e).disk.images| == |w.disk.images|
    requires img in Next(w, e).disk.images[g] && img !in w.disk.images[g]
    ensures |Next(w, e).fl.headers| == |w.fl.headers| && img == Image(Next(w, e).fl.headers, g)
  {
  }

  lemma NextHeadersWithin(w: World, e: Event, d: set<nat>)
    requires Inv(w) && Enabled(w, e) && FetchedWithin(w, d)
    requires e.Ask? && e.req.bit == FetchedBit ==> e.req.stripe in d
    ensures forall s: nat | s < |Next(w, e).fl.headers| && Next(w, e).fl.headers[s].fetched :: s in d
    ensures forall r | r in Next(w, e).fl.queue && r.bit == FetchedBit :: r.stripe in d
  {
    if e.Start? {
      assert w.fl.queue[0] in w.fl.queue;
    }
  }

  lemma NextFetchedWithin(w: World, e: Event, d: set<nat>)
    requires Inv(w) && Enabled(w, e) && FetchedWithin(w, d)
    requires e.Ask? && e.req.bit == FetchedBit ==> e.req.stripe in d
    ensures Sized(Next(w, e)) && FetchedWithin(Next(w, e), d)
  {
    NextInv(w, e);
    NextHeadersWithin(w, e, d);
    var w' := Next(w, e);
    forall s: nat, img: seq<Header> | s < |w'.fl.headers| && img in w'.disk.images[GroupOf(s)] && Slot(s) < |img|
      && img[Slot(s)].fetched
      ensures s in d
    {
      if img !in w.disk.images[GroupOf(s)] {
        NewImage(w, e, GroupOf(s), img);
        ImageAt(w'.fl.headers, s);
      }
    }
  }

  // ----- the failure-free run is a fold of the requests -----

  function Asked(es: seq<Event>): seq<Request> {
    if es == [] then [] else (if es[0].Ask? then [es[0].req] else []) + Asked(es[1..])
  }

  predicate FailureFree(es: seq<Event>) {
    forall e | e in es :: !e.GaveUp?
  }

  /** Sector writes issued and flushes issued, counted per requested bit. */
  datatype Tally = Tally(writes: multiset<Request>, flushes: multiset<Request>)

  ghost function Charge(w: World, e: Event, t: Tally): Tally
    requires Inv(w) && Enabled(w, e)
  {
    if e.Start? && !Redundant(w.fl) then t.(writes := t.writes + multiset{w.fl.queue[0]})
    else if e.Wrote? then t.(flushes := t.flushes + multiset{Request(e.stripe, w.fl.updates[e.stripe].bit)})
    else t
  }

  ghost function Charges(w: World, es: seq<Event>, t: Tally): Tally
    requires Inv(w) && Legal(w, es)
    decreases |es|
  {
    if es == [] then t else NextInv(w, es[0]); Charges(Next(w, es[0]), es[1..], Charge(w, es[0], t))
  }

  predicate InFlight(fl: State, r: Request) {
    r.stripe in fl.updates && fl.updates[r.stripe].bit == r.bit
  }

  /** What a failure-free run keeps of one bit: set or queued is the same as initially set or asked;
      if it was not set initially it costs one write, and one flush once that is acknowledged. */
  ghost predicate Folded(fl: State, init: seq<Header>, asked: seq<Request>, t: Tally, r: Request) {
    && r.stripe < |init| == |fl.headers|
    && (fl.headers[r.stripe].Has(r.bit) || r in fl.queue <==> init[r.stripe].Has(r.bit) || r in asked)
    && (init[r.stripe].Has(r.bit) ==> fl.headers[r.stripe].Has(r.bit))
    && t.writes[r] == (if fl.headers[r.stripe].Has(r.bit) && !init[r.stripe].Has(r.bit) then 1 else 0)
    && t.flushes[r] + (if InFlight(fl, r) && fl.updates[r.stripe].stage.Writing? then 1 else 0) == t.writes[r]
  }

  /** A sector without an update in progress has the one image that memory holds. */
  ghost predicate Settled(w: World)
    requires Sized(w)
  {
    forall g: nat | g < |w.disk.images| && g + 1 !in w.fl.updating :: w.disk.images[g] == {Image(w.fl.headers, g)}
  }

  lemma NextSettled(w: World, e: Event)
    requires Inv(w) && Enabled(w, e) && !e.GaveUp? && Settled(w)
    ensures Sized(Next(w, e)) && Settled(Next(w, e))
  {
    NextInv(w, e);
    var w' := Next(w, e);
    forall g: nat | g < |w'.disk.images| && g + 1 !in w'.fl.updating
      ensures w'.disk.images[g] == {Image(w'.fl.headers, g)}
    {
      if e.Start? && !Redundant(w.fl) {
        ImageUpdate(w.fl.headers, w.fl.queue[0].stripe, w'.fl.headers[w.fl.queue[0].stripe], g);
      }
    }
  }

  lemma StartFolded(w: World, init: seq<Header>, asked: seq<Request>, t: Tally, r: Request)
    requires Inv(w) && Enabled(w, Start) && Folded(w.fl, init, asked, t, r)
    ensures Folded(Next(w, Start).fl, init, asked, Charge(w, Start, t), r)
  {
    hide HeadersAgree, ImagesShaped, PublishedDurable, StagesAgree;
    var fl', q := StartOne(w.fl), w.fl.queue[0];
    assert w.fl.queue == [q] + fl'.queue;
    if !Redundant(w.fl) {
      StartKeepsUpdates(w.fl);
      assert q.stripe == r.stripe && q.bit == r.bit ==> q == r;
    }
  }

  lemma NextFolded(w: World, e: Event, init: seq<Header>, asked: seq<Request>, t: Tally, r: Request)
    requires Inv(w) && Enabled(w, e) && !e.GaveUp? && Folded(w.fl, init, asked, t, r)
    ensures Folded(Next(w, e).fl, init, asked + (if e.Ask? then [e.req] else []), Charge(w, e, t), r)
  {
    hide Inv;
    match e
    case Start =>
      StartFolded(w, init, asked, t, r);
      assert asked + [] == asked;
    case Wrote(s) =>
      assert s == r.stripe && w.fl.updates[s].bit == r.bit ==> Request(s, w.fl.updates[s].bit) == r;
    case _ =>
  }

  lemma AskedNone(asked: seq<Request>)
    ensures asked + Asked([]) == asked
  {
  }

  lemma AskedMore(asked: seq<Request>, es: seq<Event>)
    requires es != []
    ensures asked + (if es[0].Ask? then [es[0].req] else []) + Asked(es[1..]) == asked + Asked(es)
  {
  }

  lemma {:induction false} RunFolded(w: World, es: seq<Event>, init: seq<Header>, asked: seq<Request>, t: Tally,
                                     r: Request)
    requires Inv(w) && Legal(w, es) && FailureFree(es)
    requires Folded(w.fl, init, asked, t, r)
    ensures Folded(Final(w, es).fl, init, asked + Asked(es), Charges(w, es, t), r)
    decreases |es|
  {
    hide Inv, Next, Enabled, Folded, Charge, Asked;
    if es == [] {
      AskedNone(asked);
    } else {
      var e, rest := es[0], es[1..];
      NextInv(w, e);
      var w', t' := Next(w, e), Charge(w, e, t);
      var asked' := asked + (if e.Ask? then [e.req] else []);
      NextFolded(w, e, init, asked, t, r);
      RunFolded(w', rest, init, asked', t', r);
      AskedMore(asked, es);
    }
  }

  lemma {:induction false} RunSettled(w: World, es: seq<Event>)
    requires Inv(w) && Legal(w, es) && FailureFree(es) && Settled(w)
    ensures Settled(Final(w, es))
    decreases |es|
  {
    hide Inv, Next, Enabled, Settled;
    if es != [] {
      NextInv(w, es[0]);
      NextSettled(w, es[0]);
      RunSettled(Next(w, es[0]), es[1..]);
    }
  }

  /** From a loaded state, any failure-free run that ends idle has published, and made the only
      possible image, exactly the initial headers with all requested bits set; each bit that was
      not set initially cost one write and one flush, whatever the order and the duplicates. */
  lemma IdleIsFold(headers: seq<Header>, es: seq<Event>, r: Request)
    requires forall h | h in headers :: h.fetched ==> h.hasSource
    requires Inv(NewWorld(headers)) && Legal(NewWorld(headers), es) && FailureFree(es)
    requires r.stripe < |headers| && !Busy(Final(NewWorld(headers), es).fl)
    ensures
      var end := Final(NewWorld(headers), es);
      var t := Charges(NewWorld(headers), es, Tally(multiset{}, multiset{}));
      var set_ := headers[r.stripe].Has(r.bit) || r in Asked(es);
      && (end.fl.headers[r.stripe].Has(r.bit) <==> set_)
      && (end.shared.Shows(r.stripe, r.bit) <==> set_)
      && end.disk.images[GroupOf(r.stripe)] == {Image(end.fl.headers, GroupOf(r.stripe))}
      && t.writes[r] == t.flushes[r] == (if r in Asked(es) && !headers[r.stripe].Has(r.bit) then 1 else 0)
  {
    var w, end := NewWorld(headers), Final(NewWorld(headers), es);
    RunFolded(w, es, headers, [], Tally(multiset{}, multiset{}), r);
    RunSettled(w, es);
    hide Final, Charges, Legal;
    ImageAt(end.fl.headers, r.stripe);
    assert HeaderAgrees(end, r.stripe);
    assert [] + Asked(es) == Asked(es);
    assert forall s :: s in end.fl.updates ==> SectorOf(s) in end.fl.updating;
  }
}
