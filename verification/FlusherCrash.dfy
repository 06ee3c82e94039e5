/** The flusher together with a metadata device that caches writes: every sector has a set of
    images that it may hold after a crash. */
module FlusherCrash {
  import opened Metadata
  import opened Flusher

  /** images[g]: what sector g may hold after a crash; pending: the image handed over with the
      outstanding write of each request id; current[g]: the last acknowledged write. */
  datatype MetaDisk = MetaDisk(images: seq<set<seq<Header>>>, pending: map<nat, seq<Header>>, current: seq<seq<Header>>)

  datatype World = World(fl: State, shared: Shared, disk: MetaDisk)

  /** Ask: a request is queued. Start: the head of the queue is started. Wrote, Flushed: the device
      acknowledges. GaveUp: a write, flush or submission failed; the image may or may not have
      reached the disk. MarkFailed: the stripe fetcher records that a stripe cannot be fetched. */
  datatype Event =
    | Ask(req: Request) | Start | Wrote(stripe: nat) | Flushed(stripe: nat)
    | GaveUp(stripe: nat) | MarkFailed(stripe: nat)

  function NewWorld(headers: seq<Header>): World {
    var n := GroupCount(|headers|);
    World(NewState(headers), NewShared(headers),
          MetaDisk(seq(n, g requires 0 <= g < n => {Image(headers, g)}), map[],
                   seq(n, g requires 0 <= g < n => Image(headers, g))))
  }

  ghost predicate Sized(w: World) {
    && |w.shared.fetch| == |w.shared.written| == |w.fl.headers|
    && |w.disk.images| == |w.disk.current| == GroupCount(|w.fl.headers|)
    && (forall s: nat | s < |w.fl.headers| :: GroupOf(s) < |w.disk.images|)
  }

  /** In-memory headers are the published ones plus exactly the bits in flight. */
  ghost predicate HeadersAgree(w: World)
    requires Sized(w)
  {
    forall s: nat | s < |w.fl.headers| :: HeaderAgrees(w, s)
  }

  ghost predicate HeaderAgrees(w: World, s: nat)
    requires Sized(w) && s < |w.fl.headers|
  {
    && (forall b: Bit ::
          w.fl.headers[s].Has(b) <==> w.shared.Shows(s, b) || (s in w.fl.updates && w.fl.updates[s].bit == b))
    && (s in w.fl.updates ==> !w.shared.Shows(s, w.fl.updates[s].bit))
    && (w.shared.fetch[s] == NoSource ==> !w.fl.headers[s].hasSource)
    && (!w.shared.FetchedIfNeeded(s) ==> w.fl.headers[s].hasSource)
  }

  ghost predicate WellShaped(img: seq<Header>, headers: seq<Header>, g: nat)
    requires g < GroupCount(|headers|)
  {
    && |img| == |Image(headers, g)|
    && (forall i :: 0 <= i < |img| ==> img[i].hasSource == Image(headers, g)[i].hasSource)
  }

  ghost predicate ImagesShaped(w: World)
    requires Sized(w)
  {
    forall g: nat | g < |w.disk.images| ::
      && w.disk.images[g] != {}
      && (forall img | img in w.disk.images[g] :: WellShaped(img, w.fl.headers, g))
  }

  /** Whatever image a crash leaves, the bit of the stripe is in it. */
  ghost predicate Durable(disk: MetaDisk, s: nat, b: Bit)
    requires GroupOf(s) < |disk.images|
  {
    forall img: seq<Header> | img in disk.images[GroupOf(s)] :: Slot(s) < |img| && img[Slot(s)].Has(b)
  }

  /** Every published bit is in every image that a crash may leave. */
  ghost predicate PublishedDurable(w: World)
    requires Sized(w)
  {
    forall s: nat, b: Bit | s < |w.fl.headers| && w.shared.Shows(s, b) :: Durable(w.disk, s, b)
  }

  /** What the device was given, and what it acknowledged, is the sector as it stands in memory. */
  ghost predicate StagesAgree(w: World)
    requires Sized(w) && Valid(w.fl)
  {
    forall s | s in w.fl.updates ::
      match w.fl.updates[s].stage
      case Writing => s in w.disk.pending && w.disk.pending[s] == Image(w.fl.headers, GroupOf(s))
      case Flushing => w.disk.current[GroupOf(s)] == Image(w.fl.headers, GroupOf(s))
  }

  ghost predicate Inv(w: World) {
    && Sized(w) && Valid(w.fl)
    && HeadersAgree(w) && ImagesShaped(w) && PublishedDurable(w) && StagesAgree(w)
  }

  ghost predicate Enabled(w: World, e: Event) {
    match e
    case Ask(req) => req.stripe < |w.fl.headers|
    case Start => CanStart(w.fl)
    case Wrote(s) => s in w.fl.updates && w.fl.updates[s].stage.Writing?
    case Flushed(s) => s in w.fl.updates && w.fl.updates[s].stage.Flushing?
    case GaveUp(s) => s in w.fl.updates
    case MarkFailed(s) => s < |w.shared.fetch| && !w.shared.FetchedIfNeeded(s)
  }

  ghost function Next(w: World, e: Event): World
    requires Inv(w) && Enabled(w, e)
  {
    match e
    case Ask(req) => w.(fl := w.fl.(queue := w.fl.queue + [req]))
    case Start =>
      var fl := StartOne(w.fl);
      if Redundant(w.fl) then w.(fl := fl)
      else
        var s := w.fl.queue[0].stripe;
        var g := GroupOf(s);
        var img := Image(fl.headers, g);
        w.(fl := fl, disk := w.disk.(images := w.disk.images[g := w.disk.images[g] + {img}],
                                     pending := w.disk.pending[s := img]))
    case Wrote(s) =>
      w.(fl := WriteDone(w.fl, s),
         disk := w.disk.(current := w.disk.current[GroupOf(s) := w.disk.pending[s]]))
    case Flushed(s) =>
      var g := GroupOf(s);
      w.(fl := FlushDone(w.fl, s),
         shared := w.shared.SetHeader(s, w.fl.updates[s].header),
         disk := w.disk.(images := w.disk.images[g := {w.disk.current[g]}]))
    case GaveUp(s) => w.(fl := Abandon(w.fl, s))
    case MarkFailed(s) => w.(shared := w.shared.SetFailed(s))
  }

  lemma NewWorldInv(headers: seq<Header>)
    requires forall h | h in headers :: h.fetched ==> h.hasSource
    ensures Inv(NewWorld(headers))
  {
    var w := NewWorld(headers);
    forall s: nat | s < |headers| ensures GroupOf(s) < |w.disk.images| {
      ImageAt(headers, s);
    }
    forall s: nat, b: Bit | s < |headers| && w.shared.Shows(s, b) ensures Durable(w.disk, s, b) {
      NewWorldDurable(headers, s, b);
    }
    forall s: nat | s < |headers| ensures HeaderAgrees(w, s) {
      assert headers[s] in headers;
    }
  }

  lemma NewWorldDurable(headers: seq<Header>, s: nat, b: Bit)
    requires s < |headers| && NewWorld(headers).shared.Shows(s, b)
    ensures GroupOf(s) < GroupCount(|headers|) && Durable(NewWorld(headers).disk, s, b)
  {
    ImageAt(headers, s);
    assert NewWorld(headers).disk.images[GroupOf(s)] == {Image(headers, GroupOf(s))};
  }

  /** Distinct stripes being updated live in distinct groups. */
  lemma OtherGroup(st: State, s: nat, t: nat)
    requires ValidUpdates(st) && s in st.updates && t in st.updates && s != t
    ensures GroupOf(s) != GroupOf(t)
  {
  }

  /** Changing a bit of one header does not change the shape of the images. */
  lemma ShapeKept(img: seq<Header>, headers: seq<Header>, s: nat, h: Header, g: nat)
    requires s < |headers| && g < GroupCount(|headers|) && WellShaped(img, headers, g)
    requires h.hasSource == headers[s].hasSource
    ensures WellShaped(img, headers[s := h], g)
  {
    ImageUpdate(headers, s, h, g);
    ImageAt(headers, s);
  }

  lemma NextSized(w: World, e: Event)
    requires Inv(w) && Enabled(w, e)
    ensures Sized(Next(w, e))
  {
    hide HeadersAgree, ImagesShaped, PublishedDurable, StagesAgree;
  }

  // ----- Start -----

  ghost predicate Starts(w: World) {
    Inv(w) && CanStart(w.fl) && !Redundant(w.fl)
  }

  lemma StartHeaders(w: World)
    requires Starts(w)
    ensures HeadersAgree(Next(w, Start))
  {
    hide ImagesShaped, PublishedDurable, StagesAgree, GroupOf, GroupCount;
    NextSized(w, Start);
    var w', s := Next(w, Start), w.fl.queue[0].stripe;
    StartKeepsUpdates(w.fl);
    forall t: nat | t < |w'.fl.headers| ensures HeaderAgrees(w', t) {
      assert HeaderAgrees(w, t);
    }
  }

  lemma StartShapes(w: World)
    requires Starts(w)
    ensures ImagesShaped(Next(w, Start))
  {
    hide HeadersAgree, PublishedDurable, StagesAgree;
    NextSized(w, Start);
    var w', s := Next(w, Start), w.fl.queue[0].stripe;
    ImageAt(w.fl.headers, s);
    forall g: nat | g < |w'.disk.images|
      ensures forall img | img in w'.disk.images[g] :: WellShaped(img, w'.fl.headers, g)
    {
      ImageUpdate(w.fl.headers, s, w'.fl.headers[s], g);
    }
  }

  /** The new image contains every published bit of its group, because memory does. */
  lemma StartDurable(w: World)
    requires Starts(w)
    ensures PublishedDurable(Next(w, Start))
  {
    hide ImagesShaped, StagesAgree, GroupCount;
    NextSized(w, Start);
    var w' := Next(w, Start);
    StartHeaders(w);
    forall t: nat, b: Bit | t < |w'.fl.headers| && w'.shared.Shows(t, b) ensures Durable(w'.disk, t, b) {
      ImageAt(w'.fl.headers, t);
      assert Durable(w.disk, t, b);
      assert HeaderAgrees(w', t);
    }
  }

  lemma StartStages(w: World)
    requires Starts(w)
    ensures Valid(Next(w, Start).fl) && StagesAgree(Next(w, Start))
  {
    hide ImagesShaped, PublishedDurable, HeadersAgree, GroupOf, GroupCount;
    NextSized(w, Start);
    var w', s := Next(w, Start), w.fl.queue[0].stripe;
    StartKeepsValid(w.fl);
    StartKeepsUpdates(w.fl);
    forall t | t in w'.fl.updates && t != s ensures Image(w'.fl.headers, GroupOf(t))
        == Image(w.fl.headers, GroupOf(t)) {
      OtherGroup(w'.fl, s, t);
      ImageUpdate(w.fl.headers, s, w'.fl.headers[s], GroupOf(t));
    }
  }

  lemma StartInv(w: World)
    requires Starts(w)
    ensures Inv(Next(w, Start))
  {
    hide ImagesShaped, PublishedDurable, HeadersAgree, StagesAgree, Valid, GroupOf, GroupCount;
    NextSized(w, Start);
    StartHeaders(w);
    StartShapes(w);
    StartDurable(w);
    StartStages(w);
  }

  // ----- Wrote -----

  lemma WroteInv(w: World, s: nat)
    requires Inv(w) && Enabled(w, Wrote(s))
    ensures Inv(Next(w, Wrote(s)))
  {
    hide HeadersAgree, ImagesShaped, PublishedDurable, StagesAgree, Valid, GroupOf, GroupCount;
    var w' := Next(w, Wrote(s));
    WriteDoneKeepsValid(w.fl, s);
    NextSized(w, Wrote(s));
    WroteHeaders(w, s);
    WroteStages(w, s);
  }

  lemma WroteHeaders(w: World, s: nat)
    requires Inv(w) && Enabled(w, Wrote(s))
    ensures HeadersAgree(Next(w, Wrote(s))) && PublishedDurable(Next(w, Wrote(s))) && ImagesShaped(Next(w, Wrote(s)))
  {
    hide StagesAgree, Valid, GroupOf, GroupCount;
    NextSized(w, Wrote(s));
    var w' := Next(w, Wrote(s));
    forall t: nat | t < |w'.fl.headers| ensures HeaderAgrees(w', t) {
      assert HeaderAgrees(w, t);
    }
    forall t: nat, b: Bit | t < |w'.fl.headers| && w'.shared.Shows(t, b) ensures Durable(w'.disk, t, b) {
      assert Durable(w.disk, t, b);
    }
  }

  lemma WroteStages(w: World, s: nat)
    requires Inv(w) && Enabled(w, Wrote(s)) && Valid(WriteDone(w.fl, s))
    ensures StagesAgree(Next(w, Wrote(s)))
  {
    hide HeadersAgree, PublishedDurable, ImagesShaped, GroupOf, GroupCount;
    NextSized(w, Wrote(s));
    var w' := Next(w, Wrote(s));
    forall t | t in w'.fl.updates && t != s ensures GroupOf(t) != GroupOf(s) {
      OtherGroup(w.fl, s, t);
    }
  }

  // ----- Flushed -----

  lemma FlushedHeaders(w: World, s: nat)
    requires Inv(w) && Enabled(w, Flushed(s))
    ensures HeadersAgree(Next(w, Flushed(s)))
    ensures forall b: Bit :: Next(w, Flushed(s)).shared.Shows(s, b) <==> w.fl.headers[s].Has(b)
  {
    hide ImagesShaped, PublishedDurable, StagesAgree, GroupOf, GroupCount;
    NextSized(w, Flushed(s));
    var w' := Next(w, Flushed(s));
    assert HeaderAgrees(w, s);
    forall t: nat | t < |w'.fl.headers| ensures HeaderAgrees(w', t) {
      assert HeaderAgrees(w, t);
    }
  }

  /** The flush leaves the one image that memory holds, and it has the bits about to be published. */
  lemma FlushedDurable(w: World, s: nat, t: nat, b: Bit)
    requires Inv(w) && Enabled(w, Flushed(s))
    requires t < |w.fl.headers| && Next(w, Flushed(s)).shared.Shows(t, b)
    ensures Durable(Next(w, Flushed(s)).disk, t, b)
  {
    hide ImagesShaped, GroupCount;
    NextSized(w, Flushed(s));
    FlushedHeaders(w, s);
    ImageAt(w.fl.headers, t);
    assert HeaderAgrees(w, t);
    if GroupOf(t) != GroupOf(s) {
      assert w.shared.Shows(t, b) && Durable(w.disk, t, b);
    }
  }

  lemma FlushedStages(w: World, s: nat)
    requires Inv(w) && Enabled(w, Flushed(s))
    ensures Valid(FlushDone(w.fl, s))
    ensures ImagesShaped(Next(w, Flushed(s))) && StagesAgree(Next(w, Flushed(s)))
  {
    hide HeadersAgree, PublishedDurable, GroupOf, GroupCount;
    NextSized(w, Flushed(s));
    FlushDoneKeepsValid(w.fl, s);
  }

  lemma FlushedInv(w: World, s: nat)
    requires Inv(w) && Enabled(w, Flushed(s))
    ensures Inv(Next(w, Flushed(s)))
    ensures forall b: Bit :: Next(w, Flushed(s)).shared.Shows(s, b) <==> w.fl.headers[s].Has(b)
  {
    hide Valid, ImagesShaped, HeadersAgree, StagesAgree, GroupOf, GroupCount;
    NextSized(w, Flushed(s));
    var w' := Next(w, Flushed(s));
    FlushedStages(w, s);
    FlushedHeaders(w, s);
    forall t: nat, b: Bit | t < |w'.fl.headers| && w'.shared.Shows(t, b) ensures Durable(w'.disk, t, b) {
      FlushedDurable(w, s, t, b);
    }
  }

  // ----- GaveUp -----

  lemma GaveUpImages(w: World, s: nat)
    requires Inv(w) && Enabled(w, GaveUp(s))
    ensures ImagesShaped(Next(w, GaveUp(s)))
  {
    hide HeadersAgree, PublishedDurable, StagesAgree, GroupOf, GroupCount, WellShaped;
    NextSized(w, GaveUp(s));
    var w' := Next(w, GaveUp(s));
    forall g: nat, img | g < |w'.disk.images| && img in w'.disk.images[g]
      ensures WellShaped(img, w'.fl.headers, g)
    {
      ShapeKept(img, w.fl.headers, s, w'.fl.headers[s], g);
    }
  }

  lemma GaveUpStages(w: World, s: nat)
    requires Inv(w) && Enabled(w, GaveUp(s))
    ensures Valid(Next(w, GaveUp(s)).fl) && StagesAgree(Next(w, GaveUp(s)))
  {
    hide HeadersAgree, PublishedDurable, ImagesShaped, GroupOf, GroupCount;
    NextSized(w, GaveUp(s));
    var w' := Next(w, GaveUp(s));
    AbandonKeepsValid(w.fl, s);
    forall t | t in w.fl.updates && t != s ensures Image(w'.fl.headers, GroupOf(t)) == Image(w.fl.headers, GroupOf(t)) {
      OtherGroup(w.fl, s, t);
      ImageUpdate(w.fl.headers, s, w'.fl.headers[s], GroupOf(t));
    }
  }

  lemma GaveUpHeaders(w: World, s: nat)
    requires Inv(w) && Enabled(w, GaveUp(s))
    ensures HeadersAgree(Next(w, GaveUp(s))) && PublishedDurable(Next(w, GaveUp(s)))
    ensures forall b: Bit :: Next(w, GaveUp(s)).fl.headers[s].Has(b) <==> w.shared.Shows(s, b)
  {
    hide ImagesShaped, StagesAgree, GroupOf, GroupCount;
    var w' := Next(w, GaveUp(s));
    NextSized(w, GaveUp(s));
    forall t: nat | t < |w'.fl.headers| ensures HeaderAgrees(w', t) {
      assert HeaderAgrees(w, t);
    }
    assert HeaderAgrees(w', s);
    forall t: nat, b: Bit | t < |w'.fl.headers| && w'.shared.Shows(t, b) ensures Durable(w'.disk, t, b) {
      assert Durable(w.disk, t, b);
    }
  }

  /** Giving up restores the exact header the stripe had before the request was started. */
  lemma GaveUpInv(w: World, s: nat)
    requires Inv(w) && Enabled(w, GaveUp(s))
    ensures Inv(Next(w, GaveUp(s)))
    ensures forall b: Bit :: Next(w, GaveUp(s)).fl.headers[s].Has(b) <==> w.shared.Shows(s, b)
  {
    hide ImagesShaped, PublishedDurable, HeadersAgree, StagesAgree, Valid, GroupOf, GroupCount;
    NextSized(w, GaveUp(s));
    GaveUpImages(w, s);
    GaveUpStages(w, s);
    GaveUpHeaders(w, s);
  }

  lemma MarkFailedInv(w: World, s: nat)
    requires Inv(w) && Enabled(w, MarkFailed(s))
    ensures Inv(Next(w, MarkFailed(s)))
  {
    hide Valid, GroupOf, GroupCount;
    NextSized(w, MarkFailed(s));
    var w' := Next(w, MarkFailed(s));
    forall t: nat | t < |w'.fl.headers| ensures HeaderAgrees(w', t) {
      assert HeaderAgrees(w, t);
    }
    forall t: nat, b: Bit | t < |w'.fl.headers| && w'.shared.Shows(t, b) ensures Durable(w'.disk, t, b) {
      assert Durable(w.disk, t, b);
    }
  }

  lemma AskInv(w: World, req: Request)
    requires Inv(w) && Enabled(w, Ask(req))
    ensures Inv(Next(w, Ask(req)))
  {
    var w' := Next(w, Ask(req));
    forall t: nat | t < |w'.fl.headers| ensures HeaderAgrees(w', t) {
      assert HeaderAgrees(w, t);
    }
  }

  lemma RedundantInv(w: World)
    requires Inv(w) && Enabled(w, Start) && Redundant(w.fl)
    ensures Inv(Next(w, Start))
  {
    var w' := Next(w, Start);
    forall t: nat | t < |w'.fl.headers| ensures HeaderAgrees(w', t) {
      assert HeaderAgrees(w, t);
    }
  }

  lemma NextInv(w: World, e: Event)
    requires Inv(w) && Enabled(w, e)
    ensures Inv(Next(w, e))
    ensures |Next(w, e).fl.headers| == |w.fl.headers|
    ensures forall s: nat | s < |w.fl.headers| :: Next(w, e).fl.headers[s].hasSource == w.fl.headers[s].hasSource
  {
    hide HeadersAgree, ImagesShaped, PublishedDurable, StagesAgree, GroupOf, GroupCount;
    match e
    case Ask(req) => AskInv(w, req);
    case Start =>
      if Redundant(w.fl) { RedundantInv(w); } else { StartInv(w); }
    case Wrote(s) => WroteInv(w, s);
    case Flushed(s) => FlushedInv(w, s);
    case GaveUp(s) => GaveUpInv(w, s);
    case MarkFailed(s) => MarkFailedInv(w, s);
  }
}
