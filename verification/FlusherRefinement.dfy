/** Each method of the flusher performs a legal run of atomic events, so what is proved of all runs
    holds at every method boundary. */
module FlusherRefinement {
  import Disk
  import opened Metadata
  import opened Flusher
  import opened FlusherCrash
  import opened FlusherRuns
  import opened FlusherMethods

  /** The flusher and the table it publishes in: the part of the world that its methods see. */
  datatype Both = Both(fl: State, shared: Shared)

  ghost predicate Ready(b: Both) {
    Valid(b.fl) && |b.shared.fetch| == |b.shared.written| == |b.fl.headers|
  }

  /** The events of the flusher itself. */
  ghost predicate Can(b: Both, e: Event) {
    match e
    case Start => CanStart(b.fl)
    case Wrote(s) => s in b.fl.updates && b.fl.updates[s].stage.Writing?
    case Flushed(s) => s in b.fl.updates && b.fl.updates[s].stage.Flushing?
    case GaveUp(s) => s in b.fl.updates
    case Ask(_) => false
    case MarkFailed(_) => false
  }

  ghost function Act(b: Both, e: Event): (r: Both)
    requires Ready(b) && Can(b, e)
    ensures Ready(r) && |r.fl.headers| == |b.fl.headers|
  {
    match e
    case Start => StartKeepsValid(b.fl); b.(fl := StartOne(b.fl))
    case Wrote(s) => WriteDoneKeepsValid(b.fl, s); b.(fl := WriteDone(b.fl, s))
    case Flushed(s) =>
      FlushDoneKeepsValid(b.fl, s);
      Both(FlushDone(b.fl, s), b.shared.SetHeader(s, b.fl.updates[s].header))
    case GaveUp(s) => AbandonKeepsValid(b.fl, s); b.(fl := Abandon(b.fl, s))
  }

  /** The events can be taken one after the other and lead from a to b. */
  ghost predicate Leads(a: Both, es: seq<Event>, b: Both)
    requires Ready(a)
    decreases |es|
  {
    if es == [] then a == b else Can(a, es[0]) && Leads(Act(a, es[0]), es[1..], b)
  }

  lemma {:induction false} LeadsOn(a: Both, es: seq<Event>, b: Both, more: seq<Event>, c: Both)
    requires Ready(a) && Leads(a, es, b) && Ready(b) && Leads(b, more, c)
    ensures Leads(a, es + more, c)
    decreases |es|
  {
    hide Ready, Can, Act;
    if es == [] {
      assert es + more == more;
    } else {
      assert (es + more)[0] == es[0] && (es + more)[1..] == es[1..] + more;
      LeadsOn(Act(a, es[0]), es[1..], b, more, c);
    }
  }

  lemma LeadsOne(a: Both, es: seq<Event>, b: Both, e: Event)
    requires Ready(a) && Leads(a, es, b) && Ready(b) && Can(b, e)
    ensures Leads(a, es + [e], Act(b, e))
  {
    hide Ready, Can, Act;
    assert [e][1..] == [];
    assert Leads(Act(b, e), [], Act(b, e));
    LeadsOn(a, es, b, [e], Act(b, e));
  }

  /** In the world with a caching disk the same events are a legal run. */
  lemma {:induction false} LeadsInWorld(w: World, es: seq<Event>, b: Both)
    requires Inv(w) && Ready(Both(w.fl, w.shared)) && Leads(Both(w.fl, w.shared), es, b)
    ensures Legal(w, es) && Both(Final(w, es).fl, Final(w, es).shared) == b
    decreases |es|
  {
    hide HeadersAgree, ImagesShaped, PublishedDurable, StagesAgree, Valid;
    if es != [] {
      NextInv(w, es[0]);
      var w' := Next(w, es[0]);
      assert Both(w'.fl, w'.shared) == Act(Both(w.fl, w.shared), es[0]);
      LeadsInWorld(w', es[1..], b);
    }
  }

  lemma {:induction false} StartAllLeads(b: Both) returns (es: seq<Event>)
    requires Ready(b)
    ensures Leads(b, es, b.(fl := StartAll(b.fl).st))
    decreases |b.fl.queue|
  {
    hide StartAll, Valid, StartOne;
    if CanStart(b.fl) {
      StartAllUnfolds(b.fl);
      var rest := StartAllLeads(Act(b, Start));
      es := [Start] + rest;
      assert es[1..] == rest;
    } else {
      StartAllEnds(b.fl);
      es := [];
    }
  }

  lemma {:induction false} AbandonAllLeads(b: Both, ids: seq<nat>) returns (es: seq<Event>)
    requires Ready(b)
    ensures Leads(b, es, b.(fl := AbandonAll(b.fl, ids)))
  {
    hide Valid, Abandon, Leads;
    if ids == [] {
      es := [];
      LeadsNowhere(b);
    } else {
      es := AbandonAllLeads(b, ids[..|ids| - 1]);
      var mid, s := b.(fl := AbandonAll(b.fl, ids[..|ids| - 1])), ids[|ids| - 1];
      if s in mid.fl.updates {
        LeadsOne(b, es, mid, GaveUp(s));
        es := es + [GaveUp(s)];
      }
    }
  }

  lemma LeadsNowhere(b: Both)
    requires Ready(b)
    ensures Leads(b, [], b)
  {
  }

  /** The event that a completion stands for. */
  function EventOf(fl: State, c: (nat, bool)): Event
    requires c.0 in fl.updates
  {
    if !c.1 then GaveUp(c.0) else if fl.updates[c.0].stage.Writing? then Wrote(c.0) else Flushed(c.0)
  }

  lemma ReactIsEvent(b: Both, c: (nat, bool))
    requires Ready(b) && c.0 in b.fl.updates
    ensures Can(b, EventOf(b.fl, c)) && Act(b, EventOf(b.fl, c)).fl == React(b.fl, c)
    ensures Act(b, EventOf(b.fl, c)).shared
            == if c.1 && b.fl.updates[c.0].stage.Flushing?
               then b.shared.SetHeader(c.0, b.fl.updates[c.0].header) else b.shared
  {
    hide Valid;
  }

  ghost function BatchDone(b: Both, cs: seq<(nat, bool)>): (r: Both)
    requires Ready(b)
    ensures Ready(r) && |r.fl.headers| == |b.fl.headers|
  {
    hide Valid, ReactAll, Finished, PublishAll;
    Both(ReactAll(b.fl, cs), PublishAll(b.shared, Finished(b.fl, cs)))
  }

  lemma {:induction false} BatchLeads(b: Both, cs: seq<(nat, bool)>, i: nat) returns (es: seq<Event>)
    requires Ready(b) && Disk.DistinctIds(cs) && i <= |cs|
    ensures Leads(b, es, BatchDone(b, cs[..i]))
  {
    hide Valid, ReactAll, React, Finished, NewlyFlushing, Leads, Act, EventOf;
    if i == 0 {
      BatchEmpty(b.fl);
      assert cs[..0] == [];
      LeadsNowhere(b);
      es := [];
    } else {
      es := BatchLeads(b, cs, i - 1);
      assert forall xs: seq<(nat, Header)> :: xs + [] == xs;
      BatchStep(b.fl, cs, i - 1);
      var mid, c := BatchDone(b, cs[..i - 1]), cs[i - 1];
      if c.0 in mid.fl.updates {
        ReactIsEvent(mid, c);
        LeadsOne(b, es, mid, EventOf(mid.fl, c));
        var f := Finished(b.fl, cs[..i]);
        assert f != Finished(b.fl, cs[..i - 1]) ==> f[..|f| - 1] == Finished(b.fl, cs[..i - 1]);
        es := es + [EventOf(mid.fl, c)];
      } else {
        NotReacting(mid.fl, c);
      }
    }
  }

  lemma NotReacting(fl: State, c: (nat, bool))
    requires Valid(fl) && c.0 !in fl.updates
    ensures React(fl, c) == fl
  {
  }

  /** What one call of update leaves behind. */
  ghost function Updated(b: Both, submitWrites: bool, cs: seq<(nat, bool)>, submitFlushes: bool): (r: Both)
    requires Ready(b)
    ensures Ready(r) && |r.fl.headers| == |b.fl.headers|
  {
    hide Valid, StartWritesSpec, PollSpec, PublishAll, Finished;
    var mid := StartWritesSpec(b.fl, submitWrites);
    Both(PollSpec(mid, cs, submitFlushes), PublishAll(b.shared, Finished(mid, cs)))
  }

  lemma UpdateLeads(b: Both, submitWrites: bool, cs: seq<(nat, bool)>, submitFlushes: bool) returns (es: seq<Event>)
    requires Ready(b) && Disk.DistinctIds(cs)
    ensures Leads(b, es, Updated(b, submitWrites, cs, submitFlushes))
  {
    hide Valid, Leads, StartAll, AbandonAll, ReactAll, Finished, NewlyFlushing, PublishAll;
    es := StartAllLeads(b);
    var mid := b.(fl := StartAll(b.fl).st);
    if !submitWrites {
      var dropped := AbandonAllLeads(mid, StartAll(b.fl).ids);
      LeadsOn(b, es, mid, dropped, mid.(fl := AbandonAll(mid.fl, StartAll(b.fl).ids)));
      es, mid := es + dropped, mid.(fl := AbandonAll(mid.fl, StartAll(b.fl).ids));
    }
    assert cs[..|cs|] == cs;
    var batch := BatchLeads(mid, cs, |cs|);
    LeadsOn(b, es, mid, batch, BatchDone(mid, cs));
    es := es + batch;
    if !submitFlushes {
      var done := BatchDone(mid, cs);
      var failed := AbandonAllLeads(done, NewlyFlushing(mid.fl, cs));
      LeadsOn(b, es, done, failed, done.(fl := AbandonAll(done.fl, NewlyFlushing(mid.fl, cs))));
      es := es + failed;
    }
  }

  /** es is a legal run that leaves the flusher and the shared state as given. */
  ghost predicate Reaches(w: World, es: seq<Event>, b: Both)
    requires Inv(w)
  {
    Legal(w, es) && Both(Final(w, es).fl, Final(w, es).shared) == b
  }

  /** One call of update, under any completions and any submission failures, is a legal run. */
  lemma UpdateIsRun(w: World, submitWrites: bool, cs: seq<(nat, bool)>, submitFlushes: bool)
    requires Inv(w) && Disk.DistinctIds(cs)
    ensures Ready(Both(w.fl, w.shared))
    ensures exists es :: Reaches(w, es, Updated(Both(w.fl, w.shared), submitWrites, cs, submitFlushes))
  {
    hide HeadersAgree, ImagesShaped, PublishedDurable, StagesAgree, Valid, Legal, Final, Updated, Leads;
    var b := Both(w.fl, w.shared);
    var es := UpdateLeads(b, submitWrites, cs, submitFlushes);
    LeadsInWorld(w, es, Updated(b, submitWrites, cs, submitFlushes));
    assert Reaches(w, es, Updated(b, submitWrites, cs, submitFlushes));
  }
}
