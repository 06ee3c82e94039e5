/** Each method of the fetcher performs a legal run of atomic events, so what is proved of all runs
    holds at every method boundary. */
module FetcherRefinement {
  import opened Metadata
  import opened Fetcher
  import opened FetcherRuns
  import opened FetcherMethods

  // ----- events on the fetcher together with the table of failed stripes -----

  ghost predicate Can(p: Pair, n: nat, e: Event) {
    Enabled(p.st, n, Step(e, p.shared))
  }

  /** The stripe whose attempt the event may end. */
  function StripeOf(st: State, e: Event): (s: nat)
    requires e.Started? ==> st.queue != []
  {
    match e
    case Started(_) => st.queue[0]
    case FromSource(s, _, _) => s
    case FromTarget(s, _, _) => s
    case _ => 0
  }

  lemma StripeKnown(st: State, n: nat, e: Event, shared: Shared)
    requires Valid(st, n) && Enabled(st, n, Step(e, shared)) && (e.Started? || e.FromSource? || e.FromTarget?)
    ensures StripeOf(st, e) < n
  {
    if e.Started? {
      QueuePopped(st.queue, st.phases);
    } else {
      InFlightHasBuffer(st, n, StripeOf(st, e));
    }
  }

  /** A stripe that is given up is marked failed. */
  ghost function Act(p: Pair, n: nat, e: Event): (r: Pair)
    requires Ready(p, n) && Can(p, n, e)
    ensures Ready(r, n) && r.shared.written == p.shared.written
  {
    NextValid(p.st, n, Step(e, p.shared));
    hide Valid, Next;
    var after := Next(p.st, n, Step(e, p.shared));
    if e.Started? || e.FromSource? || e.FromTarget? then
      StripeKnown(p.st, n, e, p.shared);
      Pair(after, Mark(p.st, after, StripeOf(p.st, e), p.shared))
    else p.(st := after)
  }

  /** The events can be taken one after the other and lead from p to q. */
  ghost predicate Leads(p: Pair, n: nat, es: seq<Event>, q: Pair)
    requires Ready(p, n)
    decreases |es|
  {
    if es == [] then p == q else Can(p, n, es[0]) && Leads(Act(p, n, es[0]), n, es[1..], q)
  }

  lemma LeadsNowhere(p: Pair, n: nat)
    requires Ready(p, n)
    ensures Leads(p, n, [], p)
  {
  }

  lemma {:induction false} LeadsOn(p: Pair, n: nat, es: seq<Event>, q: Pair, more: seq<Event>, r: Pair)
    requires Ready(p, n) && Leads(p, n, es, q) && Ready(q, n) && Leads(q, n, more, r)
    ensures Leads(p, n, es + more, r)
    decreases |es|
  {
    hide Ready, Can, Act;
    if es == [] {
      assert es + more == more;
    } else {
      assert (es + more)[0] == es[0] && (es + more)[1..] == es[1..] + more;
      LeadsOn(Act(p, n, es[0]), n, es[1..], q, more, r);
    }
  }

  lemma LeadsOne(p: Pair, n: nat, es: seq<Event>, q: Pair, e: Event)
    requires Ready(p, n) && Leads(p, n, es, q) && Ready(q, n) && Can(q, n, e)
    ensures Leads(p, n, es + [e], Act(q, n, e))
  {
    hide Ready, Can, Act;
    assert [e][1..] == [];
    LeadsNowhere(Act(q, n, e), n);
    LeadsOn(p, n, es, q, [e], Act(q, n, e));
  }

  /** Such events are a legal run of the fetcher, each finding the table that the one before left. */
  lemma {:induction false} LeadsIsRun(p: Pair, n: nat, es: seq<Event>, q: Pair) returns (run: seq<Step>)
    requires Ready(p, n) && Leads(p, n, es, q)
    ensures Legal(p.st, n, run) && Final(p.st, n, run) == q.st
    ensures |run| == |es| && forall i :: 0 <= i < |es| ==> run[i].event == es[i]
    decreases |es|
  {
    hide Valid, Next, Enabled, Mark;
    if es == [] {
      run := [];
    } else {
      var step := Step(es[0], p.shared);
      NextValid(p.st, n, step);
      var rest := LeadsIsRun(Act(p, n, es[0]), n, es[1..], q);
      run := [step] + rest;
      assert run[1..] == rest;
    }
  }

  /** The events of an update, other than requests and taking the results. */
  predicate Internal(es: seq<Event>) {
    forall e | e in es :: !e.Asked? && !e.Taken?
  }

  // ----- the methods -----

  lemma {:induction false} StartAllLeads(p: Pair, n: nat, accept: nat -> bool, i: nat) returns (es: seq<Event>)
    requires Ready(p, n)
    ensures Leads(p, n, es, StartAll(p, n, accept, i)) && Internal(es)
    decreases AttemptsLeft(p.st.queue, p.st.retries)
  {
    hide Valid, StartOne, Mark;
    es := [];
    if CanStart(p.st) {
      var next := StartStep(p, n, accept(i));
      assert Act(p, n, Started(accept(i))) == next;
      var rest := StartAllLeads(next, n, accept, i + 1);
      es := [Started(accept(i))] + rest;
      assert es[1..] == rest;
    }
  }

  lemma {:induction false} SourceAllLeads(p: Pair, n: nat, cs: seq<(nat, bool)>, submit: nat -> bool)
      returns (es: seq<Event>)
    requires Ready(p, n) && SourceBatch(p.st, cs)
    ensures Leads(p, n, es, SourceAll(p, n, cs, submit)) && Internal(es)
  {
    hide Valid, SourceDone, Mark, Leads;
    es := [];
    if cs == [] {
      LeadsNowhere(p, n);
    } else {
      var k := |cs| - 1;
      es := SourceAllLeads(p, n, cs[..k], submit);
      var mid := SourceAll(p, n, cs[..k], submit);
      var (s, ok) := cs[k];
      assert s !in Ids(cs[..k]) && cs[k] in cs;
      if s in mid.st.buffers {
        LeadsOne(p, n, es, mid, FromSource(s, ok, submit(k)));
        StripeKnown(mid.st, n, FromSource(s, ok, submit(k)), mid.shared);
        es := es + [FromSource(s, ok, submit(k))];
      } else {
        NothingKnown(mid, n, s, ok, submit(k));
      }
    }
  }

  lemma NothingKnown(p: Pair, n: nat, s: nat, ok: bool, submitted: bool)
    requires Ready(p, n) && s !in p.st.buffers
    ensures SourceStep(p, n, (s, ok), submitted) == p
  {
  }

  lemma {:induction false} TargetAllLeads(p: Pair, n: nat, cs: seq<(nat, bool)>, submit: nat -> bool)
      returns (es: seq<Event>)
    requires Ready(p, n) && TargetBatch(p.st, cs)
    ensures Leads(p, n, es, TargetAll(p, n, cs, submit)) && Internal(es)
  {
    hide Valid, TargetDone, Mark, Leads;
    es := [];
    if cs == [] {
      LeadsNowhere(p, n);
    } else {
      var k := |cs| - 1;
      es := TargetAllLeads(p, n, cs[..k], submit);
      var mid := TargetAll(p, n, cs[..k], submit);
      var (s, ok) := cs[k];
      assert s !in Ids(cs[..k]) && cs[k] in cs;
      if !Stray(mid.st, cs[k]) {
        LeadsOne(p, n, es, mid, FromTarget(s, ok, submit(k)));
        es := es + [FromTarget(s, ok, submit(k))];
      }
    }
  }

  lemma AutofetchLeads(p: Pair, n: nat)
    requires Ready(p, n)
    ensures p.st.autoQueue != [] ==> p.st.autoQueue[0] < n
    ensures var next := p.(st := Autofetch(p.st, p.shared)); Ready(next, n) && Leads(p, n, [Autofetched], next)
  {
    AutofetchValid(p.st, p.shared, n);
    hide Valid;
    assert [Autofetched][1..] == [];
  }

  ghost function Updated(p: Pair, n: nat, accept: nat -> bool, fromSource: seq<(nat, bool)>,
                         fromTarget: seq<(nat, bool)>,
                         submitWrite: nat -> bool, submitFlush: nat -> bool): (r: Pair)
    requires Ready(p, n) && SourceBatch(UpdateStarted(p, n, accept).st, fromSource)
    requires TargetBatch(SourceAll(UpdateStarted(p, n, accept), n, fromSource, submitWrite).st, fromTarget)
    ensures Ready(r, n)
  {
    PollSpec(UpdateStarted(p, n, accept), n, fromSource, fromTarget, submitWrite, submitFlush)
  }

  lemma UpdateLeads(p: Pair, n: nat, accept: nat -> bool, fromSource: seq<(nat, bool)>, fromTarget: seq<(nat, bool)>,
                    submitWrite: nat -> bool, submitFlush: nat -> bool) returns (es: seq<Event>)
    requires Ready(p, n) && SourceBatch(UpdateStarted(p, n, accept).st, fromSource)
    requires TargetBatch(SourceAll(UpdateStarted(p, n, accept), n, fromSource, submitWrite).st, fromTarget)
    ensures Leads(p, n, es, Updated(p, n, accept, fromSource, fromTarget, submitWrite, submitFlush)) && Internal(es)
  {
    hide Valid, StartAll, SourceAll, TargetAll, Leads, Autofetch, SourceBatch, TargetBatch;
    AutofetchLeads(p, n);
    var asked, started := p.(st := Autofetch(p.st, p.shared)), UpdateStarted(p, n, accept);
    var a := StartAllLeads(asked, n, accept, 0);
    LeadsOn(p, n, [Autofetched], asked, a, started);
    var b := SourceAllLeads(started, n, fromSource, submitWrite);
    var read := SourceAll(started, n, fromSource, submitWrite);
    LeadsOn(p, n, [Autofetched] + a, started, b, read);
    var c := TargetAllLeads(read, n, fromTarget, submitFlush);
    LeadsOn(p, n, [Autofetched] + a + b, read, c, TargetAll(read, n, fromTarget, submitFlush));
    es := [Autofetched] + a + b + c;
  }

  /** One call of update, under any answers of source and target, is a legal run: it leaves the fetcher
      as given, and the table with exactly the marks that the events of the run make. */
  lemma UpdateIsRun(p: Pair, n: nat, accept: nat -> bool, fromSource: seq<(nat, bool)>, fromTarget: seq<(nat, bool)>,
                    submitWrite: nat -> bool, submitFlush: nat -> bool)
    requires Ready(p, n) && SourceBatch(UpdateStarted(p, n, accept).st, fromSource)
    requires TargetBatch(SourceAll(UpdateStarted(p, n, accept), n, fromSource, submitWrite).st, fromTarget)
    ensures var end := Updated(p, n, accept, fromSource, fromTarget, submitWrite, submitFlush);
            exists es, run :: Leads(p, n, es, end) && Performs(p, n, run, es, end)
  {
    hide Valid, Leads, Updated, Legal, Final, SourceBatch, TargetBatch;
    var end := Updated(p, n, accept, fromSource, fromTarget, submitWrite, submitFlush);
    var es := UpdateLeads(p, n, accept, fromSource, fromTarget, submitWrite, submitFlush);
    var run := LeadsIsRun(p, n, es, end);
    assert Performs(p, n, run, es, end);
  }

  /** The run is legal, consists of these events and ends in this state. */
  ghost predicate Performs(p: Pair, n: nat, run: seq<Step>, es: seq<Event>, end: Pair)
    requires Ready(p, n)
  {
    && Legal(p.st, n, run) && Final(p.st, n, run) == end.st
    && |run| == |es| && forall i :: 0 <= i < |es| ==> run[i].event == es[i]
  }
}
