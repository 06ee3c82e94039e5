/** An update of the background worker, seen from the whole device: its actions are steps of the
    protocol, and whatever the devices and the guests do in between, the worker's own state after it
    is what the update computes. */
module WorkerRefinement {
  import opened Metadata
  import opened Protocol
  import opened ProtocolFetch
  import opened ProtocolRuns
  import PT = ProtocolTheorems
  import F = Fetcher
  import FX = FetcherRuns
  import FM = FetcherMethods
  import FXR = FetcherRefinement
  import FL = Flusher
  import FC = FlusherCrash
  import FR = FlusherRuns
  import FLM = FlusherMethods
  import FLR = FlusherRefinement
  import W = Worker

  /** What the worker's methods see of the device. */
  function Seen(g: G): W.State {
    W.State(g.fe, g.w.fl, g.w.shared, false)
  }

  predicate WorkerSide(step: Step) {
    step.Autofetch? || step.StartFetch? || step.SourceDone? || step.TargetDone? || step.HandOver? || step.Meta?
  }

  function FetcherSide(x: W.State): FM.Pair {
    FM.Pair(x.fe, x.shared)
  }

  function FlusherSide(x: W.State): FLR.Both {
    FLR.Both(x.fl, x.shared)
  }

  function EventOf(step: Step): FX.Event
    requires step.Autofetch? || step.StartFetch? || step.SourceDone? || step.TargetDone?
  {
    match step
    case Autofetch => FX.Autofetched
    case StartFetch(accepted) => FX.Started(accepted)
    case SourceDone(s, ok, submitted) => FX.FromSource(s, ok, submitted)
    case TargetDone(s, ok, submitted) => FX.FromTarget(s, ok, submitted)
  }

  // ----- the worker's actions on its own state -----

  ghost predicate Can(x: W.State, n: nat, step: Step) {
    match step
    case HandOver => x.fe.finished != []
    case Meta(e) => FLR.Can(FlusherSide(x), e)
    case Autofetch => FXR.Can(FetcherSide(x), n, EventOf(step))
    case StartFetch(_) => FXR.Can(FetcherSide(x), n, EventOf(step))
    case SourceDone(_, _, _) => FXR.Can(FetcherSide(x), n, EventOf(step))
    case TargetDone(_, _, _) => FXR.Can(FetcherSide(x), n, EventOf(step))
    case _ => false
  }

  ghost function Act(x: W.State, n: nat, step: Step): (r: W.State)
    requires W.Valid(x, n) && Can(x, n, step)
    ensures W.Valid(r, n)
  {
    if step.HandOver? then Handed(x, n)
    else if step.Meta? then
      hide FL.Valid, FLR.Can, FLR.Act;
      var b := FLR.Act(FlusherSide(x), step.e);
      x.(fl := b.fl, shared := b.shared)
    else
      hide F.Valid, FL.Valid, FXR.Can, FXR.Act;
      var p := FXR.Act(FetcherSide(x), n, EventOf(step));
      x.(fe := p.st, shared := p.shared)
  }

  /** The first finished fetch is passed on to the flusher. */
  ghost function Handed(x: W.State, n: nat): (r: W.State)
    requires W.Valid(x, n) && x.fe.finished != []
    ensures W.Valid(r, n)
  {
    var (s, ok) := x.fe.finished[0];
    assert x.fe.finished[0] in x.fe.finished;
    x.(fe := x.fe.(finished := x.fe.finished[1..]),
       fl := if ok then x.fl.(queue := x.fl.queue + [FL.Request(s, FetchedBit)]) else x.fl)
  }

  /** The actions can be taken one after the other and lead from x to y. */
  ghost predicate Leads(x: W.State, n: nat, steps: seq<Step>, y: W.State)
    requires W.Valid(x, n)
    decreases |steps|
  {
    if steps == [] then x == y else Can(x, n, steps[0]) && Leads(Act(x, n, steps[0]), n, steps[1..], y)
  }

  lemma {:induction false} LeadsOn(x: W.State, n: nat, a: seq<Step>, y: W.State, b: seq<Step>, z: W.State)
    requires W.Valid(x, n) && Leads(x, n, a, y) && W.Valid(y, n) && Leads(y, n, b, z)
    ensures Leads(x, n, a + b, z)
    decreases |a|
  {
    hide W.Valid, Can, Act;
    if a == [] {
      assert a + b == b;
    } else {
      assert (a + b)[0] == a[0] && (a + b)[1..] == a[1..] + b;
      LeadsOn(Act(x, n, a[0]), n, a[1..], y, b, z);
    }
  }

  lemma {:induction false} LeadsToOne(x: W.State, n: nat, steps: seq<Step>, y: W.State, z: W.State)
    requires W.Valid(x, n) && Leads(x, n, steps, y) && Leads(x, n, steps, z)
    ensures y == z
    decreases |steps|
  {
    hide W.Valid, Can, Act;
    if steps != [] {
      LeadsToOne(Act(x, n, steps[0]), n, steps[1..], y, z);
    }
  }

  // ----- the actions of one update -----

  function StepOf(e: FX.Event): Step
    requires !e.Asked? && !e.Taken?
  {
    match e
    case Autofetched => Autofetch
    case Started(accepted) => StartFetch(accepted)
    case FromSource(s, ok, submitted) => SourceDone(s, ok, submitted)
    case FromTarget(s, ok, submitted) => TargetDone(s, ok, submitted)
  }

  lemma {:induction false} FetcherActs(x: W.State, n: nat, es: seq<FX.Event>, q: FM.Pair) returns (steps: seq<Step>)
    requires W.Valid(x, n) && FXR.Leads(FetcherSide(x), n, es, q) && FXR.Internal(es)
    ensures Leads(x, n, steps, x.(fe := q.st, shared := q.shared))
    decreases |es|
  {
    hide F.Valid, FL.Valid, FXR.Can, FXR.Act;
    steps := [];
    if es != [] {
      assert es[0] in es;
      var step := StepOf(es[0]);
      assert EventOf(step) == es[0];
      var rest := FetcherActs(Act(x, n, step), n, es[1..], q);
      steps := [step] + rest;
      assert steps[1..] == rest;
    }
  }

  lemma {:induction false} FlusherActs(x: W.State, n: nat, es: seq<FC.Event>, b: FLR.Both) returns (steps: seq<Step>)
    requires W.Valid(x, n) && FLR.Leads(FlusherSide(x), es, b)
    ensures Leads(x, n, steps, x.(fl := b.fl, shared := b.shared))
    decreases |es|
  {
    hide F.Valid, FL.Valid, FLR.Can, FLR.Act;
    steps := [];
    if es != [] {
      var rest := FlusherActs(Act(x, n, Meta(es[0])), n, es[1..], b);
      steps := [Meta(es[0])] + rest;
      assert steps[1..] == rest;
    }
  }

  lemma {:induction false} RequestsFromFront(finished: seq<(nat, bool)>)
    requires finished != []
    ensures W.FetchedRequests(finished)
            == (if finished[0].1 then [FL.Request(finished[0].0, FetchedBit)] else [])
               + W.FetchedRequests(finished[1..])
  {
    hide W.FetchedRequests;
    var k := |finished| - 1;
    RequestsUnfold(finished);
    NoRequests();
    if k == 0 {
      assert finished[..0] == [] && finished[1..] == [];
    } else {
      RequestsFromFront(finished[..k]);
      RequestsUnfold(finished[1..]);
      assert finished[..k][1..] == finished[1..][..k - 1];
    }
  }

  lemma RequestsUnfold(finished: seq<(nat, bool)>)
    requires finished != []
    ensures var k := |finished| - 1;
            W.FetchedRequests(finished)
            == W.FetchedRequests(finished[..k]) + if finished[k].1 then [FL.Request(finished[k].0, FetchedBit)] else []
  {
  }

  lemma {:induction false} HandingActs(x: W.State, n: nat) returns (steps: seq<Step>)
    requires W.Valid(x, n)
    ensures Leads(x, n, steps, x.(fe := x.fe.(finished := []), fl := W.Asked(x.fl, x.fe.finished)))
    decreases |x.fe.finished|
  {
    hide F.Valid, FL.Valid, W.FetchedRequests;
    steps := [];
    if x.fe.finished == [] {
      assert W.FetchedRequests([]) == [] by { NoRequests(); }
    } else {
      RequestsFromFront(x.fe.finished);
      var y := Act(x, n, HandOver);
      var rest := HandingActs(y, n);
      steps := [HandOver] + rest;
      assert steps[1..] == rest;
      assert W.Asked(y.fl, y.fe.finished) == W.Asked(x.fl, x.fe.finished);
    }
  }

  lemma NoRequests()
    ensures W.FetchedRequests([]) == []
  {
  }

  /** The actions of one update. */
  lemma UpdateActs(x: W.State, n: nat, env: W.Env) returns (steps: seq<Step>)
    requires W.Valid(x, n) && W.Answers(FetcherSide(x), n, env)
    ensures Leads(x, n, steps, W.Updated(x, n, env))
  {
    hide F.Valid, FL.Valid, Leads, FXR.Leads, FLR.Leads, W.FetchedRequests, FLR.Updated, FM.PollSpec, FM.UpdateStarted;
    hide FM.SourceAll, FLM.PollSpec, FLM.StartWritesSpec, FLM.PublishAll, FLM.Finished;
    var es := FXR.UpdateLeads(FetcherSide(x), n, env.accept, env.fromSource, env.fromTarget, env.submitWrite,
                              env.submitFlush);
    var p := W.FetcherPolled(FetcherSide(x), n, env);
    steps := FetcherActs(x, n, es, p);
    var polled := x.(fe := p.st, shared := p.shared);
    var hand := HandingActs(polled, n);
    W.AskedValid(x.fl, p.st, n);
    var handed := polled.(fe := p.st.(finished := []), fl := W.Asked(x.fl, p.st.finished));
    LeadsOn(x, n, steps, polled, hand, handed);
    var flushes := FLR.UpdateLeads(FlusherSide(handed), env.metaWrites, env.metaDone, env.metaFlushes);
    var b := FLR.Updated(FlusherSide(handed), env.metaWrites, env.metaDone, env.metaFlushes);
    var meta := FlusherActs(handed, n, flushes, b);
    LeadsOn(x, n, steps + hand, handed, meta, handed.(fl := b.fl, shared := b.shared));
    steps := steps + hand + meta;
    FlusherPart(handed, n, env);
  }

  lemma FlusherPart(x: W.State, n: nat, env: W.Env)
    requires W.Valid(x, n)
    ensures var mid := FLM.StartWritesSpec(x.fl, env.metaWrites);
            FLR.Updated(FlusherSide(x), env.metaWrites, env.metaDone, env.metaFlushes)
            == FLR.Both(FLM.PollSpec(mid, env.metaDone, env.metaFlushes),
                        FLM.PublishAll(x.shared, FLM.Finished(mid, env.metaDone)))
  {
    hide FL.Valid, FLM.PollSpec, FLM.StartWritesSpec, FLM.PublishAll, FLM.Finished;
  }

  // ----- in the whole device -----

  lemma SeenValid(g: G)
    requires Inv(g)
    ensures W.Valid(Seen(g), |g.conf.src|)
  {
    hide F.Valid, FetchesOk, SectorsOk, FetchOpsOk, ChansOk, FR.FetchedWithin;
    hide FC.HeadersAgree, FC.ImagesShaped, FC.PublishedDurable, FC.StagesAgree;
  }

  lemma MetaActs(g: G, e: FC.Event)
    requires Inv(g) && Enabled(g, Meta(e)) && W.Valid(Seen(g), |g.conf.src|)
    ensures Can(Seen(g), |g.conf.src|, Meta(e))
    ensures Seen(Next(g, Meta(e))) == Act(Seen(g), |g.conf.src|, Meta(e))
  {
    hide F.Valid, FetchesOk, SectorsOk, FetchOpsOk, ChansOk, FR.FetchedWithin, Settled;
    hide FC.HeadersAgree, FC.ImagesShaped, FC.PublishedDurable, FC.StagesAgree;
    MetaDefined(g, Meta(e));
  }

  lemma FetcherStepActs(g: G, step: Step)
    requires Inv(g) && Enabled(g, step) && (step.Autofetch? || step.StartFetch? || step.SourceDone? || step.TargetDone?)
    requires W.Valid(Seen(g), |g.conf.src|)
    ensures Can(Seen(g), |g.conf.src|, step)
    ensures Seen(Next(g, step)) == Act(Seen(g), |g.conf.src|, step)
  {
    hide WorldOk, F.Valid, FetchesOk, SectorsOk, FetchOpsOk, ChansOk, F.StartOne, F.SourceDone, F.TargetDone,
         F.Autofetch;
    FetchOpsKeys(g);
  }

  lemma HandOverActs(g: G)
    requires Inv(g) && Enabled(g, HandOver) && W.Valid(Seen(g), |g.conf.src|)
    ensures Seen(Next(g, HandOver)) == Act(Seen(g), |g.conf.src|, HandOver)
  {
    hide F.Valid, FetchesOk, SectorsOk, FetchOpsOk, ChansOk, FR.FetchedWithin;
    hide FC.HeadersAgree, FC.ImagesShaped, FC.PublishedDurable, FC.StagesAgree;
  }

  /** A step of the worker acts on its state as the worker's methods do. */
  lemma StepActs(g: G, step: Step)
    requires Inv(g) && Enabled(g, step) && WorkerSide(step)
    ensures W.Valid(Seen(g), |g.conf.src|) && Can(Seen(g), |g.conf.src|, step)
    ensures Seen(Next(g, step)) == Act(Seen(g), |g.conf.src|, step)
  {
    SeenValid(g);
    hide Inv, Enabled, Next, W.Valid, Act;
    if step.Meta? {
      MetaActs(g, step.e);
    } else if step.HandOver? {
      assert g.fe.finished != [] by { assert Enabled(g, step); HasFinished(g); }
      HandOverActs(g);
    } else {
      FetcherStepActs(g, step);
    }
  }

  lemma HasFinished(g: G)
    requires Inv(g) && Enabled(g, HandOver)
    ensures g.fe.finished != []
  {
    hide Inv;
  }

  /** The steps of guests and devices do not touch the worker's state. */
  lemma OthersLeave(g: G, step: Step)
    requires Inv(g) && Enabled(g, step) && !WorkerSide(step) && !step.Crash? && !step.Receive?
    ensures Seen(Next(g, step)) == Seen(g) && Next(g, step).conf == g.conf
  {
    hide WorldOk, F.Valid, FetchesOk, SectorsOk, FetchOpsOk, ChansOk;
  }

  function WorkerSteps(run: seq<Step>): seq<Step> {
    if run == [] then [] else (if WorkerSide(run[0]) then [run[0]] else []) + WorkerSteps(run[1..])
  }

  /** No crash, and the worker receives no message. */
  predicate Quiet(run: seq<Step>) {
    forall step | step in run :: !step.Crash? && !step.Receive?
  }

  /** However its steps are interleaved with those of guests and devices, the worker's state evolves
      by its own steps alone. */
  lemma {:induction false} Interleaved(g: G, run: seq<Step>)
    requires Inv(g) && Legal(g, run) && Quiet(run)
    ensures W.Valid(Seen(g), |g.conf.src|)
    ensures Leads(Seen(g), |g.conf.src|, WorkerSteps(run), Seen(Final(g, run)))
    decreases |run|
  {
    SeenValid(g);
    hide Inv, Enabled, Next, W.Valid, Can, Act;
    if run != [] {
      var step := run[0];
      assert step in run;
      NextInv(g, step);
      var g' := Next(g, step);
      PT.SameConf(g, step);
      Interleaved(g', run[1..]);
      if WorkerSide(step) {
        StepActs(g, step);
        assert WorkerSteps(run)[1..] == WorkerSteps(run[1..]);
      } else {
        OthersLeave(g, step);
        assert WorkerSteps(run) == WorkerSteps(run[1..]);
      }
    }
  }

  /** Whatever happens at the devices and on the guests' channels meanwhile: a run in which the worker
      takes the actions of one update leaves fetcher, flusher and the shared table as the update does. */
  lemma UpdateIsRun(g: G, env: W.Env, script: seq<Step>, run: seq<Step>)
    requires Inv(g) && W.Valid(Seen(g), |g.conf.src|) && W.Answers(FetcherSide(Seen(g)), |g.conf.src|, env)
    requires Leads(Seen(g), |g.conf.src|, script, W.Updated(Seen(g), |g.conf.src|, env))
    requires Legal(g, run) && Quiet(run) && WorkerSteps(run) == script
    ensures Seen(Final(g, run)) == W.Updated(Seen(g), |g.conf.src|, env)
  {
    hide Inv, Legal, Final, W.Valid, W.Answers, Leads;
    Interleaved(g, run);
    LeadsToOne(Seen(g), |g.conf.src|, script, Seen(Final(g, run)), W.Updated(Seen(g), |g.conf.src|, env));
  }

  /** What a device has to have done before it may answer with success. */
  ghost predicate DeviceReady(g: G, step: Step)
    requires Inv(g)
  {
    match step
    case SourceDone(s, ok, _) => ok ==> s in g.fe.buffers && Loaded(g.conf, g.bufs, g.fe.buffers[s], s)
    case TargetDone(s, ok, _) =>
      ok && s in g.fops && g.fops[s].Copying? ==>
        forall k: nat | k < |g.conf.stripe| && g.conf.stripe[k] == s :: k in g.fops[s].at
    case _ => true
  }

  /** The worker's next action is a step of the device as soon as the devices have done their part. */
  lemma ActionEnabled(g: G, step: Step)
    requires Inv(g) && WorkerSide(step) && Can(Seen(g), |g.conf.src|, step) && DeviceReady(g, step)
    ensures Enabled(g, step)
  {
    hide FC.Inv, F.Valid, FetchesOk, SectorsOk, ChansOk, FR.FetchedWithin, FetchOpsOk;
    FetchOpsKeys(g);
  }

  /** A message is processed as the worker's method does. */
  lemma ReceiveIsProcess(g: G)
    requires Inv(g) && Enabled(g, Receive)
    ensures g.msgs != [] && W.Known(g.msgs[0], |g.w.shared.fetch|)
    ensures Seen(Next(g, Receive)) == W.Process(Seen(g), g.msgs[0]).(done := false)
  {
    hide F.Valid, FetchesOk, SectorsOk, FetchOpsOk, ChansOk, FR.FetchedWithin;
    hide FC.HeadersAgree, FC.ImagesShaped, FC.PublishedDurable, FC.StagesAgree;
    assert g.msgs[0] in g.msgs;
  }
}
