/** What a channel does in one poll is a run of atomic steps of the whole device, so what is proved of
    all runs holds at every boundary of its methods. */
module ProtocolRefinement {
  import opened Disk
  import opened Metadata
  import opened Protocol
  import opened ProtocolRuns
  import F = Fetcher
  import LC = LazyChannel
  import LR = LazyChannelRuns

  function WithChan(g: G, c: nat, ch: LC.State): G
    requires c < |g.chans|
  {
    g.(chans := g.chans[c := ch])
  }

  lemma QueueInRange(g: G, c: nat)
    requires Inv(g) && c < |g.chans|
    ensures |g.w.shared.fetch| == |g.w.shared.written| && LC.InRange(g.chans[c], |g.w.shared.fetch|)
  {
    hide WorldOk, F.Valid, FetchesOk, SectorsOk, FetchOpsOk, OpOk, WellFormed;
    assert ChanOk(g.conf, g.w.shared, g.disk, g.plain, g.chans[c]);
    forall rw | rw in g.chans[c].queue ensures rw.first <= rw.last < |g.conf.src| {
      RequestInRange(g.conf, rw);
    }
  }

  lemma HeadStep(g: G, c: nat)
    requires Inv(g) && c < |g.chans| && g.chans[c].queue != []
    ensures Enabled(g, ProcessHead(c)) && g.chans[c].queue[0].last < |g.w.shared.fetch| == |g.w.shared.written|
    ensures Next(g, ProcessHead(c)) == WithChan(g, c, LC.ProcessFront(g.chans[c], g.w.shared))
  {
    QueueInRange(g, c);
    assert g.chans[c].queue[0] in g.chans[c].queue;
    hide WorldOk, F.Valid, FetchesOk, SectorsOk, FetchOpsOk, ChansOk, LC.ProcessFront;
  }

  lemma StepThenRun(g: G, step: Step, rest: seq<Step>)
    requires Inv(g) && Enabled(g, step) && Inv(Next(g, step)) && Legal(Next(g, step), rest)
    ensures Legal(g, [step] + rest) && Final(g, [step] + rest) == Final(Next(g, step), rest)
  {
    hide Inv, Enabled, Next;
    assert ([step] + rest)[0] == step && ([step] + rest)[1..] == rest;
  }

  lemma {:induction false} RunThenStep(g: G, run: seq<Step>, step: Step)
    requires Inv(g) && Legal(g, run) && Enabled(Final(g, run), step)
    ensures Legal(g, run + [step]) && Final(g, run + [step]) == Next(Final(g, run), step)
    decreases |run|
  {
    hide Inv, Enabled, Next;
    if run == [] {
      NextInv(g, step);
      assert run + [step] == [step] && [step][1..] == [];
    } else {
      NextInv(g, run[0]);
      RunThenStep(Next(g, run[0]), run[1..], step);
      assert (run + [step])[0] == run[0] && (run + [step])[1..] == run[1..] + [step];
    }
  }

  lemma {:induction false} ProcessingIsRun(g: G, c: nat) returns (run: seq<Step>)
    requires Inv(g) && c < |g.chans|
    ensures |g.w.shared.fetch| == |g.w.shared.written| && LC.InRange(g.chans[c], |g.w.shared.fetch|)
    ensures Legal(g, run)
    ensures Final(g, run) == WithChan(g, c, LC.ProcessAll(g.chans[c], g.w.shared).st)
    decreases |g.chans[c].queue|
  {
    hide Inv, Enabled, Next, LC.ProcessFront, LC.ProcessAll, LC.FateOf;
    QueueInRange(g, c);
    var ch, shared := g.chans[c], g.w.shared;
    LC.ProcessUnfolds(ch, shared);
    run := [];
    if ch.queue != [] && LC.FateOf(shared, ch.trackWritten, ch.queue[0]) != LC.Stays {
      HeadStep(g, c);
      NextInv(g, ProcessHead(c));
      var rest := ProcessingIsRun(Next(g, ProcessHead(c)), c);
      StepThenRun(g, ProcessHead(c), rest);
      run := [ProcessHead(c)] + rest;
    } else {
      assert WithChan(g, c, ch) == g;
    }
  }

  lemma ChanTidy(g: G, c: nat)
    requires Inv(g) && c < |g.chans|
    ensures LR.HeldOnce(g.chans[c]) && g.chans[c].base.Valid()
  {
    hide WorldOk, F.Valid, FetchesOk, SectorsOk, FetchOpsOk, OpOk, WellFormed, LR.HeldOnce;
    assert ChanOk(g.conf, g.w.shared, g.disk, g.plain, g.chans[c]);
  }

  /** What was just dispatched is staged, each request once. */
  lemma DispatchedStaged(g: G, c: nat)
    requires Inv(g) && c < |g.chans|
    requires |g.w.shared.fetch| == |g.w.shared.written| && LC.InRange(g.chans[c], |g.w.shared.fetch|)
    ensures var p := LC.ProcessAll(g.chans[c], g.w.shared); Staged(p.st.base, p.added)
  {
    hide Inv, LC.ProcessAll, LR.HeldOnce, LR.InResults, LC.Failures;
    ChanTidy(g, c);
    var p := LC.ProcessAll(g.chans[c], g.w.shared);
    forall id ensures LR.InResults(LC.Failures(p.added), id) <= LR.One(id in p.st.base.staged) {
      LR.ProcessHeld(g.chans[c], g.w.shared, id);
    }
  }

  /** Dispatching queued requests and submitting them, as poll does first. */
  lemma DispatchIsRun(g: G, c: nat, ok: bool) returns (run: seq<Step>)
    requires Inv(g) && c < |g.chans|
    ensures |g.w.shared.fetch| == |g.w.shared.written| && LC.InRange(g.chans[c], |g.w.shared.fetch|)
    ensures Legal(g, run)
    ensures Final(g, run) == WithChan(g, c, LC.SubmitProcessed(LC.ProcessAll(g.chans[c], g.w.shared), ok))
  {
    hide Inv, Enabled, Next, LC.ProcessAll, Legal, Final, Staged;
    QueueInRange(g, c);
    DispatchedStaged(g, c);
    var p := LC.ProcessAll(g.chans[c], g.w.shared);
    run := ProcessingIsRun(g, c);
    if p.added != [] {
      var step := SubmitAdded(c, p.added, ok);
      Submits(Final(g, run), step);
      RunThenStep(g, run, step);
      run := run + [step];
    }
  }

  lemma Submits(g: G, step: Step)
    requires Inv(g) && step.SubmitAdded? && step.c < |g.chans| && Staged(g.chans[step.c].base, step.added)
    ensures Enabled(g, step)
    ensures Next(g, step) == WithChan(g, step.c, LC.SubmitProcessed(LC.Processed(g.chans[step.c], step.added), step.ok))
  {
    hide WorldOk, F.Valid, FetchesOk, SectorsOk, FetchOpsOk, ChansOk, LC.SubmitProcessed, Staged;
  }

  lemma Takes(g: G, c: nat)
    requires Inv(g) && c < |g.chans|
    ensures Enabled(g, TakeResults(c)) && Next(g, TakeResults(c)) == WithChan(g, c, g.chans[c].(finished := []))
  {
    hide WorldOk, F.Valid, FetchesOk, SectorsOk, FetchOpsOk, ChansOk;
  }

  // ----- completions -----

  /** Only this channel and the contents of the two disks differ. */
  predicate OnlyChan(a: G, b: G, c: nat, ch: LC.State) {
    c < |a.chans| && b == WithChan(a, c, ch).(disk := b.disk, plain := b.plain)
  }

  /** A request completes with success only when the target has served all of it. */
  ghost predicate Honest(base: Chan, done: seq<(nat, bool)>) {
    forall r | r in done && r.1 :: r.0 in base.live && Served(base.live[r.0])
  }

  lemma Completes(g: G, c: nat, id: nat, ok: bool)
    requires Inv(g) && LiveOp(g, c, id) && (ok ==> Served(OpAt(g, c, id)))
    ensures Enabled(g, BaseDone(c, id, ok))
    ensures OnlyChan(g, Next(g, BaseDone(c, id, ok)), c, g.chans[c].(base := g.chans[c].base.Remove({id})))
  {
    hide WorldOk, F.Valid, FetchesOk, SectorsOk, FetchOpsOk, ChansOk, OpOk, AckAll, HardenAll, Served;
  }

  lemma RestDeliverable(base: Chan, done: seq<(nat, bool)>)
    requires done != [] && LR.Deliverable(base, done) && Honest(base, done)
    ensures var next := base.Remove({done[0].0});
            && LR.Deliverable(next, done[1..]) && Honest(next, done[1..])
            && next.Remove(LC.IdsOf(done[1..])) == base.Remove(LC.IdsOf(done))
  {
    hide Served;
    var id := done[0].0;
    assert done == [done[0]] + done[1..];
    assert LC.IdsOf(done) == {id} + LC.IdsOf(done[1..]);
    assert LR.InResults(done, id) == 1 + LR.InResults(done[1..], id);
    LR.InResultsIff(done[1..], id);
    forall x ensures LR.InResults(done[1..], x) <= 1 {
      assert LR.InResults(done, x) <= 1;
    }
    forall r | r in done[1..] ensures r.0 != id && r in done {
      assert r.0 in LC.IdsOf(done[1..]);
    }
    assert base.live - {id} - LC.IdsOf(done[1..]) == base.live - LC.IdsOf(done);
  }

  lemma {:induction false} CompletionsAreRun(g: G, c: nat, done: seq<(nat, bool)>) returns (run: seq<Step>)
    requires Inv(g) && c < |g.chans| && LR.Deliverable(g.chans[c].base, done) && Honest(g.chans[c].base, done)
    ensures Legal(g, run)
    ensures OnlyChan(g, Final(g, run), c, g.chans[c].(base := g.chans[c].base.Remove(LC.IdsOf(done))))
    decreases |done|
  {
    hide Inv, Enabled, Next, LR.Deliverable, Honest, Served;
    run := [];
    var ch := g.chans[c];
    if done == [] {
      assert ch.base.Remove(LC.IdsOf(done)) == ch.base;
      assert g.chans[c := ch] == g.chans;
    } else {
      var (id, ok) := done[0];
      FirstLive(ch.base, done);
      RestDeliverable(ch.base, done);
      var step := BaseDone(c, id, ok);
      Completes(g, c, id, ok);
      NextInv(g, step);
      var g' := Next(g, step);
      var rest := CompletionsAreRun(g', c, done[1..]);
      StepThenRun(g, step, rest);
      run := [step] + rest;
      assert g'.chans[c := Final(g', rest).chans[c]] == g.chans[c := Final(g', rest).chans[c]];
    }
  }

  lemma FirstLive(base: Chan, done: seq<(nat, bool)>)
    requires done != [] && LR.Deliverable(base, done) && Honest(base, done)
    ensures done[0].0 in base.live && (done[0].1 ==> Served(base.live[done[0].0]))
  {
    assert done[0] in done;
  }

  lemma ImageCompletes(g: G, c: nat, id: nat)
    requires Inv(g) && c < |g.chans|
    ensures Enabled(g, ImageDone(c, id))
    ensures Next(g, ImageDone(c, id)) == WithChan(g, c, g.chans[c].(image := g.chans[c].image.Remove({id})))
  {
    hide WorldOk, F.Valid, FetchesOk, SectorsOk, FetchOpsOk, ChansOk;
  }

  lemma {:induction false} ImageCompletionsAreRun(g: G, c: nat, done: seq<(nat, bool)>) returns (run: seq<Step>)
    requires Inv(g) && c < |g.chans|
    ensures Legal(g, run)
    ensures Final(g, run) == WithChan(g, c, g.chans[c].(image := g.chans[c].image.Remove(LC.IdsOf(done))))
    decreases |done|
  {
    hide Inv, Enabled, Next;
    run := [];
    var ch := g.chans[c];
    if done == [] {
      assert ch.image.Remove(LC.IdsOf(done)) == ch.image;
      assert g.chans[c := ch] == g.chans;
    } else {
      var step := ImageDone(c, done[0].0);
      ImageCompletes(g, c, done[0].0);
      NextInv(g, step);
      var rest := ImageCompletionsAreRun(Next(g, step), c, done[1..]);
      StepThenRun(g, step, rest);
      run := [step] + rest;
      assert done == [done[0]] + done[1..];
      assert LC.IdsOf(done) == {done[0].0} + LC.IdsOf(done[1..]);
      var live := ch.image.live;
      assert live - {done[0].0} - LC.IdsOf(done[1..]) == live - LC.IdsOf(done);
      assert ch.image.Remove({done[0].0}).Remove(LC.IdsOf(done[1..])) == ch.image.Remove(LC.IdsOf(done));
    }
  }

  lemma {:induction false} RunThenRun(g: G, a: seq<Step>, b: seq<Step>)
    requires Inv(g) && Legal(g, a) && Legal(Final(g, a), b)
    ensures Legal(g, a + b) && Final(g, a + b) == Final(Final(g, a), b)
    decreases |a|
  {
    hide Inv, Enabled, Next;
    if a == [] {
      assert a + b == b;
    } else {
      NextInv(g, a[0]);
      RunThenRun(Next(g, a[0]), a[1..], b);
      assert (a + b)[0] == a[0] && (a + b)[1..] == a[1..] + b;
    }
  }

  /** One poll of a channel: queued requests are dispatched and submitted, results are taken, and the
      completions of both devices are delivered. Whatever the devices deliver within their contract,
      it is a legal run that leaves the channel as poll does and everything but the disks alone. */
  lemma PollIsRun(g: G, c: nat, ok: bool, fromBase: seq<(nat, bool)>, fromImage: seq<(nat, bool)>)
      returns (run: seq<Step>)
    requires Inv(g) && c < |g.chans|
    requires |g.w.shared.fetch| == |g.w.shared.written| && LC.InRange(g.chans[c], |g.w.shared.fetch|)
    requires LR.PollEnabled(g.chans[c], g.w.shared, ok, fromBase, fromImage)
    requires Honest(LC.SubmitProcessed(LC.ProcessAll(g.chans[c], g.w.shared), ok).base, fromBase)
    ensures Legal(g, run)
    ensures OnlyChan(g, Final(g, run), c, LC.Poll(g.chans[c], g.w.shared, ok, fromBase, fromImage).st)
  {
    hide Inv, Enabled, Next, LC.ProcessAll, LC.SubmitProcessed, Legal, Final, Honest, LR.Deliverable;
    SubmitKeepsImage(g.chans[c], g.w.shared, ok);
    var s1 := LC.SubmitProcessed(LC.ProcessAll(g.chans[c], g.w.shared), ok);
    run := DispatchIsRun(g, c, ok);
    var g1 := Final(g, run);
    Takes(g1, c);
    RunThenStep(g, run, TakeResults(c));
    run := run + [TakeResults(c)];
    var g2 := Final(g, run);
    var done := CompletionsAreRun(g2, c, fromBase);
    RunThenRun(g, run, done);
    run := run + done;
    var g3 := Final(g, run);
    if g.chans[c].hasImage {
      var images := ImageCompletionsAreRun(g3, c, fromImage);
      RunThenRun(g, run, images);
      run := run + images;
    }
    var end := Final(g, run);
    assert end.chans == g.chans[c := end.chans[c]];
  }

  lemma SubmitKeepsImage(st: LC.State, shared: Shared, ok: bool)
    requires |shared.fetch| == |shared.written| && LC.InRange(st, |shared.fetch|)
    ensures LC.SubmitProcessed(LC.ProcessAll(st, shared), ok).hasImage == st.hasImage
  {
    ProcessKeepsImage(st, shared);
  }

  lemma {:induction false} ProcessKeepsImage(st: LC.State, shared: Shared)
    requires |shared.fetch| == |shared.written| && LC.InRange(st, |shared.fetch|)
    ensures LC.ProcessAll(st, shared).st.hasImage == st.hasImage
    decreases |st.queue|
  {
    hide LC.ProcessAll, LC.FateOf;
    LC.ProcessUnfolds(st, shared);
    if st.queue != [] && LC.FateOf(shared, st.trackWritten, st.queue[0]) != LC.Stays {
      ProcessKeepsImage(LC.ProcessFront(st, shared), shared);
    }
  }
}
