/** The lazy channel as an object. Each method has exactly the effect of its specification. */
module LazyChannelMethods {
  import opened Metadata
  import opened Disk
  import opened LazyChannel

  /** The sending half of the channel to the background worker; room is the number of messages the
      receiver still takes before it goes away. */
  class Sender {
    var room: nat
    var msgs: seq<Msg>

    constructor (room: nat)
      ensures this.room == room && msgs == []
    {
      this.room, msgs := room, [];
    }

    method Send(m: Msg) returns (ok: bool)
      modifies this
      ensures ok == (old(room) > 0)
      ensures ok ==> room == old(room) - 1 && msgs == old(msgs) + [m]
      ensures !ok ==> room == old(room) && msgs == old(msgs)
    {
      ok := room > 0;
      if ok {
        room, msgs := room - 1, msgs + [m];
      }
    }
  }

  class LazyIoChannel {
    const base: IoChannel
    const image: IoChannel?
    const worker: Sender
    const shared: SharedMetadataState
    const stripeSectors: nat
    const trackWritten: bool
    var queue: seq<RW>
    var finished: seq<(nat, bool)>
    var requested: set<nat>

    ghost predicate Valid()
      reads this, base, image, shared
    {
      && image != base
      && stripeSectors > 0
      && |shared.fetch| == |shared.written|
      && InRange(View(), |shared.fetch|)
    }

    ghost function View(): State
      reads this, base, image
    {
      State(queue, finished, requested, base.View(), if image == null then Chan(map[], {}) else image.View(),
            image != null, trackWritten)
    }

    constructor (base: IoChannel, image: IoChannel?, worker: Sender, shared: SharedMetadataState, stripeSectors: nat,
                 track: bool)
      requires image != base && stripeSectors > 0 && |shared.fetch| == |shared.written|
      requires base.View() == Chan(map[], {}) && (image != null ==> image.View() == Chan(map[], {}))
      ensures Valid() && View() == NewState(image != null, track)
      ensures this.base == base && this.image == image && this.worker == worker && this.shared == shared
      ensures this.stripeSectors == stripeSectors
    {
      this.base, this.image, this.worker, this.shared := base, image, worker, shared;
      this.stripeSectors, this.trackWritten := stripeSectors, track;
      queue, finished, requested := [], [], {};
    }

    method RequestStripesFetchStatus(rw: RW) returns (r: Status)
      requires rw.last < |shared.fetch|
      ensures r == StatusFrom(shared.View(), rw.first, rw.last)
    {
      var i := rw.first;
      while i <= rw.last
        invariant i <= rw.last ==> StatusFrom(shared.View(), rw.first, rw.last) == StatusFrom(shared.View(), i, rw.last)
        invariant i > rw.last ==> StatusFrom(shared.View(), rw.first, rw.last) == Complete
      {
        match shared.fetch[i] {
          case NotFetched => return Pending;
          case Failed => return FailedStripe(i);
          case _ =>
        }
        i := i + 1;
      }
      r := Complete;
    }

    method RequestStripesWritten(rw: RW) returns (r: bool)
      requires rw.first <= rw.last < |shared.written|
      ensures r == AllWritten(shared.View(), rw.first, rw.last)
    {
      for i := rw.first to rw.last + 1
        invariant forall s | rw.first <= s < i :: shared.written[s]
      {
        if !shared.written[i] {
          return false;
        }
      }
      r := true;
    }

    /** Asks for one stripe, unless it is fetched or asked for. */
    method RequestFetch(i: nat) returns (ok: bool)
      requires i < |shared.fetch|
      modifies `requested, worker
      ensures var needed := !shared.View().FetchedIfNeeded(i) && i !in old(requested);
              && ok == (old(worker.room) > 0 || !needed)
              && requested == (if needed && ok then old(requested) + {i} else old(requested))
              && worker.msgs == (if needed && ok then old(worker.msgs) + [Fetch(i)] else old(worker.msgs))
              && worker.room == (if needed && ok then old(worker.room) - 1 else old(worker.room))
    {
      ok := true;
      if shared.fetch[i] != Fetched && shared.fetch[i] != NoSource && i !in requested {
        ok := worker.Send(Fetch(i));
        if ok {
          requested := requested + {i};
        }
      }
    }

    /** Asks for every stripe of the request that is neither fetched nor asked for; stops at the
        first message that is not received. */
    method StartStripeFetches(rw: RW) returns (ok: bool)
      requires rw.first <= rw.last < |shared.fetch|
      modifies `requested, worker
      ensures var f := FetchesFrom(shared.View(), old(requested), rw.first, rw.last);
              var sent := Prefix(f, old(worker.room));
              && ok == (|f| <= old(worker.room))
              && requested == old(requested) + Elems(sent)
              && worker.msgs == old(worker.msgs) + FetchMessages(sent)
              && worker.room == old(worker.room) - |sent|
    {
      hide FetchMessages, Elems, FetchesFrom;
      ghost var f := FetchesFrom(shared.View(), requested, rw.first, rw.last);
      ghost var sent: seq<nat> := [];
      SentNone();
      for i := rw.first to rw.last + 1
        invariant f == sent + FetchesFrom(shared.View(), old(requested), i, rw.last)
        invariant forall s | s in sent :: s < i
        invariant requested == old(requested) + Elems(sent)
        invariant worker.msgs == old(worker.msgs) + FetchMessages(sent)
        invariant worker.room == old(worker.room) - |sent|
      {
        FetchesUnfold(shared.View(), old(requested), i, rw.last);
        SentBefore(sent, i);
        SentMore(sent, i);
        ghost var needed := !shared.View().FetchedIfNeeded(i) && i !in requested;
        ok := RequestFetch(i);
        if !ok {
          assert f[..|sent|] == sent;
          return;
        }
        sent := if needed then sent + [i] else sent;
      }
      FetchesEnd(shared.View(), old(requested), rw.last);
      assert f == sent;
      ok := true;
    }

    method StartStripeSetWritten(rw: RW) returns (ok: bool)
      requires rw.first <= rw.last < |shared.written|
      modifies worker
      ensures var u := UnwrittenFrom(shared.View(), rw.first, rw.last);
              var sent := Prefix(u, old(worker.room));
              && ok == (|u| <= old(worker.room))
              && worker.msgs == old(worker.msgs) + WrittenMessages(sent)
              && worker.room == old(worker.room) - |sent|
    {
      ghost var u := UnwrittenFrom(shared.View(), rw.first, rw.last);
      ghost var sent: seq<nat> := [];
      for i := rw.first to rw.last + 1
        invariant u == sent + UnwrittenFrom(shared.View(), i, rw.last)
        invariant worker.msgs == old(worker.msgs) + WrittenMessages(sent)
        invariant worker.room == old(worker.room) - |sent|
      {
        if !shared.written[i] {
          ok := worker.Send(SetWritten(i));
          if !ok {
            assert u[..|sent|] == sent;
            return;
          }
          assert WrittenMessages(sent + [i]) == WrittenMessages(sent) + [SetWritten(i)];
          sent := sent + [i];
        }
      }
      ok := true;
    }

    method ForgetRequested(first: nat, last: nat)
      requires first <= last
      modifies `requested
      ensures requested == Outside(old(requested), first, last)
    {
      for i := first to last + 1
        invariant requested == set s | s in old(requested) && !(first <= s < i)
      {
        requested := requested - {i};
      }
    }

    method Dispatch(rw: RW)
      modifies base
      ensures base.View() == old(base.View()).Add(rw.id, OpOf(rw))
    {
      if rw.out {
        base.AddWrite(rw.off, rw.data, rw.id);
      } else {
        base.AddRead(rw.off, rw.cnt, rw.id);
      }
    }

    /** One turn of the loop over the queue. */
    method ProcessHead() returns (fate: Fate)
      requires Valid() && queue != []
      modifies this, base
      ensures Valid()
      ensures fate == FateOf(shared.View(), trackWritten, old(queue[0]))
      ensures View() == ProcessFront(old(View()), shared.View())
    {
      var front := queue[0];
      assert front in queue;
      var status := RequestStripesFetchStatus(front);
      match status {
        case Pending => return Stays;
        case FailedStripe(_) =>
          queue := queue[1..];
          finished := finished + [(front.id, false)];
          return Fails;
        case Complete =>
      }
      if trackWritten && front.out {
        var written := RequestStripesWritten(front);
        if !written {
          return Stays;
        }
      }
      ForgetRequested(front.first, front.last);
      queue := queue[1..];
      Dispatch(front);
      fate := Goes;
    }

    /** Dispatches or fails requests from the head of the queue until one has to wait. */
    method DrainQueue() returns (added: seq<nat>)
      requires Valid()
      modifies this, base
      ensures Valid()
      ensures Processed(View(), added) == ProcessAll(old(View()), shared.View())
    {
      hide FateOf, ProcessAll, ProcessFront, StatusFrom;
      added := [];
      var stays := false;
      while queue != [] && !stays
        invariant Valid()
        invariant ProcessAll(old(View()), shared.View()).st == ProcessAll(View(), shared.View()).st
        invariant ProcessAll(old(View()), shared.View()).added == added + ProcessAll(View(), shared.View()).added
        invariant stays ==> queue != [] && queue[0] in queue && FateOf(shared.View(), trackWritten, queue[0]) == Stays
        decreases |queue|, !stays
      {
        ProcessUnfolds(View(), shared.View());
        var id := queue[0].id;
        var fate := ProcessHead();
        if fate == Goes {
          added := added + [id];
        }
        stays := fate == Stays;
      }
      ProcessUnfolds(View(), shared.View());
    }

    method ProcessQueuedRwRequests(submitOk: bool)
      requires Valid()
      modifies this, base
      ensures Valid()
      ensures View() == SubmitProcessed(ProcessAll(old(View()), shared.View()), submitOk)
    {
      hide ProcessAll;
      var added := DrainQueue();
      if added != [] {
        base.Submit(submitOk);
        if !submitOk {
          FailAll(added);
        }
      }
    }

    method FailAll(ids: seq<nat>)
      modifies `finished
      ensures finished == old(finished) + Failures(ids)
    {
      for i := 0 to |ids|
        invariant finished == old(finished) + Failures(ids)[..i]
      {
        finished := finished + [(ids[i], false)];
      }
    }

    function RequestOf(id: nat, out: bool, off: nat, cnt: nat, data: seq<Val>): RW
      requires stripeSectors > 0 && cnt > 0
    {
      RW(id, out, off, cnt, data, off / stripeSectors, (off + cnt - 1) / stripeSectors)
    }

    method AddRead(off: nat, cnt: nat, id: nat)
      requires Valid() && cnt > 0 && (off + cnt - 1) / stripeSectors < |shared.fetch|
      modifies this, base, image, worker
      ensures Valid()
      ensures View() == LazyChannel.Add(old(View()), shared.View(), RequestOf(id, false, off, cnt, []),
                                        old(worker.room))
      ensures worker.msgs == old(worker.msgs)
                             + Messages(old(View()), shared.View(), RequestOf(id, false, off, cnt, []),
                                        old(worker.room))
    {
      var rw := RequestOf(id, false, off, cnt, []);
      RangeOrdered(off, off + cnt - 1, stripeSectors);
      var status := RequestStripesFetchStatus(rw);
      match status {
        case Complete =>
          base.AddRead(off, cnt, id);
          return;
        case FailedStripe(_) =>
          finished := finished + [(id, false)];
          return;
        case Pending =>
      }
      if rw.first == rw.last && image != null {
        image.AddRead(off, cnt, id);
        return;
      }
      SentInOrder(FetchesFrom(shared.View(), requested, rw.first, rw.last), [], worker.room);
      SentNone();
      var ok := StartStripeFetches(rw);
      if ok {
        queue := queue + [rw];
      } else {
        finished := finished + [(id, false)];
      }
    }

    method AddWrite(off: nat, data: seq<Val>, id: nat)
      requires Valid() && |data| > 0 && (off + |data| - 1) / stripeSectors < |shared.fetch|
      modifies this, base, worker
      ensures Valid()
      ensures View() == LazyChannel.Add(old(View()), shared.View(), RequestOf(id, true, off, |data|, data),
                                        old(worker.room))
      ensures worker.msgs == old(worker.msgs)
                             + Messages(old(View()), shared.View(), RequestOf(id, true, off, |data|, data),
                                        old(worker.room))
    {
      var rw := RequestOf(id, true, off, |data|, data);
      RangeOrdered(off, off + |data| - 1, stripeSectors);
      var status := RequestStripesFetchStatus(rw);
      match status {
        case Complete =>
          var canStart := !trackWritten;
          if trackWritten {
            canStart := RequestStripesWritten(rw);
          }
          if canStart {
            base.AddWrite(off, data, id);
            return;
          }
        case FailedStripe(_) =>
          finished := finished + [(id, false)];
          return;
        case Pending =>
      }
      EnqueueWrite(rw);
    }

    method EnqueueWrite(rw: RW)
      requires Valid() && rw.out && rw.first <= rw.last < |shared.fetch|
      requires RouteOf(View(), shared.View(), rw) == ToQueue
      modifies this, worker
      ensures Valid()
      ensures View() == Enqueue(old(View()), shared.View(), rw, old(worker.room))
      ensures worker.msgs == old(worker.msgs) + Messages(old(View()), shared.View(), rw, old(worker.room))
    {
      hide RouteOf, FetchesFrom, UnwrittenFrom, FetchMessages, WrittenMessages, Elems;
      SentNone();
      SentInOrder(FetchesFrom(shared.View(), requested, rw.first, rw.last),
                  ToMark(View(), shared.View(), rw), worker.room);
      var ok := StartStripeFetches(rw);
      if ok && trackWritten {
        ok := StartStripeSetWritten(rw);
      }
      if ok {
        queue := queue + [rw];
      } else {
        finished := finished + [(rw.id, false)];
      }
    }

    method AddFlush(id: nat)
      requires Valid()
      modifies base
      ensures Valid() && View() == LazyChannel.AddFlush(old(View()), id)
    {
      base.AddFlush(id);
    }

    method Submit(imageOk: bool, baseOk: bool) returns (ok: bool)
      requires Valid()
      modifies base, image
      ensures Valid() && View() == LazyChannel.Submit(old(View()), imageOk, baseOk)
      ensures ok == ((image == null || imageOk) && baseOk)
    {
      if image != null {
        image.Submit(imageOk);
        if !imageOk {
          return false;
        }
      }
      base.Submit(baseOk);
      ok := baseOk;
    }

    method Poll(submitOk: bool, fromBase: seq<(nat, bool)>, fromImage: seq<(nat, bool)>)
        returns (results: seq<(nat, bool)>)
      requires Valid()
      modifies this, base, image
      ensures Valid()
      ensures Polled(View(), results) == LazyChannel.Poll(old(View()), shared.View(), submitOk, fromBase, fromImage)
    {
      ProcessQueuedRwRequests(submitOk);
      results := finished;
      finished := [];
      var done := base.Poll(fromBase);
      results := results + done;
      if image != null {
        done := image.Poll(fromImage);
        results := results + done;
      }
    }

    method Busy() returns (r: bool)
      ensures r <==> base.live != map[] || (image != null && image.live != map[]) || queue != []
    {
      r := base.live != map[] || (image != null && image.live != map[]) || queue != [];
    }
  }

  lemma FetchesUnfold(shared: Shared, requested: set<nat>, i: nat, last: nat)
    requires i <= last < |shared.fetch|
    ensures var rest := FetchesFrom(shared, requested, i + 1, last);
            FetchesFrom(shared, requested, i, last) == if !shared.FetchedIfNeeded(i)
                && i !in requested then [i] + rest else rest
  {
  }

  lemma FetchesEnd(shared: Shared, requested: set<nat>, last: nat)
    requires last < |shared.fetch|
    ensures FetchesFrom(shared, requested, last + 1, last) == []
  {
  }

  /** Fetch messages go first, and the messages after them only when all were received. */
  lemma SentInOrder(f: seq<nat>, u: seq<nat>, room: nat)
    ensures Prefix(FetchMessages(f) + WrittenMessages(u), room)
            == FetchMessages(Prefix(f, room)) + if |f| <= room then WrittenMessages(Prefix(u, room - |f|)) else []
  {
    assert |FetchMessages(f)| == |f| && |WrittenMessages(u)| == |u|;
    if |f| > room {
      assert FetchMessages(f)[..room] == FetchMessages(f[..room]);
    } else if |u| > room - |f| {
      assert WrittenMessages(u)[..room - |f|] == WrittenMessages(u[..room - |f|]);
    }
  }

  lemma SentNone()
    ensures FetchMessages([]) == [] && WrittenMessages([]) == [] && Elems([]) == {}
  {
  }

  lemma SentBefore(sent: seq<nat>, i: nat)
    requires forall s | s in sent :: s < i
    ensures i !in Elems(sent)
  {
  }

  lemma SentMore(sent: seq<nat>, i: nat)
    ensures FetchMessages(sent + [i]) == FetchMessages(sent) + [Fetch(i)]
    ensures Elems(sent + [i]) == Elems(sent) + {i}
  {
  }
}
