/** The archive reader as an object. Each method has exactly the effect of its specification. */
module ArchiveSourceMethods {
  import opened Codec
  import opened StripeMapping
  import opened Archive
  import opened ArchiveSource
  import opened ArchiveManifest

  /** The destination buffers that the reader shares with its callers. */
  class Buffers {
    var data: map<nat, seq<byte>>

    constructor ()
      ensures data == map[]
    {
      data := map[];
    }
  }

  class ArchiveStripeSource {
    const src: Source
    const buffers: Buffers
    const maxStripe: nat
    var pending: map<Hash, seq<Want>>
    var finished: seq<(nat, bool)>
    var gets: seq<Hash>

    function View(): ArchiveSource.State
      reads this, buffers
    {
      ArchiveSource.State.State(pending, finished, buffers.data, gets)
    }

    ghost predicate Ok()
      reads this, buffers
    {
      Sane(src.p) && BuffersExist(View()) && (src.hashes != map[] ==> IsMax(src.hashes, maxStripe))
    }

    constructor (src: Source, buffers: Buffers)
      requires Sane(src.p)
      ensures Ok() && this.src == src && this.buffers == buffers && View() == ArchiveSource.NewState(buffers.data)
    {
      this.src, this.buffers := src, buffers;
      pending, finished, gets := map[], [], [];
      var m: nat := 0;
      var left := src.hashes.Keys;
      while left != {}
        invariant left <= src.hashes.Keys
        invariant forall s | s in src.hashes && s !in left :: s <= m
        invariant left != src.hashes.Keys ==> m in src.hashes
        decreases left
      {
        var s :| s in left;
        left := left - {s};
        if s > m || m !in src.hashes {
          m := s;
        }
      }
      maxStripe := m;
    }

    method StripeCount() returns (n: nat)
      requires Ok()
      ensures n == ArchiveSource.StripeCount(src.hashes, maxStripe)
      ensures forall s | s in src.hashes :: s < n
      ensures n > 0 ==> n - 1 in src.hashes
    {
      n := if src.hashes == map[] then 0 else maxStripe + 1;
    }

    method HasStripe(s: nat) returns (b: bool)
      ensures b <==> s in src.hashes
    {
      b := s in src.hashes;
    }

    method Request(w: Want)
      requires Ok() && w.buf in buffers.data
      modifies this, buffers
      ensures Ok() && View() == ArchiveSource.Request(src, old(View()), w)
    {
      if w.stripe !in src.hashes || src.hashes[w.stripe].ZeroStripe? {
        buffers.data := buffers.data[w.buf := Zeros(|buffers.data[w.buf]|)];
        finished := finished + [(w.stripe, true)];
      } else {
        StartFetchStripe(w, src.hashes[w.stripe].hash);
      }
    }

    method StartFetchStripe(w: Want, h: Hash)
      modifies this
      ensures finished == old(finished)
      ensures pending == old(pending)[h := if h in old(pending) then old(pending)[h] + [w] else [w]]
      ensures gets == if h in old(pending) then old(gets) else old(gets) + [h]
    {
      if h in pending {
        pending := pending[h := pending[h] + [w]];
      } else {
        gets := gets + [h];
        pending := pending[h := [w]];
      }
    }

    method FinishStripeFetch(w: Want, data: seq<byte>, h: Hash)
      requires Sane(src.p) && w.buf in buffers.data
      modifies this, buffers
      ensures View() == FinishStripe(src, old(View()), h, data, w)
    {
      if src.p.sha(data) != h {
        finished := finished + [(w.stripe, false)];
        return;
      }
      var decoded := Decode(src.p, w.stripe, data, |buffers.data[w.buf]|);
      if decoded.None? {
        finished := finished + [(w.stripe, false)];
        return;
      }
      buffers.data := buffers.data[w.buf := decoded.value];
      finished := finished + [(w.stripe, true)];
    }

    method FinishPendingRequest(wants: seq<Want>, data: seq<byte>, h: Hash)
      requires Sane(src.p) && forall w | w in wants :: w.buf in buffers.data
      modifies this, buffers
      ensures View() == FinishPending(src, old(View()), h, data, wants)
    {
      hide FinishStripe;
      for i := 0 to |wants|
        invariant View() == FinishPending(src, old(View()), h, data, wants[..i])
      {
        assert wants[..i + 1][..i] == wants[..i] && wants[i] in wants;
        FinishStripeFetch(wants[i], data, h);
      }
      assert wants[..|wants|] == wants;
    }

    method FailPendingRequest(wants: seq<Want>)
      modifies `finished
      ensures View() == FailPending(old(View()), wants)
    {
      ghost var all := seq(|wants|, i requires 0 <= i < |wants| => (wants[i].stripe, false));
      for i := 0 to |wants|
        invariant finished == old(finished) + all[..i]
      {
        finished := finished + [(wants[i].stripe, false)];
      }
      assert all[..|wants|] == all;
    }

    method Complete(h: Hash, answer: Option<seq<byte>>)
      requires Ok()
      modifies this, buffers
      ensures Ok() && View() == Arrived(src, old(View()), h, answer)
    {
      hide FinishPending;
      if h in pending {
        var wants := pending[h];
        pending := pending - {h};
        match answer {
          case Some(data) => FinishPendingRequest(wants, data, h);
          case None => FailPendingRequest(wants);
        }
      }
    }

    method Poll(answers: seq<(Hash, Option<seq<byte>>)>) returns (results: seq<(nat, bool)>)
      requires Ok()
      modifies this, buffers
      ensures Ok() && results == ArrivedAll(src, old(View()), answers).finished
      ensures View() == ArrivedAll(src, old(View()), answers).(finished := [])
    {
      hide Arrived;
      for i := 0 to |answers|
        invariant Ok() && View() == ArrivedAll(src, old(View()), answers[..i])
      {
        assert answers[..i + 1][..i] == answers[..i];
        Complete(answers[i].0, answers[i].1);
      }
      assert answers[..|answers|] == answers;
      results := finished;
      finished := [];
    }

    method Busy() returns (b: bool)
      ensures b <==> pending != map[] || finished != []
    {
      b := pending != map[] || finished != [];
    }
  }

  /** Opens an archive from what the store returns for its metadata and its mapping: None if either is
      missing, of another version, or not authentic. */
  method OpenArchive(t: Tools, metadata: Option<seq<byte>>, mapping: Option<seq<byte>>, buffers: Buffers)
    returns (r: Option<ArchiveStripeSource>)
    requires ToolsOk(t)
    ensures r.Some? <==> Opened(t, metadata, mapping).Some?
    ensures r.Some? ==> r.value.Ok() && fresh(r.value) && r.value.src == Opened(t, metadata, mapping).value
                        && r.value.buffers == buffers && r.value.View() == ArchiveSource.NewState(buffers.data)
  {
    hide Deserialize, TagHolds;
    if metadata.None? {
      return None;
    }
    var m := t.fromJson(metadata.value);
    if m.None? || m.value.version != FORMAT_VERSION {
      return None;
    }
    var key := t.unwrap(m.value.hmacKey);
    if key.None? || |key.value| != HMAC_KEY_BYTES || !TagHolds(t, m.value, key.value) {
      return None;
    }
    var cipher := CipherOf(t, m.value.encryptionKey);
    if cipher.None? || mapping.None? {
      return None;
    }
    var hashes := Deserialize(t.format, mapping.value, key.value, cipher.value);
    if hashes.None? {
      return None;
    }
    var p := Params(CompressionOf(t, m.value.compression), cipher.value, m.value.stripeSectors, t.sha);
    var source := new ArchiveStripeSource(Source(p, hashes.value), buffers);
    r := Some(source);
  }
}
