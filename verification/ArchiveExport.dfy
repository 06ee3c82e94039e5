/** The whole way: a device is archived, the archive is opened and exported again. */
module ArchiveExport {
  import opened Codec
  import opened StripeMapping
  import opened Archive
  import opened ArchiveRuns
  import opened ArchiveSource
  import opened ArchiveManifest
  import opened ArchiveSourceMethods
  import opened ArchiverMethods
  import opened Export
  import EM = ExportMethods

  /** Which objects the store answers in round t to a reader in this state. */
  type Order = (nat, ArchiveSource.State) -> seq<Hash>

  function Answer(objects: map<Hash, seq<byte>>, h: Hash): (Hash, Option<seq<byte>>) {
    (h, if h in objects then Some(objects[h]) else None)
  }

  function AnswerAll(objects: map<Hash, seq<byte>>, hashes: seq<Hash>): (r: seq<(Hash, Option<seq<byte>>)>)
    ensures forall a | a in r :: HonestAnswer(objects, a)
    ensures forall h | h in hashes :: Answer(objects, h) in r
  {
    if hashes == [] then [] else [Answer(objects, hashes[0])] + AnswerAll(objects, hashes[1..])
  }

  /** While something is waited for, every round answers some of it. */
  ghost predicate KeepsAnswering(order: Order) {
    forall t, st: ArchiveSource.State :: st.pending != map[] ==> exists h :: h in order(t, st) && h in st.pending
  }

  /** The image has this many stripes, among them all that were archived. It holds, stripe by stripe, what
      the archiver had, and zeros where nothing was archived. */
  ghost predicate IsImage(job: Job, st: Archive.State, count: nat, image: seq<byte>)
    requires Sizes(job)
  {
    var size := StripeBytes(job.p);
    && |image| == count * size && (forall s | s in st.hashes :: s < count)
    && forall s: nat | s < count :: (s + 1) * size <= |image| && IsStripe(job, st, s, Chunk(image, size, s))
  }

  ghost predicate IsStripe(job: Job, st: Archive.State, s: nat, x: seq<byte>)
    requires Sizes(job)
  {
    if s < |job.headers| && ShouldBeArchived(job, s)
    then s in st.views && x == st.views[s] && (st.strayReads == 0 ==> ViewOf(job, s) <= x)
    else x == Zeros(StripeBytes(job.p))
  }

  lemma ImageExported(a: StripeArchiver, st: Archive.State, count: nat, image: seq<byte>)
    requires ToolsOk(a.tools) && Describes(a.tools, a.metadata, a.hmacKey, a.job.p)
    requires JobOk(a.job) && Finished(a.job, st) && st.strayPuts == 0 && Sane(a.job.p)
    requires Collisionless(a.job.p, st.views) && forall s | s in st.hashes :: s < count
    requires EM.IsExport(Source(a.job.p, st.hashes), Some(st.objects), count, image)
    ensures IsImage(a.job, st, count, image)
  {
    hide Finished, Opened, Serialize, JobOk, ToolsOk, Describes, Collisionless, EM.IsExport;
    JobSizes(a.job);
    EM.ExportSize(Source(a.job.p, st.hashes), Some(st.objects), count, image);
    forall s: nat | s < count
      ensures (s + 1) * StripeBytes(a.job.p) <= |image| && IsStripe(a.job, st, s, Chunk(image, StripeBytes(a.job.p), s))
    {
      EM.ExportedImage(a.tools, a.metadata, a.hmacKey, a.job, st, count, image, s);
    }
  }

  lemma AnswersHonest(objects: map<Hash, seq<byte>>, order: Order, answers: EM.Answers, store: Trust)
    requires forall t, st :: answers(t, st) == AnswerAll(objects, order(t, st))
    requires store.Some? ==> store.value == objects
    ensures EM.AlwaysExpected(store, answers)
    ensures KeepsAnswering(order) ==> EM.AlwaysLively(answers)
  {
    if KeepsAnswering(order) {
      forall t, st: ArchiveSource.State ensures EM.Lively(st, answers(t, st)) {
        if st.pending != map[] {
          var h :| h in order(t, st) && h in st.pending;
          assert Answer(objects, h) in answers(t, st);
        }
      }
    }
  }

  /** Archives the device, opens the archive with what was put last, and exports it from the store. If the
      archiving ends, with results of outstanding puts only and without a collision, then what is exported
      is the image; and the export succeeds if every round answers something that is waited for. */
  method ArchiveAndExport(archiver: StripeArchiver, script: seq<Tick>, metadataOk: bool, mappingOk: bool, order: Order,
                          rounds: nat)
    returns (ok: bool, image: seq<byte>, ghost count: nat)
    requires archiver.Ok() && Reached(archiver.job, archiver.View(), 0)
    requires ToolsOk(archiver.tools) && Describes(archiver.tools, archiver.metadata, archiver.hmacKey, archiver.job.p)
    modifies archiver.Parts()
    ensures var job, ran := archiver.job, Run(archiver.job, old(archiver.View()), 0, script);
            && (ok ==> ran.Done? && metadataOk && mappingOk)
            && (ran.Done? && ran.st.strayPuts == 0 && Collisionless(job.p, ran.st.views) ==>
                  && (ok ==> IsImage(job, ran.st, count, image))
                  && (metadataOk && mappingOk && KeepsAnswering(order) && rounds >= |job.headers| ==> ok))
  {
    hide Inv, Reached, Run, ToolsOk, Describes, Opened, Collisionless, IsImage, KeepsAnswering, Finished;
    hide JobOk, Serialize;
    hide EM.AlwaysExpected, EM.AlwaysLively, EM.IsExport, Serves, Tagged;
    var job := archiver.job;
    JobSane(job);
    count := 0;
    var archived := archiver.ArchiveAll(script, metadataOk, mappingOk);
    if archived != Archived {
      return false, [], 0;
    }
    ghost var st := archiver.View();
    var log := archiver.store.log;
    var metadata, mapping := log[|log| - 2].bytes, log[|log| - 1].bytes;
    OpenRoundTrip(archiver.tools, archiver.metadata, archiver.hmacKey, job.p, archiver.stripeHashes);
    var buffers := new Buffers();
    var reader := OpenArchive(archiver.tools, Some(metadata), Some(mapping), buffers);
    var source := reader.value;
    var objects := archiver.store.objects;
    var answers: EM.Answers := (t, x) => AnswerAll(objects, order(t, x));
    ghost var store := if st.strayPuts == 0 && Collisionless(job.p, st.views) then Some(objects) else None;
    AnswersHonest(objects, order, answers, store);
    if store.Some? {
      ArchiveServes(job, st, 0);
    }
    ManifestComplete(job, st);
    var r;
    r, image := EM.ExportArchive(source, answers, rounds, store);
    ok := r == EM.Exported;
    count := ArchiveSource.StripeCount(source.src.hashes, source.maxStripe);
    if ok && store.Some? {
      ImageExported(archiver, st, count, image);
    }
  }
}
