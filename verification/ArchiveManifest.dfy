/** Opening an archive: the metadata that the archiver writes beside the objects, how it is
    authenticated, and how a reader gets from it to the mapping of stripes to objects. */
module ArchiveManifest {
  import opened Codec
  import opened Xts
  import opened StripeMapping
  import opened Archive
  import opened ArchiveSource

  const FORMAT_VERSION: nat := 1
  const HMAC_KEY_BYTES: nat := 32
  const XTS_KEY_BYTES: nat := 64
  const METADATA_DOMAIN: seq<byte> := [65, 82, 67, 72, 73, 86, 69, 95, 77, 69, 84, 65,
                                       68, 65, 84, 65, 95, 72, 77, 65, 67, 95, 86, 49]

  datatype Algorithm = Uncompressed | ZstdLevel(level: int)

  /** The keys are stored encrypted under the key of the archive's owner. */
  datatype ArchiveMetadata = ArchiveMetadata(
    version: nat,
    stripeSectors: nat,
    encryptionKey: Option<seq<byte>>,
    compression: Algorithm,
    hmacKey: seq<byte>,
    tag: seq<byte>)

  /** Serialization, the owner's key, the ciphers and the compressor. */
  datatype Tools = Tools(
    format: Format,
    toJson: ArchiveMetadata -> seq<byte>,
    fromJson: seq<byte> -> Option<ArchiveMetadata>,
    unwrap: seq<byte> -> Option<seq<byte>>,
    xts: seq<byte> -> Cipher,
    zip: int -> Zip,
    sha: seq<byte> -> Hash)

  ghost predicate ToolsOk(t: Tools) {
    && Faithful(t.format)
    && (forall key: seq<byte>, x: seq<byte> :: |t.format.mac(key, x)| == HMAC_KEY_BYTES)
    && (forall m: ArchiveMetadata :: t.fromJson(t.toJson(m)) == Some(m))
    && (forall key: seq<byte> :: Lawful(t.xts(key)))
    && (forall level: int :: Lossless(t.zip(level)))
  }

  // ----- what the tag covers -----

  /** A 32-bit number with its sign as two's complement. */
  function SignedLE(n: int): seq<byte>
    requires -0x8000_0000 <= n < 0x8000_0000
  {
    ToLE(if n < 0 then n + 0x1_0000_0000 else n, 4)
  }

  predicate Fits(m: ArchiveMetadata) {
    && m.version < Pow256(4) && m.stripeSectors < Pow256(8)
    && (m.encryptionKey.Some? ==> |m.encryptionKey.value| < Pow256(8))
    && (m.compression.ZstdLevel? ==> -0x8000_0000 <= m.compression.level < 0x8000_0000)
  }

  function KeyPart(key: Option<seq<byte>>): seq<byte> {
    if key.None? then [0] else [1] + ToLE(|key.value|, 8) + key.value
  }

  function AlgorithmPart(a: Algorithm): seq<byte>
    requires a.ZstdLevel? ==> -0x8000_0000 <= a.level < 0x8000_0000
  {
    if a.Uncompressed? then [0] else [2] + SignedLE(a.level)
  }

  function TagInput(m: ArchiveMetadata): seq<byte>
    requires Fits(m)
  {
    METADATA_DOMAIN + ToLE(m.version, 4) + ToLE(m.stripeSectors, 8) + KeyPart(m.encryptionKey)
        + AlgorithmPart(m.compression)
  }

  lemma SignedInjective(a: int, b: int)
    requires -0x8000_0000 <= a < 0x8000_0000 && -0x8000_0000 <= b < 0x8000_0000 && SignedLE(a) == SignedLE(b)
    ensures a == b
  {
    assert Pow256(4) == 0x1_0000_0000 by {
      assert Pow256(1) == 256 * Pow256(0) && Pow256(2) == 256 * Pow256(1) && Pow256(3) == 256 * Pow256(2);
    }
    LERoundTrip(if a < 0 then a + 0x1_0000_0000 else a, 4);
    LERoundTrip(if b < 0 then b + 0x1_0000_0000 else b, 4);
  }

  /** Bytes that follow their length cannot be confused with what comes after them. */
  lemma PrefixedInjective(a: seq<byte>, x: seq<byte>, b: seq<byte>, y: seq<byte>)
    requires |a| < Pow256(8) && |b| < Pow256(8) && ToLE(|a|, 8) + a + x == ToLE(|b|, 8) + b + y
    ensures a == b && x == y
  {
    hide ToLE, Pow256;
    var p, q, n := ToLE(|a|, 8) + a + x, ToLE(|b|, 8) + b + y, 8 + |a|;
    assert p[..8] == ToLE(|a|, 8) && q[..8] == ToLE(|b|, 8);
    LERoundTrip(|a|, 8);
    LERoundTrip(|b|, 8);
    assert p[8..n] == a && q[8..n] == b;
    assert p[n..] == x && q[n..] == y;
  }

  lemma HeadAndTail(x: byte, p: seq<byte>, y: byte, q: seq<byte>)
    requires [x] + p == [y] + q
    ensures x == y && p == q
  {
    assert ([x] + p)[0] == x && ([y] + q)[0] == y;
    assert ([x] + p)[1..] == p && ([y] + q)[1..] == q;
  }

  function AfterFlag(key: Option<seq<byte>>, x: seq<byte>): seq<byte> {
    if key.None? then x else ToLE(|key.value|, 8) + key.value + x
  }

  lemma KeyPartSplits(key: Option<seq<byte>>, x: seq<byte>)
    ensures KeyPart(key) + x == [if key.None? then 0 else 1] + AfterFlag(key, x)
  {
    hide ToLE;
  }

  lemma KeyPartInjective(a: Option<seq<byte>>, x: seq<byte>, b: Option<seq<byte>>, y: seq<byte>)
    requires a.Some? ==> |a.value| < Pow256(8)
    requires b.Some? ==> |b.value| < Pow256(8)
    requires KeyPart(a) + x == KeyPart(b) + y
    ensures a == b && x == y
  {
    hide ToLE, Pow256, KeyPart;
    KeyPartSplits(a, x);
    KeyPartSplits(b, y);
    HeadAndTail(if a.None? then 0 else 1, AfterFlag(a, x), if b.None? then 0 else 1, AfterFlag(b, y));
    if a.Some? {
      PrefixedInjective(a.value, x, b.value, y);
    }
  }

  /** What the tag covers determines everything in the metadata but the wrapped key of the tag itself. */
  lemma TagInputInjective(a: ArchiveMetadata, b: ArchiveMetadata)
    requires Fits(a) && Fits(b) && TagInput(a) == TagInput(b)
    ensures a.version == b.version && a.stripeSectors == b.stripeSectors
    ensures a.encryptionKey == b.encryptionKey && a.compression == b.compression
  {
    hide KeyPart, AlgorithmPart;
    var n, p, q := |METADATA_DOMAIN|, TagInput(a), TagInput(b);
    assert p[n..n + 4] == ToLE(a.version, 4) && q[n..n + 4] == ToLE(b.version, 4);
    assert p[n + 4..n + 12] == ToLE(a.stripeSectors, 8) && q[n + 4..n + 12] == ToLE(b.stripeSectors, 8);
    assert p[n + 12..] == KeyPart(a.encryptionKey) + AlgorithmPart(a.compression);
    assert q[n + 12..] == KeyPart(b.encryptionKey) + AlgorithmPart(b.compression);
    LERoundTrip(a.version, 4);
    LERoundTrip(b.version, 4);
    LERoundTrip(a.stripeSectors, 8);
    LERoundTrip(b.stripeSectors, 8);
    KeyPartInjective(a.encryptionKey, AlgorithmPart(a.compression), b.encryptionKey, AlgorithmPart(b.compression));
    AlgorithmInjective(a.compression, b.compression);
  }

  lemma AlgorithmInjective(a: Algorithm, b: Algorithm)
    requires a.ZstdLevel? ==> -0x8000_0000 <= a.level < 0x8000_0000
    requires b.ZstdLevel? ==> -0x8000_0000 <= b.level < 0x8000_0000
    requires AlgorithmPart(a) == AlgorithmPart(b)
    ensures a == b
  {
    assert AlgorithmPart(a)[0] == AlgorithmPart(b)[0];
    if a.ZstdLevel? {
      assert AlgorithmPart(a)[1..] == SignedLE(a.level) && AlgorithmPart(b)[1..] == SignedLE(b.level);
      SignedInjective(a.level, b.level);
    }
  }

  // ----- writing and opening -----

  /** The metadata of an archive, tagged. */
  function Tagged(t: Tools, m: ArchiveMetadata, key: seq<byte>): ArchiveMetadata
    requires Fits(m)
  {
    m.(tag := t.format.mac(key, TagInput(m)))
  }

  predicate TagHolds(t: Tools, m: ArchiveMetadata, key: seq<byte>) {
    Fits(m) && |m.tag| == HMAC_KEY_BYTES && m.tag == t.format.mac(key, TagInput(m))
  }

  function CipherOf(t: Tools, wrapped: Option<seq<byte>>): Option<Option<Cipher>> {
    if wrapped.None? then Some(None)
    else match t.unwrap(wrapped.value)
      case None => None
      case Some(key) => if |key| != XTS_KEY_BYTES then None else Some(Some(t.xts(key)))
  }

  function CompressionOf(t: Tools, a: Algorithm): Compression {
    if a.Uncompressed? then NoCompression else Zstd(t.zip(a.level))
  }

  /** The parameters by which the objects of the archive are read, and the key of its tags. */
  function Verified(t: Tools, bytes: seq<byte>): Option<(Params, seq<byte>)> {
    match t.fromJson(bytes)
    case None => None
    case Some(m) =>
      if m.version != FORMAT_VERSION then None
      else match t.unwrap(m.hmacKey)
        case None => None
        case Some(key) =>
          if |key| != HMAC_KEY_BYTES || !TagHolds(t, m, key) then None
          else match CipherOf(t, m.encryptionKey)
            case None => None
            case Some(cipher) => Some((Params(CompressionOf(t, m.compression), cipher, m.stripeSectors, t.sha), key))
  }

  /** The metadata describes an archive with these parameters, and its keys can be unwrapped. */
  ghost predicate Describes(t: Tools, m: ArchiveMetadata, key: seq<byte>, p: Params) {
    && Fits(m) && m.version == FORMAT_VERSION
    && t.unwrap(m.hmacKey) == Some(key) && |key| == HMAC_KEY_BYTES
    && CipherOf(t, m.encryptionKey) == Some(p.cipher) && p.compression == CompressionOf(t, m.compression)
    && p.stripeSectors == m.stripeSectors && p.sha == t.sha
  }

  /** Opening: the metadata is fetched and verified, then the mapping. */
  function Opened(t: Tools, metadata: Option<seq<byte>>, mapping: Option<seq<byte>>): (r: Option<Source>)
    requires ToolsOk(t)
    ensures r.Some? ==> Sane(r.value.p)
  {
    if metadata.None? then None
    else match Verified(t, metadata.value)
      case None => None
      case Some((p, key)) =>
        if mapping.None? then None
        else match Deserialize(t.format, mapping.value, key, p.cipher)
          case None => None
          case Some(hashes) => Some(Source(p, hashes))
  }

  /** Opening what the archiver has written gives back its parameters and its mapping. */
  lemma OpenRoundTrip(t: Tools, m: ArchiveMetadata, key: seq<byte>, p: Params, hashes: map<nat, Content>)
    requires ToolsOk(t) && Describes(t, m, key, p) && Sane(p)
    ensures Opened(t, Some(t.toJson(Tagged(t, m, key))), Some(Serialize(t.format, hashes, key, p.cipher)))
            == Some(Source(p, hashes))
  {
    hide Deserialize, Serialize, Faithful, TagInput;
    var signed := Tagged(t, m, key);
    assert t.fromJson(t.toJson(signed)) == Some(signed);
    assert TagInput(signed) == TagInput(m) by { SameInput(signed, m); }
    MappingRoundTrip(t.format, hashes, key, p.cipher);
  }

  lemma SameInput(a: ArchiveMetadata, b: ArchiveMetadata)
    requires Fits(a) && Fits(b) && a == b.(tag := a.tag)
    ensures TagInput(a) == TagInput(b)
  {
  }

  /** Metadata that verifies with the tag of an archive, without being a collision, says of version, stripe
      size, key and compression what the archiver said. */
  lemma TamperedMetadataRefused(t: Tools, m: ArchiveMetadata, key: seq<byte>, x: ArchiveMetadata)
    requires Fits(m) && x.tag == Tagged(t, m, key).tag && TagHolds(t, x, key)
    requires TellsApart(t.format, key, TagInput(x), TagInput(m))
    ensures x.version == m.version && x.stripeSectors == m.stripeSectors
    ensures x.encryptionKey == m.encryptionKey && x.compression == m.compression
  {
    TagInputInjective(x, m);
  }
}
