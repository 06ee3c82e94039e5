/** The stripe-mapping file of an archive: which object holds which stripe, padded, optionally
    encrypted, and authenticated. */
module StripeMapping {
  import opened Codec
  import opened Xts

  type Hash = seq<byte>

  datatype Content = ZeroStripe | Object(hash: Hash)

  const VERSION: nat := 1
  const DOMAIN: seq<byte> := [117, 98, 105, 98, 108, 107, 45, 97, 114, 99, 104, 105, 118, 101, 45, 115, 116, 114,
                              105, 112, 101, 45, 109, 97, 112, 112, 105, 110, 103]
  /** Sector numbers far above those of any data stripe. */
  const XTS_SECTOR_START: nat := 0x1000_0000_0000_0000

  datatype MappingFile = MappingFile(domain: seq<byte>, version: nat, ciphertext: seq<byte>, plaintextLen: nat,
                                     tag: seq<byte>)

  /** The serialization of maps and of files, and the keyed hash. */
  datatype Format = Format(
    mapToBytes: map<nat, Content> -> seq<byte>,
    mapFromBytes: seq<byte> -> Option<map<nat, Content>>,
    fileToBytes: MappingFile -> seq<byte>,
    fileFromBytes: seq<byte> -> Option<MappingFile>,
    mac: (seq<byte>, seq<byte>) -> seq<byte>)

  ghost predicate Faithful(f: Format) {
    && (forall m: map<nat, Content> :: f.mapFromBytes(f.mapToBytes(m)) == Some(m))
    && (forall x: MappingFile :: f.fileFromBytes(f.fileToBytes(x)) == Some(x))
  }

  function PadToSector(bytes: seq<byte>): (r: seq<byte>)
    ensures |r| % SECTOR_SIZE == 0 && |bytes| <= |r| < |bytes| + SECTOR_SIZE && r[..|bytes|] == bytes
  {
    bytes + Zeros(PadLength(|bytes|))
  }

  function HmacInput(domain: seq<byte>, version: nat, plaintextLen: nat, payload: seq<byte>): seq<byte> {
    domain + ToLE(version, 4) + ToLE(plaintextLen, 8) + payload
  }

  /** For one domain, what is authenticated determines version, length and payload. */
  lemma HmacInputInjective(v1: nat, l1: nat, p1: seq<byte>, v2: nat, l2: nat, p2: seq<byte>)
    requires v1 < Pow256(4) && v2 < Pow256(4) && l1 < Pow256(8) && l2 < Pow256(8)
    requires HmacInput(DOMAIN, v1, l1, p1) == HmacInput(DOMAIN, v2, l2, p2)
    ensures v1 == v2 && l1 == l2 && p1 == p2
  {
    var n := |DOMAIN|;
    var a, b := HmacInput(DOMAIN, v1, l1, p1), HmacInput(DOMAIN, v2, l2, p2);
    assert a[n..n + 4] == ToLE(v1, 4) && b[n..n + 4] == ToLE(v2, 4);
    assert a[n + 4..n + 12] == ToLE(l1, 8) && b[n + 4..n + 12] == ToLE(l2, 8);
    assert a[n + 12..] == p1 && b[n + 12..] == p2;
    LERoundTrip(v1, 4);
    LERoundTrip(v2, 4);
    LERoundTrip(l1, 8);
    LERoundTrip(l2, 8);
  }

  function MaybeEncrypt(cipher: Option<Cipher>, data: seq<byte>, start: nat): (r: seq<byte>)
    requires |data| % SECTOR_SIZE == 0 && (cipher.Some? ==> Lawful(cipher.value))
    ensures |r| == |data|
  {
    if cipher.None? then data else Transformed(cipher.value.enc, data, start, |data| / SECTOR_SIZE)
  }

  function MaybeDecrypt(cipher: Option<Cipher>, data: seq<byte>, start: nat): (r: seq<byte>)
    requires |data| % SECTOR_SIZE == 0 && (cipher.Some? ==> Lawful(cipher.value))
    ensures |r| == |data|
  {
    if cipher.None? then data else Transformed(cipher.value.dec, data, start, |data| / SECTOR_SIZE)
  }

  lemma MaybeCryptRoundTrip(cipher: Option<Cipher>, data: seq<byte>, start: nat)
    requires |data| % SECTOR_SIZE == 0 && (cipher.Some? ==> Lawful(cipher.value))
    ensures MaybeDecrypt(cipher, MaybeEncrypt(cipher, data, start), start) == data
  {
    if cipher.Some? {
      CryptRoundTrip(cipher.value, data, start);
    }
  }

  function Serialize(f: Format, m: map<nat, Content>, key: seq<byte>, cipher: Option<Cipher>): seq<byte>
    requires cipher.Some? ==> Lawful(cipher.value)
  {
    var bytes := f.mapToBytes(m);
    var payload := MaybeEncrypt(cipher, PadToSector(bytes), XTS_SECTOR_START);
    f.fileToBytes(MappingFile(DOMAIN, VERSION, payload, |bytes|,
                              f.mac(key, HmacInput(DOMAIN, VERSION, |bytes|, payload))))
  }

  function Deserialize(f: Format, bytes: seq<byte>, key: seq<byte>, cipher: Option<Cipher>): Option<map<nat, Content>>
    requires cipher.Some? ==> Lawful(cipher.value)
  {
    match f.fileFromBytes(bytes)
    case None => None
    case Some(x) =>
      if x.version != VERSION || x.domain != DOMAIN || |x.ciphertext| % SECTOR_SIZE != 0 then None
      else if x.tag != f.mac(key, HmacInput(x.domain, x.version, x.plaintextLen, x.ciphertext)) then None
      else if x.plaintextLen > |x.ciphertext| then None
      else f.mapFromBytes(MaybeDecrypt(cipher, x.ciphertext, XTS_SECTOR_START)[..x.plaintextLen])
  }

  /** What was serialized is read back, with or without encryption. */
  lemma MappingRoundTrip(f: Format, m: map<nat, Content>, key: seq<byte>, cipher: Option<Cipher>)
    requires Faithful(f) && (cipher.Some? ==> Lawful(cipher.value))
    ensures Deserialize(f, Serialize(f, m, key, cipher), key, cipher) == Some(m)
  {
    var bytes := f.mapToBytes(m);
    var padded := PadToSector(bytes);
    var payload := MaybeEncrypt(cipher, padded, XTS_SECTOR_START);
    MaybeCryptRoundTrip(cipher, padded, XTS_SECTOR_START);
    var x := MappingFile(DOMAIN, VERSION, payload, |bytes|, f.mac(key, HmacInput(DOMAIN, VERSION, |bytes|, payload)));
    assert f.fileFromBytes(f.fileToBytes(x)) == Some(x);
    assert f.mapFromBytes(f.mapToBytes(m)) == Some(m);
  }

  /** The two inputs do not share a tag, unless they are the same. */
  predicate TellsApart(f: Format, key: seq<byte>, a: seq<byte>, b: seq<byte>) {
    f.mac(key, a) == f.mac(key, b) ==> a == b
  }

  /** Any accepted file that carries the tag of a serialized mapping, without being a collision, is that
      mapping: a changed length, payload or version is refused. */
  lemma TamperedMappingRefused(f: Format, m: map<nat, Content>, key: seq<byte>, cipher: Option<Cipher>, x: MappingFile)
    requires Faithful(f) && (cipher.Some? ==> Lawful(cipher.value))
    requires |f.mapToBytes(m)| < Pow256(8) && x.plaintextLen < Pow256(8)
    requires var payload := MaybeEncrypt(cipher, PadToSector(f.mapToBytes(m)), XTS_SECTOR_START);
             var input := HmacInput(DOMAIN, VERSION, |f.mapToBytes(m)|, payload);
             && x.tag == f.mac(key, input)
             && TellsApart(f, key, HmacInput(x.domain, x.version, x.plaintextLen, x.ciphertext), input)
    requires Deserialize(f, f.fileToBytes(x), key, cipher).Some?
    ensures Deserialize(f, f.fileToBytes(x), key, cipher) == Some(m)
  {
    var bytes := f.mapToBytes(m);
    var payload := MaybeEncrypt(cipher, PadToSector(bytes), XTS_SECTOR_START);
    assert f.fileFromBytes(f.fileToBytes(x)) == Some(x);
    assert VERSION < Pow256(4) by { assert Pow256(1) == 256 * Pow256(0); }
    HmacInputInjective(x.version, x.plaintextLen, x.ciphertext, VERSION, |bytes|, payload);
    MaybeCryptRoundTrip(cipher, PadToSector(bytes), XTS_SECTOR_START);
    assert f.mapFromBytes(f.mapToBytes(m)) == Some(m);
  }
}
