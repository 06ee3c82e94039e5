/** Byte-level framing of archive objects: size header, padding, compression. */
module Codec {

  type byte = x: int | 0 <= x < 256

  const SECTOR_SIZE: nat := 512

  datatype Option<T> = None | Some(value: T)

  function Zeros(n: nat): (r: seq<byte>)
    ensures |r| == n && forall i :: 0 <= i < n ==> r[i] == 0
  {
    seq(n, _ => 0)
  }

  // ----- little-endian numbers -----

  function ToLE(n: nat, width: nat): (r: seq<byte>)
    ensures |r| == width
  {
    if width == 0 then [] else [n % 256] + ToLE(n / 256, width - 1)
  }

  function FromLE(b: seq<byte>): nat {
    if b == [] then 0 else b[0] + 256 * FromLE(b[1..])
  }

  function Pow256(width: nat): nat {
    if width == 0 then 1 else 256 * Pow256(width - 1)
  }

  lemma {:induction false} LERoundTrip(n: nat, width: nat)
    requires n < Pow256(width)
    ensures FromLE(ToLE(n, width)) == n
  {
    if width > 0 {
      assert ToLE(n, width)[1..] == ToLE(n / 256, width - 1);
      LERoundTrip(n / 256, width - 1);
    }
  }

  // ----- size header and padding -----

  function PadLength(len: nat): (r: nat)
    ensures r < SECTOR_SIZE && (len + r) % SECTOR_SIZE == 0
  {
    (SECTOR_SIZE - len % SECTOR_SIZE) % SECTOR_SIZE
  }

  function WithSizeHeaderAndPadding(compressed: seq<byte>): Option<seq<byte>> {
    if |compressed| >= 0x1_0000_0000 then None
    else
      var framed := ToLE(|compressed|, 4) + compressed;
      Some(framed + Zeros(PadLength(|framed|)))
  }

  function CompressedPayload(data: seq<byte>): Option<seq<byte>> {
    if |data| < 4 then None
    else
      var size := FromLE(data[0..4]);
      if size + 4 > |data| then None else Some(data[4..size + 4])
  }

  /** Framing succeeds exactly for sizes that fit the header; it is aligned, and undone exactly. */
  lemma FramingRoundTrip(compressed: seq<byte>)
    ensures WithSizeHeaderAndPadding(compressed).Some? <==> |compressed| < 0x1_0000_0000
    ensures var framed := WithSizeHeaderAndPadding(compressed);
            framed.Some? ==> |framed.value| % SECTOR_SIZE == 0 && CompressedPayload(framed.value) == Some(compressed)
  {
    if |compressed| < 0x1_0000_0000 {
      var data := WithSizeHeaderAndPadding(compressed).value;
      assert Pow256(4) == 0x1_0000_0000 by {
        assert Pow256(1) == 256 * Pow256(0) && Pow256(2) == 256 * Pow256(1) && Pow256(3) == 256 * Pow256(2);
      }
      LERoundTrip(|compressed|, 4);
      assert data[0..4] == ToLE(|compressed|, 4);
      assert data[4..|compressed| + 4] == compressed;
    }
  }

  // ----- compression; the algorithm itself is given by its two directions -----

  datatype Zip = Zip(encode: seq<byte> -> Option<seq<byte>>, decode: seq<byte> -> Option<seq<byte>>)

  ghost predicate Lossless(zip: Zip) {
    forall x: seq<byte> :: zip.encode(x).Some? ==> zip.decode(zip.encode(x).value) == Some(x)
  }

  datatype Compression = NoCompression | Zstd(zip: Zip)

  function Compress(c: Compression, data: seq<byte>): Option<seq<byte>>
    requires |data| % SECTOR_SIZE == 0
  {
    match c
    case NoCompression => Some(data)
    case Zstd(zip) =>
      match zip.encode(data)
      case None => None
      case Some(compressed) => WithSizeHeaderAndPadding(compressed)
  }

  function EnsureSectorAligned(data: seq<byte>): Option<seq<byte>> {
    if |data| % SECTOR_SIZE == 0 then Some(data) else None
  }

  function Decompress(c: Compression, data: seq<byte>): Option<seq<byte>> {
    match c
    case NoCompression => Some(data)
    case Zstd(zip) =>
      match CompressedPayload(data)
      case None => None
      case Some(payload) =>
        match zip.decode(payload)
        case None => None
        case Some(plain) => EnsureSectorAligned(plain)
  }

  lemma CompressionRoundTrip(c: Compression, data: seq<byte>)
    requires |data| % SECTOR_SIZE == 0 && (c.Zstd? ==> Lossless(c.zip)) && Compress(c, data).Some?
    ensures |Compress(c, data).value| % SECTOR_SIZE == 0
    ensures Decompress(c, Compress(c, data).value) == Some(data)
  {
    if c.Zstd? {
      FramingRoundTrip(c.zip.encode(data).value);
    }
  }
}
