/** Sector-wise encryption in place: each sector is encrypted with a tweak made from its number. */
module Xts {
  import opened Codec

  /** The block cipher, applied to a tweak and one sector of data. */
  datatype Cipher = Cipher(enc: (seq<byte>, seq<byte>) -> seq<byte>, dec: (seq<byte>, seq<byte>) -> seq<byte>)

  ghost predicate Lawful(c: Cipher) {
    && (forall t, b: seq<byte> | |b| == SECTOR_SIZE :: |c.enc(t, b)| == SECTOR_SIZE && c.dec(t, c.enc(t, b)) == b)
    && (forall t, b: seq<byte> | |b| == SECTOR_SIZE :: |c.dec(t, b)| == SECTOR_SIZE && c.enc(t, c.dec(t, b)) == b)
  }

  /** Eight zero bytes, then the sector number in little-endian order. */
  function Tweak(sector: nat): (t: seq<byte>)
    ensures |t| == 16
  {
    Zeros(8) + ToLE(sector, 8)
  }

  lemma TweakInjective(a: nat, b: nat)
    requires a < Pow256(8) && b < Pow256(8) && Tweak(a) == Tweak(b)
    ensures a == b
  {
    assert Tweak(a)[8..] == ToLE(a, 8) && Tweak(b)[8..] == ToLE(b, 8);
    LERoundTrip(a, 8);
    LERoundTrip(b, 8);
  }

  function Sector(data: seq<byte>, i: nat): (r: seq<byte>)
    requires (i + 1) * SECTOR_SIZE <= |data|
    ensures |r| == SECTOR_SIZE
  {
    data[i * SECTOR_SIZE..(i + 1) * SECTOR_SIZE]
  }

  function PutSector(data: seq<byte>, i: nat, b: seq<byte>): (r: seq<byte>)
    requires (i + 1) * SECTOR_SIZE <= |data| && |b| == SECTOR_SIZE
    ensures |r| == |data|
  {
    data[..i * SECTOR_SIZE] + b + data[(i + 1) * SECTOR_SIZE..]
  }

  lemma PutThenGet(data: seq<byte>, i: nat, b: seq<byte>, j: nat)
    requires (i + 1) * SECTOR_SIZE <= |data| && |b| == SECTOR_SIZE && (j + 1) * SECTOR_SIZE <= |data|
    ensures Sector(PutSector(data, i, b), j) == if i == j then b else Sector(data, j)
    ensures (i + 1) * SECTOR_SIZE <= |data|
            && PutSector(data, i, b)[(i + 1) * SECTOR_SIZE..] == data[(i + 1) * SECTOR_SIZE..]
  {
    if j < i {
      assert (j + 1) * SECTOR_SIZE <= i * SECTOR_SIZE;
    } else if j > i {
      assert (i + 1) * SECTOR_SIZE <= j * SECTOR_SIZE;
    }
  }

  /** The first count sectors of the data, transformed one by one. */
  function Transformed(f: (seq<byte>, seq<byte>) -> seq<byte>, data: seq<byte>, start: nat, count: nat): (r: seq<byte>)
    requires count * SECTOR_SIZE <= |data|
    requires forall t, b: seq<byte> | |b| == SECTOR_SIZE :: |f(t, b)| == SECTOR_SIZE
    ensures |r| == |data|
    decreases count
  {
    if count == 0 then data
    else
      var rest := Transformed(f, data, start, count - 1);
      PutSector(rest, count - 1, f(Tweak(start + count - 1), Sector(rest, count - 1)))
  }

  lemma {:induction false} TransformedAt(f: (seq<byte>, seq<byte>) -> seq<byte>, data: seq<byte>, start: nat,
                                         count: nat, i: nat)
    requires count * SECTOR_SIZE <= |data| && (i + 1) * SECTOR_SIZE <= |data|
    requires forall t, b: seq<byte> | |b| == SECTOR_SIZE :: |f(t, b)| == SECTOR_SIZE
    ensures Sector(Transformed(f, data, start, count), i)
            == if i < count then f(Tweak(start + i), Sector(data, i)) else Sector(data, i)
    decreases count
  {
    if count > 0 {
      var rest := Transformed(f, data, start, count - 1);
      TransformedAt(f, data, start, count - 1, i);
      TransformedAt(f, data, start, count - 1, count - 1);
      PutThenGet(rest, count - 1, f(Tweak(start + count - 1), Sector(rest, count - 1)), i);
    }
  }

  /** Data of equal length with equal sectors is equal, if it consists of whole sectors. */
  lemma SectorsDetermine(a: seq<byte>, b: seq<byte>)
    requires |a| == |b| && |a| % SECTOR_SIZE == 0
    requires forall i: nat | (i + 1) * SECTOR_SIZE <= |a| :: Sector(a, i) == Sector(b, i)
    ensures a == b
  {
    forall k | 0 <= k < |a| ensures a[k] == b[k] {
      var i := k / SECTOR_SIZE;
      assert (i + 1) * SECTOR_SIZE <= |a|;
      assert Sector(a, i)[k % SECTOR_SIZE] == a[k] && Sector(b, i)[k % SECTOR_SIZE] == b[k];
    }
  }

  /** Decrypting what was encrypted at the same place gives back the data. */
  lemma CryptRoundTrip(c: Cipher, data: seq<byte>, start: nat)
    requires Lawful(c) && |data| % SECTOR_SIZE == 0
    ensures |data| / SECTOR_SIZE * SECTOR_SIZE == |data|
    ensures Transformed(c.dec, Transformed(c.enc, data, start, |data| / SECTOR_SIZE), start, |data| / SECTOR_SIZE)
            == data
  {
    var n := |data| / SECTOR_SIZE;
    var e := Transformed(c.enc, data, start, n);
    var d := Transformed(c.dec, e, start, n);
    forall i: nat | (i + 1) * SECTOR_SIZE <= |data| ensures Sector(d, i) == Sector(data, i) {
      TransformedAt(c.enc, data, start, n, i);
      TransformedAt(c.dec, e, start, n, i);
    }
    SectorsDetermine(d, data);
  }

  // ----- the loops, in place -----

  method Encrypt(c: Cipher, buf: array<byte>, start: nat, count: nat)
    requires Lawful(c) && count * SECTOR_SIZE <= buf.Length
    modifies buf
    ensures buf[..] == Transformed(c.enc, old(buf[..]), start, count)
  {
    hide PutSector, Tweak;
    for i := 0 to count
      invariant buf[..] == Transformed(c.enc, old(buf[..]), start, i)
    {
      var block := LoadSector(buf, i);
      StoreSector(buf, i, c.enc(Tweak(start + i), block));
    }
  }

  method Decrypt(c: Cipher, buf: array<byte>, start: nat, count: nat)
    requires Lawful(c) && count * SECTOR_SIZE <= buf.Length
    modifies buf
    ensures buf[..] == Transformed(c.dec, old(buf[..]), start, count)
  {
    hide PutSector, Tweak;
    for i := 0 to count
      invariant buf[..] == Transformed(c.dec, old(buf[..]), start, i)
    {
      var block := LoadSector(buf, i);
      StoreSector(buf, i, c.dec(Tweak(start + i), block));
    }
  }

  method LoadSector(buf: array<byte>, i: nat) returns (block: seq<byte>)
    requires (i + 1) * SECTOR_SIZE <= buf.Length
    ensures block == Sector(buf[..], i)
  {
    block := buf[i * SECTOR_SIZE..(i + 1) * SECTOR_SIZE];
  }

  method StoreSector(buf: array<byte>, i: nat, block: seq<byte>)
    requires (i + 1) * SECTOR_SIZE <= buf.Length && |block| == SECTOR_SIZE
    modifies buf
    ensures buf[..] == PutSector(old(buf[..]), i, block)
  {
    var offset := i * SECTOR_SIZE;
    for j := 0 to SECTOR_SIZE
      invariant buf[..offset] == old(buf[..offset])
      invariant buf[offset..offset + j] == block[..j]
      invariant buf[offset + j..] == old(buf[offset + j..])
    {
      buf[offset + j] := block[j];
    }
    assert buf[offset..offset + SECTOR_SIZE] == block;
    assert buf[..] == buf[..offset] + buf[offset..offset + SECTOR_SIZE] + buf[offset + SECTOR_SIZE..];
  }
}
