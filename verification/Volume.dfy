/** Byte ranges of a volume, read through whole sectors of its drive. */
module Volume {
  import opened Arithmetic
  import opened Outcomes
  import opened Words
  import Fat12

  /**
    * A drive: None for a sector that cannot be read. All sectors have the same size. It is ready if its controller is
    * installed, the drive is connected, and there is a medium in it.
    */
  datatype Disk = Disk(sectors: seq<Option<seq<byte>>>, sectorBytes: nat, ready: bool) {
    ghost predicate Valid() {
      && sectorBytes > 0
      && forall i :: 0 <= i < |sectors| && sectors[i].Some? ==> |sectors[i].value| == sectorBytes
    }

    predicate Has(lba: nat) {
      lba < |sectors| && sectors[lba].Some?
    }

    /** All sectors of a stretch can be read. */
    predicate HasAll(lba: nat, count: nat) {
      forall i :: lba <= i < lba + count ==> Has(i)
    }
  }

  /** b is the byte at address a. */
  predicate IsByteAt(disk: Disk, a: nat, b: byte)
    requires disk.sectorBytes > 0
  {
    && disk.Has(a / disk.sectorBytes)
    && a % disk.sectorBytes < |disk.sectors[a / disk.sectorBytes].value|
    && b == disk.sectors[a / disk.sectorBytes].value[a % disk.sectorBytes]
  }

  /** The buffer holds the bytes from address a on. */
  ghost predicate AreBytes(disk: Disk, a: nat, buffer: seq<byte>)
    requires disk.sectorBytes > 0
  {
    forall k :: 0 <= k < |buffer| ==> IsByteAt(disk, a + k, buffer[k])
  }

  /** The bytes from address a on; 0 for what cannot be read. */
  function BytesFrom(disk: Disk, a: nat, n: nat): (bytes: seq<byte>)
    requires disk.sectorBytes > 0
    ensures |bytes| == n
  {
    seq(n, k requires 0 <= k =>
      var lba, i := (a + k) / disk.sectorBytes, (a + k) % disk.sectorBytes;
      if disk.Has(lba) && i < |disk.sectors[lba].value| then disk.sectors[lba].value[i] else 0)
  }

  lemma BytesAreKnown(disk: Disk, a: nat, buffer: seq<byte>)
    requires disk.sectorBytes > 0 && AreBytes(disk, a, buffer)
    ensures buffer == BytesFrom(disk, a, |buffer|)
  {
    forall k | 0 <= k < |buffer|
      ensures buffer[k] == BytesFrom(disk, a, |buffer|)[k]
    {
      assert IsByteAt(disk, a + k, buffer[k]);
    }
  }

  datatype StorError = SeNone | SeInvalidDevice | SeUnknown

  /** Consecutive sectors, laid end to end. */
  function Stretch(disk: Disk, lba: nat, count: nat): seq<byte>
    requires disk.HasAll(lba, count)
  {
    if count == 0 then []
    else
      assert disk.Has(lba + (count - 1));
      Stretch(disk, lba, count - 1) + disk.sectors[lba + (count - 1)].value
  }

  lemma {:induction false} StretchLength(disk: Disk, lba: nat, count: nat)
    requires disk.Valid() && disk.HasAll(lba, count)
    ensures |Stretch(disk, lba, count)| == count * disk.sectorBytes
  {
    if count > 0 {
      StretchLength(disk, lba, count - 1);
      assert disk.Has(lba + (count - 1));
      assert (count - 1) * disk.sectorBytes + disk.sectorBytes == count * disk.sectorBytes;
    }
  }

  /** Where a byte of the i-th sector after lba is. */
  lemma InSector(size: nat, lba: nat, i: nat, r: nat)
    requires r < size
    ensures (lba * size + i * size + r) / size == lba + i && (lba * size + i * size + r) % size == r
  {
    assert lba * size + i * size + r == size * (lba + i) + r;
    DivIs(lba * size + i * size + r, size, lba + i, r);
  }

  /** Byte k of a stretch is the one at that distance from its start. */
  lemma {:induction false} StretchByte(disk: Disk, lba: nat, count: nat, k: nat)
    requires disk.Valid() && disk.HasAll(lba, count) && k < count * disk.sectorBytes
    ensures k < |Stretch(disk, lba, count)|
    ensures IsByteAt(disk, lba * disk.sectorBytes + k, Stretch(disk, lba, count)[k])
    decreases count
  {
    var size := disk.sectorBytes;
    var before := (count - 1) * size;
    assert before + size == count * size;
    assert disk.Has(lba + (count - 1));
    StretchLength(disk, lba, count);
    StretchLength(disk, lba, count - 1);
    if k < before {
      StretchByte(disk, lba, count - 1, k);
    } else {
      InSector(size, lba, count - 1, k - before);
    }
  }

  /** The controller: whole sectors, one after the other. */
  method ReadDrive(disk: Disk, lba: nat, count: nat) returns (e: StorError, data: seq<byte>)
    requires disk.Valid()
    ensures e == if !disk.ready then SeInvalidDevice else if disk.HasAll(lba, count) then SeNone else SeUnknown
    ensures e.SeNone? ==> data == Stretch(disk, lba, count)
  {
    if !disk.ready {
      return SeInvalidDevice, [];
    }
    var buffer: seq<byte> := [];
    for i := 0 to count
      invariant disk.HasAll(lba, i) && buffer == Stretch(disk, lba, i)
    {
      if !disk.Has(lba + i) {
        return SeUnknown, [];
      }
      buffer := buffer + disk.sectors[lba + i].value;
    }
    return SeNone, buffer;
  }

  /** How many sectors hold a range. */
  function SectorsOf(range: Fat12.Range, sectorBytes: nat): nat
    requires sectorBytes > 0
  {
    Aligned(range.offset % sectorBytes + range.length, sectorBytes) / sectorBytes
  }

  method ReadBytes(disk: Disk, range: Fat12.Range) returns (e: StorError, buffer: seq<byte>)
    requires disk.Valid()
    ensures e == if !disk.ready then SeInvalidDevice
                 else if disk.HasAll(range.offset / disk.sectorBytes, SectorsOf(range, disk.sectorBytes)) then SeNone else SeUnknown
    ensures e.SeNone? ==> |buffer| == range.length
    ensures e.SeNone? ==> AreBytes(disk, range.offset, buffer)
  {
    hide Aligned, AreBytes, Stretch;
    var offsetLBA := range.offset / disk.sectorBytes;
    var adjusted := range.offset % disk.sectorBytes;
    var bytesToRead := Aligned(adjusted + range.length, disk.sectorBytes);
    var data;
    e, data := ReadDrive(disk, offsetLBA, bytesToRead / disk.sectorBytes);
    if !e.SeNone? {
      return e, [];
    }
    RangeInSectors(disk, range);
    return SeNone, data[adjusted..adjusted + range.length];
  }

  /** Part of a stretch, from the address at on. */
  lemma PartOfStretch(disk: Disk, lba: nat, count: nat, skipped: nat, length: nat, at: nat)
    requires disk.Valid() && disk.HasAll(lba, count)
    requires skipped + length <= count * disk.sectorBytes && at == lba * disk.sectorBytes + skipped
    ensures skipped + length <= |Stretch(disk, lba, count)|
    ensures AreBytes(disk, at, Stretch(disk, lba, count)[skipped..skipped + length])
  {
    hide IsByteAt, Stretch;
    StretchLength(disk, lba, count);
    var data := Stretch(disk, lba, count);
    var buffer := data[skipped..skipped + length];
    forall k | 0 <= k < |buffer|
      ensures IsByteAt(disk, at + k, buffer[k])
    {
      StretchByte(disk, lba, count, skipped + k);
      assert buffer[k] == data[skipped + k];
    }
  }

  lemma RangeInSectors(disk: Disk, range: Fat12.Range)
    requires disk.Valid() && disk.HasAll(range.offset / disk.sectorBytes, SectorsOf(range, disk.sectorBytes))
    ensures var adjusted := range.offset % disk.sectorBytes;
            var data := Stretch(disk, range.offset / disk.sectorBytes, SectorsOf(range, disk.sectorBytes));
            && adjusted + range.length <= |data|
            && AreBytes(disk, range.offset, data[adjusted..adjusted + range.length])
  {
    hide Aligned, AreBytes, Stretch;
    var size := disk.sectorBytes;
    AlignedIsMultiple(range.offset % size + range.length, size);
    WholeAndRest(range.offset, size);
    PartOfStretch(disk, range.offset / size, SectorsOf(range, size), range.offset % size, range.length, range.offset);
  }

  /** Whole sectors through byte ranges, whose ends are 32 bits wide: exact as long as the addresses do not wrap. */
  method ReadSector(disk: Disk, lba: nat, count: nat) returns (e: StorError, buffer: seq<byte>)
    requires disk.Valid()
    ensures var range := Fat12.Range(lba * disk.sectorBytes % WORD, disk.sectorBytes * count % WORD);
            && e == (if !disk.ready then SeInvalidDevice
                     else if disk.HasAll(range.offset / disk.sectorBytes, SectorsOf(range, disk.sectorBytes)) then SeNone
                     else SeUnknown)
            && (e.SeNone? ==> |buffer| == range.length && AreBytes(disk, range.offset, buffer))
    ensures DoesNotWrap(disk, lba, count) ==>
      (e.SeNone? <==> disk.ready && disk.HasAll(lba, count)) && (e.SeNone? ==> buffer == Stretch(disk, lba, count))
  {
    hide SectorsOf, AreBytes;
    var range := Fat12.Range(lba * disk.sectorBytes % WORD, disk.sectorBytes * count % WORD);
    WholeSectors(disk.sectorBytes, lba, count);
    e, buffer := ReadBytes(disk, range);
    if DoesNotWrap(disk, lba, count) {
      NotWrapped(disk, lba, count);
      if e.SeNone? {
        SameBytes(disk, lba, count, buffer);
      }
    }
  }

  predicate DoesNotWrap(disk: Disk, lba: nat, count: nat) {
    lba * disk.sectorBytes < WORD && disk.sectorBytes * count < WORD
  }

  lemma NotWrapped(disk: Disk, lba: nat, count: nat)
    requires DoesNotWrap(disk, lba, count)
    ensures lba * disk.sectorBytes % WORD == lba * disk.sectorBytes
    ensures disk.sectorBytes * count % WORD == disk.sectorBytes * count
  {
  }

  lemma SameBytes(disk: Disk, lba: nat, count: nat, buffer: seq<byte>)
    requires disk.Valid() && disk.HasAll(lba, count) && |buffer| == disk.sectorBytes * count
    requires AreBytes(disk, lba * disk.sectorBytes, buffer)
    ensures buffer == Stretch(disk, lba, count)
  {
    StretchLength(disk, lba, count);
    forall k | 0 <= k < |buffer|
      ensures buffer[k] == Stretch(disk, lba, count)[k]
    {
      StretchByte(disk, lba, count, k);
    }
  }

  lemma WholeSectors(size: nat, lba: nat, count: nat)
    requires size > 0
    ensures lba * size / size == lba && SectorsOf(Fat12.Range(lba * size, size * count), size) == count
  {
    DivIs(lba * size, size, lba, 0);
    DivIs(size * count, size, count, 0);
    assert lba * size % size == 0 by {
      assert lba * size == size * (lba * size / size) + lba * size % size;
    }
    assert size * count % size == 0 by {
      assert size * count == size * (size * count / size) + size * count % size;
    }
  }
}
