/** The FAT12 header, its validation, and the table of cluster links. */
module Fat12 {
  import opened Arithmetic
  import opened Words
  import Text

  const MIN_FILE_CLUSTER: nat := 2
  const MAX_FILE_CLUSTER: nat := 0xFEF
  const BITS_PER_FAT_ENTRY: nat := 12
  const DIR_ENTRY_BYTES: nat := 32
  const EXTENDED_BOOT_SIGNATURE: nat := 0x29
  const MEDIA_RESERVED: nat := 0xF

  /** The extended BIOS parameter block. */
  datatype Header = Header(
    bytesPerLogicalSector: uint16, logicalSectorsPerCluster: byte, reservedLogicalSectors: uint16, numberOfFATs: byte,
    maxRootDirectoryEntries: uint16, totalLogicalSectors: uint16, mediaReserved: byte, logicalSectorsPerFAT: uint16,
    physicalSectorsPerTrack: uint16, numberOfHeads: uint16, hiddenSectors: uint32, extendedBootSignature: byte,
    fileSystemType: string)

  datatype Geometry = Geometry(lba: uint32, sectSizeBytes: uint32)

  datatype Range = Range(offset: nat, length: nat)

  // ---------------------------------------------------------------- ranges

  function FatRange(h: Header): Range {
    Range(h.reservedLogicalSectors * h.bytesPerLogicalSector,
          h.numberOfFATs * h.logicalSectorsPerFAT * h.bytesPerLogicalSector)
  }

  function DirectoryRange(h: Header): Range {
    Range(FatRange(h).offset + FatRange(h).length, h.maxRootDirectoryEntries * DIR_ENTRY_BYTES)
  }

  /** Where the clusters start. */
  function FirstClusterSector(h: Header): nat
    requires h.bytesPerLogicalSector > 0
  {
    Div(DirectoryRange(h).offset + DirectoryRange(h).length, h.bytesPerLogicalSector)
  }

  function ClusterStartSector(h: Header, cluster: nat): int
    requires h.bytesPerLogicalSector > 0
  {
    FirstClusterSector(h) + (cluster - MIN_FILE_CLUSTER) * h.logicalSectorsPerCluster
  }

  // ---------------------------------------------------------------- locations

  /** The difference wraps when the directory ends past the volume. */
  function DataSectors(h: Header): uint32
    requires h.bytesPerLogicalSector > 0
  {
    (h.totalLogicalSectors - FirstClusterSector(h)) % WORD
  }

  function LastCluster(h: Header): uint32
    requires h.bytesPerLogicalSector > 0 && h.logicalSectorsPerCluster > 0
  {
    (DataSectors(h) / h.logicalSectorsPerCluster + 1) % WORD
  }

  predicate IsValidForRead(h: Header, cluster: nat)
    requires h.bytesPerLogicalSector > 0 && h.logicalSectorsPerCluster > 0
  {
    MIN_FILE_CLUSTER <= cluster <= if LastCluster(h) < MAX_FILE_CLUSTER then LastCluster(h) else MAX_FILE_CLUSTER
  }

  predicate IsEOF(cluster: nat) {
    0xFF8 <= cluster <= 0xFFF
  }

  /** Entries of 12 bits, two of them in three bytes. */
  function LinkIndex(cluster: nat): uint16 {
    (3 * cluster / 2) % 0x1_0000
  }

  function NextCluster(fat: seq<byte>, cluster: nat): (next: nat)
    requires LinkIndex(cluster) + 1 < |fat|
    ensures next < 0x1000
  {
    var lsb: nat, msb: nat := fat[LinkIndex(cluster)], fat[LinkIndex(cluster) + 1];
    if cluster % 2 == 1 then msb * 16 + lsb / 16 else (msb % 16) * 256 + lsb
  }

  datatype Location = Location(sector: int, allocUnit: nat, sizeBytes: nat)

  function FileStartLocation(h: Header, allocUnit: nat): Location
    requires h.bytesPerLogicalSector > 0
  {
    Location(ClusterStartSector(h, allocUnit), allocUnit, h.bytesPerLogicalSector)
  }

  /** The next sector of a cluster, or the first one of the cluster it links to. */
  function NextLocation(h: Header, fat: seq<byte>, l: Location): Location
    requires h.bytesPerLogicalSector > 0 && h.logicalSectorsPerCluster > 0
    requires LinkIndex(l.allocUnit) + 1 < |fat|
  {
    if (l.sector + 1) % h.logicalSectorsPerCluster != 0 then Location(l.sector + 1, l.allocUnit, h.bytesPerLogicalSector)
    else FileStartLocation(h, NextCluster(fat, l.allocUnit))
  }

  predicate IsContiguous(h: Header, first: Location, second: Location)
    requires h.bytesPerLogicalSector > 0 && h.logicalSectorsPerCluster > 0
  {
    second.allocUnit == first.allocUnit + 1 && IsValidForRead(h, first.allocUnit) && IsValidForRead(h, second.allocUnit)
  }

  /** A directory entry names a cluster of the volume, and a file that is not empty. */
  predicate ValidDirEntry(h: Header, firstCluster: nat, size: nat)
    requires h.bytesPerLogicalSector > 0
  {
    && firstCluster >= MIN_FILE_CLUSTER
    && firstCluster <= (h.totalLogicalSectors - UtilitySectors(h) + 1) % WORD
    && size != 0
  }

  // ---------------------------------------------------------------- detection

  /** How many bits of x are set. */
  function PopCount(x: nat): nat {
    if x == 0 then 0 else x % 2 + PopCount(x / 2)
  }

  function UtilitySectors(h: Header): nat
    requires h.bytesPerLogicalSector > 0
  {
    h.reservedLogicalSectors + h.numberOfFATs * h.logicalSectorsPerFAT
    + Div(h.maxRootDirectoryEntries * DIR_ENTRY_BYTES, h.bytesPerLogicalSector)
  }

  function FatBytes(h: Header): nat {
    h.logicalSectorsPerFAT * h.bytesPerLogicalSector
  }

  /** The subtraction wraps below zero. */
  function FatEntries(h: Header): nat {
    (FatBytes(h) * 2 % WORD / 3 + WORD - 2) % WORD
  }

  predicate FieldsAreSet(h: Header) {
    && h.logicalSectorsPerCluster != 0 && h.reservedLogicalSectors != 0 && h.numberOfFATs != 0
    && h.maxRootDirectoryEntries != 0 && h.totalLogicalSectors != 0 && h.mediaReserved == MEDIA_RESERVED
    && h.logicalSectorsPerFAT != 0 && h.physicalSectorsPerTrack != 0 && h.numberOfHeads != 0
    && h.extendedBootSignature == EXTENDED_BOOT_SIGNATURE
  }

  predicate LayoutFits(h: Header)
    requires h.bytesPerLogicalSector > 0 && h.logicalSectorsPerCluster > 0
  {
    var data := h.totalLogicalSectors - UtilitySectors(h) - h.hiddenSectors;
    && h.totalLogicalSectors % h.logicalSectorsPerCluster == 0
    && h.maxRootDirectoryEntries * DIR_ENTRY_BYTES % h.bytesPerLogicalSector == 0
    && h.hiddenSectors < h.totalLogicalSectors
    && UtilitySectors(h) < h.totalLogicalSectors - h.hiddenSectors
    && data % h.logicalSectorsPerCluster == 0
    && h.maxRootDirectoryEntries <= data / h.logicalSectorsPerCluster
    && FatBytes(h) * 8 % WORD % BITS_PER_FAT_ENTRY == 0
    && FatEntries(h) >= data / h.logicalSectorsPerCluster
  }

  predicate Detect(h: Header, g: Geometry) {
    && PopCount(h.bytesPerLogicalSector) == 1
    && h.totalLogicalSectors <= g.lba
    && g.sectSizeBytes == h.bytesPerLogicalSector
    && FieldsAreSet(h)
    && h.bytesPerLogicalSector > 0
    && LayoutFits(h)
    && h.fileSystemType == "FAT12   "
  }

  // ---------------------------------------------------------------- what a detected header promises

  function Pow2(k: nat): nat {
    if k == 0 then 1 else 2 * Pow2(k - 1)
  }

  /** A number with one bit set is a power of two. */
  lemma {:induction false} OneBit(x: nat, bits: nat)
    requires PopCount(x) == 1 && x < Pow2(bits)
    ensures exists k :: 0 <= k < bits && x == Pow2(k)
  {
    if x % 2 == 1 {
      if x / 2 > 0 {
        SomeBit(x / 2);
      }
      assert x == Pow2(0);
    } else {
      OneBit(x / 2, bits - 1);
      var k :| 0 <= k < bits - 1 && x / 2 == Pow2(k);
      assert x == Pow2(k + 1);
    }
  }

  lemma {:induction false} SomeBit(x: nat)
    requires x > 0
    ensures PopCount(x) > 0
  {
    if x % 2 == 0 {
      SomeBit(x / 2);
    }
  }

  lemma SectorSizeIsBounded(h: Header)
    requires PopCount(h.bytesPerLogicalSector) == 1
    ensures 1 <= h.bytesPerLogicalSector <= 0x8000
  {
    Pow2Values();
    OneBit(h.bytesPerLogicalSector, 16);
    var k :| 0 <= k < 16 && h.bytesPerLogicalSector == Pow2(k);
    Pow2Grows(k, 15);
    assert Pow2(16) == 2 * Pow2(15);
  }

  lemma {:induction false} Pow2Grows(j: nat, k: nat)
    requires j <= k
    ensures 1 <= Pow2(j) <= Pow2(k)
    decreases k
  {
    if j < k {
      Pow2Grows(j, k - 1);
    } else if j > 0 {
      Pow2Grows(j - 1, j - 1);
    }
  }

  lemma {:induction false} Pow2Adds(j: nat, k: nat)
    ensures Pow2(j + k) == Pow2(j) * Pow2(k)
  {
    if j > 0 {
      Pow2Adds(j - 1, k);
      DoubleOfProduct(Pow2(j - 1), Pow2(k));
    }
  }

  lemma Pow2Values()
    ensures Pow2(16) == 0x1_0000 && Pow2(32) == WORD
  {
    assert Pow2(4) == 16 && Pow2(8) == 16 * Pow2(4) && Pow2(12) == 16 * Pow2(8) && Pow2(16) == 16 * Pow2(12);
    Pow2Adds(16, 16);
  }

  lemma SectorSizeDividesWord(h: Header) returns (w: nat)
    requires PopCount(h.bytesPerLogicalSector) == 1
    ensures h.bytesPerLogicalSector * w == WORD
  {
    hide Pow2, PopCount;
    Pow2Values();
    OneBit(h.bytesPerLogicalSector, 16);
    var k :| 0 <= k < 16 && h.bytesPerLogicalSector == Pow2(k);
    Pow2Adds(k, 32 - k);
    w := Pow2(32 - k);
  }

  /** The directory ends where the sectors not used for clusters end. */
  lemma ClustersFollowDirectory(h: Header)
    requires h.bytesPerLogicalSector > 0
    requires h.maxRootDirectoryEntries * DIR_ENTRY_BYTES % h.bytesPerLogicalSector == 0
    ensures DirectoryRange(h).offset + DirectoryRange(h).length == UtilitySectors(h) * h.bytesPerLogicalSector
    ensures FirstClusterSector(h) == UtilitySectors(h)
  {
    var s, tables, dir := h.bytesPerLogicalSector, h.numberOfFATs * h.logicalSectorsPerFAT, h.maxRootDirectoryEntries * DIR_ENTRY_BYTES;
    assert dir == dir / s * s;
    Distribute(h.reservedLogicalSectors, tables, dir / s, s);
    DivIs(UtilitySectors(h) * s, s, UtilitySectors(h), 0);
  }

  lemma Distribute(a: nat, b: nat, c: nat, s: nat)
    ensures (a + b + c) * s == a * s + b * s + c * s
  {
  }

  /** Two thirds of the bytes of a table are its entries, when nothing wraps. */
  lemma EntriesFitTable(bytes: nat, clusters: nat, cluster: nat)
    requires bytes * 8 < WORD && bytes > 0 && bytes * 8 % WORD % BITS_PER_FAT_ENTRY == 0
    requires clusters <= (bytes * 2 % WORD / 3 + WORD - 2) % WORD && cluster <= clusters + 1
    ensures 3 * cluster / 2 + 1 < bytes
  {
    assert bytes % 3 == 0;
    var g := bytes / 3;
    assert bytes == 3 * g && g >= 1 && bytes * 2 / 3 == 2 * g;
  }

  lemma TableIsNotEmpty(h: Header)
    requires h.logicalSectorsPerFAT > 0 && h.bytesPerLogicalSector > 0
    ensures FatBytes(h) > 0
  {
    MulMonotone(h.logicalSectorsPerFAT, 1, h.bytesPerLogicalSector);
  }

  /** In a volume that its directory fits into, nothing wraps. */
  lemma LastClusterIs(h: Header)
    requires h.bytesPerLogicalSector > 0 && h.logicalSectorsPerCluster > 0
    requires h.maxRootDirectoryEntries * DIR_ENTRY_BYTES % h.bytesPerLogicalSector == 0
    requires UtilitySectors(h) <= h.totalLogicalSectors
    ensures LastCluster(h) == Div(h.totalLogicalSectors - UtilitySectors(h), h.logicalSectorsPerCluster) + 1
  {
    hide FirstClusterSector, UtilitySectors;
    ClustersFollowDirectory(h);
    var data := h.totalLogicalSectors - UtilitySectors(h);
    assert DataSectors(h) == data;
    QuotientIsSmaller(data, h.logicalSectorsPerCluster);
  }

  lemma QuotientIsSmaller(i: nat, n: nat)
    requires n >= 1
    ensures 0 <= i / n <= i
  {
    MulMonotone(i / n, 1, n);
    assert i / n * n == n * (i / n) <= i;
  }

  /** Every cluster that may be read has its link inside the first copy of the table. */
  lemma LinksAreInTable(h: Header, cluster: nat)
    requires h.bytesPerLogicalSector > 0 && FieldsAreSet(h) && LayoutFits(h)
    requires h.hiddenSectors == 0 && IsValidForRead(h, cluster)
    ensures LinkIndex(cluster) == 3 * cluster / 2 && LinkIndex(cluster) + 1 < FatBytes(h)
  {
    hide FatBytes, UtilitySectors, LastCluster;
    LastClusterIs(h);
    TableIsNotEmpty(h);
    if FatBytes(h) * 8 < WORD {
      EntriesFitTable(FatBytes(h), (h.totalLogicalSectors - UtilitySectors(h)) / h.logicalSectorsPerCluster, cluster);
    }
  }

  /** So has every cluster that a directory entry may name, even one that is out of the range for reading. */
  lemma StartLinkIsInTable(h: Header, firstCluster: nat, size: nat)
    requires h.bytesPerLogicalSector > 0 && FieldsAreSet(h) && LayoutFits(h)
    requires h.hiddenSectors == 0 && h.logicalSectorsPerCluster == 1 && ValidDirEntry(h, firstCluster, size)
    ensures LinkIndex(firstCluster) + 1 < FatBytes(h)
  {
    hide FatBytes, UtilitySectors;
    TableIsNotEmpty(h);
    if FatBytes(h) * 8 < WORD {
      EntriesFitTable(FatBytes(h), h.totalLogicalSectors - UtilitySectors(h), firstCluster);
    }
  }

  /** Its sectors are in the volume. */
  lemma ClusterIsInVolume(h: Header, cluster: nat)
    requires h.bytesPerLogicalSector > 0 && h.logicalSectorsPerCluster > 0
    requires h.maxRootDirectoryEntries * DIR_ENTRY_BYTES % h.bytesPerLogicalSector == 0
    requires UtilitySectors(h) <= h.totalLogicalSectors && IsValidForRead(h, cluster)
    ensures UtilitySectors(h) <= ClusterStartSector(h, cluster)
    ensures ClusterStartSector(h, cluster) + h.logicalSectorsPerCluster <= h.totalLogicalSectors
  {
    hide LastCluster;
    ClustersFollowDirectory(h);
    LastClusterIs(h);
    var spc := h.logicalSectorsPerCluster;
    var data := h.totalLogicalSectors - UtilitySectors(h);
    assert spc * (data / spc) <= data;
    MulMonotone(spc, 0, cluster - 2);
    MulMonotone(spc, cluster - 1, data / spc);
    assert spc * (cluster - 1) == (cluster - MIN_FILE_CLUSTER) * spc + spc;
  }

  /** No product that the ranges are made of leaves the range of int. */
  lemma RangesDoNotOverflow(h: Header)
    requires PopCount(h.bytesPerLogicalSector) == 1 && FieldsAreSet(h) && h.bytesPerLogicalSector > 0 && LayoutFits(h)
    ensures h.numberOfFATs * h.logicalSectorsPerFAT < 0x8000_0000
    ensures FatRange(h).offset < 0x8000_0000 && FatRange(h).length < 0x8000_0000
    ensures DirectoryRange(h).offset + DirectoryRange(h).length < 0x8000_0000
  {
    SectorSizeIsBounded(h);
    ClustersFollowDirectory(h);
    var s, u := h.bytesPerLogicalSector, UtilitySectors(h);
    MulMonotone(u, s, 0x8000);
    assert u * 0x8000 < 0x8000_0000;
  }

  predicate Readable(h: Header, cluster: nat) {
    h.bytesPerLogicalSector > 0 && h.logicalSectorsPerCluster > 0 && IsValidForRead(h, cluster)
  }

  /** A header that is accepted can be relied on, for clusters of any size: they lie in the volume, and their links in the table. */
  lemma DetectedHeaderIsSound(h: Header, g: Geometry, cluster: nat)
    requires Detect(h, g) && h.hiddenSectors == 0 && Readable(h, cluster)
    ensures UtilitySectors(h) <= ClusterStartSector(h, cluster)
    ensures ClusterStartSector(h, cluster) + h.logicalSectorsPerCluster <= h.totalLogicalSectors <= g.lba
    ensures LinkIndex(cluster) == 3 * cluster / 2 && LinkIndex(cluster) + 1 < FatBytes(h) <= FatRange(h).length
  {
    hide FatBytes, FatRange, FatEntries, DirectoryRange, FirstClusterSector, ClusterStartSector, UtilitySectors, LinkIndex, LastCluster;
    TableIsInRange(h);
    ClusterIsInVolume(h, cluster);
    LinksAreInTable(h, cluster);
  }

  lemma TableIsInRange(h: Header)
    requires h.numberOfFATs >= 1
    ensures FatBytes(h) <= FatRange(h).length
  {
    MulMonotone(FatBytes(h), 1, h.numberOfFATs);
    assert FatBytes(h) * h.numberOfFATs == FatRange(h).length;
  }

  lemma SectorOf512()
    ensures PopCount(512) == 1
  {
    assert PopCount(2) == 1 && PopCount(8) == PopCount(2) && PopCount(32) == PopCount(8) && PopCount(128) == PopCount(32);
  }

  /** With hidden sectors a header is accepted whose last cluster has its link outside the table. */
  lemma HiddenSectorsAreNotSound()
    ensures var h := Header(512, 1, 1, 2, 16, 2000, 0xF, 3, 18, 2, 1000, 0x29, "FAT12   ");
            && Detect(h, Geometry(2000, 512))
            && IsValidForRead(h, 1993) && LinkIndex(1993) >= FatBytes(h)
  {
    hide PopCount;
    SectorOf512();
  }

  function HighestCluster(h: Header): nat
    requires h.bytesPerLogicalSector > 0 && h.logicalSectorsPerCluster > 0
  {
    if LastCluster(h) < MAX_FILE_CLUSTER then LastCluster(h) else MAX_FILE_CLUSTER
  }

  /** With hidden sectors or without: it all depends on the highest cluster that may be read. */
  lemma LinksAreInTableIffHighestIs(h: Header)
    requires h.bytesPerLogicalSector > 0 && h.logicalSectorsPerCluster > 0
    ensures (forall cluster :: IsValidForRead(h, cluster) ==> LinkIndex(cluster) + 1 < FatBytes(h)) <==>
            HighestCluster(h) < MIN_FILE_CLUSTER || 3 * HighestCluster(h) / 2 + 1 < FatBytes(h)
  {
    hide FatBytes, LastCluster;
    assert LinkIndex(HighestCluster(h)) == 3 * HighestCluster(h) / 2;
    if HighestCluster(h) >= MIN_FILE_CLUSTER {
      assert IsValidForRead(h, HighestCluster(h));
    }
  }

  // ---------------------------------------------------------------- copies of the table

  /** The first two copies agree as far as the first zero byte in them. */
  ghost predicate CopiesPass(h: Header, fat: seq<byte>)
    requires |fat| == FatRange(h).length
  {
    && h.numberOfFATs > 1
    && TwoCopies(h, fat)
    && forall k :: 0 <= k < FatBytes(h) && NoZeroBefore(fat, k) ==> fat[k] == fat[FatBytes(h) + k]
  }

  ghost predicate TwoCopies(h: Header, fat: seq<byte>) {
    2 * FatBytes(h) <= |fat|
  }

  ghost predicate NoZeroBefore(fat: seq<byte>, k: nat) {
    forall j :: 0 <= j < k && j < |fat| ==> fat[j] != 0
  }

  lemma CopiesAreThere(h: Header)
    ensures FatRange(h).length == h.numberOfFATs * FatBytes(h)
    ensures h.numberOfFATs > 1 ==> 2 * FatBytes(h) <= FatRange(h).length
  {
    assert FatBytes(h) * h.numberOfFATs == FatRange(h).length;
    if h.numberOfFATs > 1 {
      MulMonotone(FatBytes(h), 2, h.numberOfFATs);
    }
  }

  /** The comparison of the copies: that of two texts, and only of the first two. */
  method FatVerify(h: Header, fat: seq<byte>) returns (verified: bool)
    requires |fat| == FatRange(h).length
    ensures verified <==> CopiesPass(h, fat)
  {
    CopiesAreThere(h);
    var fatIndex := 1;
    if fatIndex < h.numberOfFATs {
      var chars := seq(|fat|, i requires 0 <= i < |fat| => fat[i] as char);
      var size := h.logicalSectorsPerFAT * h.bytesPerLogicalSector;
      var c := Text.StrCmpL(chars, chars[fatIndex * size..], size);
      if c == 0 {
        SameMeansPass(h, fat, chars, size);
      } else if CopiesPass(h, fat) {
        PassMeansSame(h, fat, chars, size);
      }
      return c == 0;
    }
    return false;
  }

  /** The first two copies as characters. */
  ghost predicate AsText(h: Header, fat: seq<byte>, chars: string, size: nat) {
    && |fat| == FatRange(h).length && h.numberOfFATs > 1 && size == FatBytes(h) && 2 * size <= |fat|
    && |chars| == |fat| && forall i :: 0 <= i < |fat| ==> chars[i] == fat[i] as char
  }

  lemma PassMeansSame(h: Header, fat: seq<byte>, chars: string, size: nat)
    requires AsText(h, fat, chars, size) && CopiesPass(h, fat)
    ensures Text.Same(chars, chars[size..], size)
  {
    hide FatBytes, FatRange;
    var second := chars[size..];
    forall k | 0 <= k < size && Text.Agree(chars, second, k)
      ensures chars[k] == second[k]
    {
      assert forall j :: 0 <= j < k ==> chars[j] != Text.NUL;
      assert NoZeroBefore(fat, k);
    }
  }

  lemma SameMeansPass(h: Header, fat: seq<byte>, chars: string, size: nat)
    requires AsText(h, fat, chars, size) && Text.Same(chars, chars[size..], size)
    ensures CopiesPass(h, fat)
  {
    hide FatBytes, FatRange, NoZeroBefore, Text.Same, Text.Agree;
    var second := chars[size..];
    forall k | 0 <= k < size && NoZeroBefore(fat, k)
      ensures fat[k] == fat[size + k]
    {
      AgreeWithoutZero(chars, second, size, fat, k);
      SameAt(chars, second, size, k);
      assert chars[k] == fat[k] as char && second[k] == fat[size + k] as char;
    }
  }

  lemma SameAt(l: string, r: string, size: nat, k: nat)
    requires Text.Same(l, r, size) && Text.Agree(l, r, k) && k < size && k < |l| && k < |r|
    ensures l[k] == r[k]
  {
  }

  lemma {:induction false} AgreeWithoutZero(l: string, r: string, size: nat, fat: seq<byte>, k: nat)
    requires |l| == |fat| && (forall i :: 0 <= i < |fat| ==> l[i] == fat[i] as char)
    requires k <= size <= |l| && size <= |r| && Text.Same(l, r, size) && NoZeroBefore(fat, k)
    ensures Text.Agree(l, r, k)
  {
    if k > 0 {
      AgreeWithoutZero(l, r, size, fat, k - 1);
      assert l[k - 1] == r[k - 1];
    }
  }

  /** Copies that first differ at d pass exactly if the first copy has a zero byte before d. */
  lemma DifferingCopiesPassIffZeroBefore(h: Header, fat: seq<byte>, d: nat)
    requires |fat| == FatRange(h).length && h.numberOfFATs > 1 && 2 * FatBytes(h) <= |fat|
    requires d < FatBytes(h) && fat[d] != fat[FatBytes(h) + d]
    requires forall k :: 0 <= k < d ==> fat[k] == fat[FatBytes(h) + k]
    ensures CopiesPass(h, fat) <==> exists z :: 0 <= z < d && fat[z] == 0
  {
    hide FatBytes, FatRange;
  }

  // ---------------------------------------------------------------- twelve bits

  /** The table read as half bytes, low half first. */
  function Nibble(fat: seq<byte>, i: nat): nat
    requires i / 2 < |fat|
  {
    if i % 2 == 0 then fat[i / 2] % 16 else fat[i / 2] / 16
  }

  /** A link is three half bytes in a row, least significant first, and links are packed without gaps. */
  lemma LinkIsThreeNibbles(fat: seq<byte>, cluster: nat)
    requires 3 * cluster / 2 + 1 < |fat| && 3 * cluster / 2 < 0x1_0000
    ensures (3 * cluster + 2) / 2 < |fat|
    ensures NextCluster(fat, cluster) ==
            Nibble(fat, 3 * cluster) + 16 * Nibble(fat, 3 * cluster + 1) + 256 * Nibble(fat, 3 * cluster + 2)
  {
    if cluster % 2 == 0 {
      var half := cluster / 2;
      assert cluster == 2 * half && 3 * cluster == 2 * (3 * half);
    } else {
      var half := cluster / 2;
      assert cluster == 2 * half + 1 && 3 * cluster == 2 * (3 * half + 1) + 1;
    }
  }
}
