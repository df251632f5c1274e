/** Loading a file: runs of adjacent clusters are found and read together. */
module FileLoader {
  import opened Arithmetic
  import opened Outcomes
  import opened Fat12
  import opened Volume
  import opened Words

  // ---------------------------------------------------------------- the plain walk along the links

  /** The links of this cluster, and of all that may be read, are in the table. */
  ghost predicate LinksInTable(h: Header, fat: seq<byte>) {
    && h.bytesPerLogicalSector > 0 && h.logicalSectorsPerCluster > 0
    && forall c :: IsValidForRead(h, c) ==> LinkIndex(c) + 1 < |fat|
  }

  /** The n clusters of a chain that starts at c, goes on through clusters that may be read, and is ended by an end mark. */
  ghost function Chain(h: Header, fat: seq<byte>, c: nat, n: nat): Option<seq<nat>>
    requires LinksInTable(h, fat) && LinkIndex(c) + 1 < |fat|
    decreases n
  {
    if n == 0 then None
    else
      var next := NextCluster(fat, c);
      if n == 1 then if IsEOF(next) then Some([c]) else None
      else if !IsValidForRead(h, next) then None
      else Prepend([c], Chain(h, fat, next, n - 1))
  }

  ghost function Prepend(first: seq<nat>, rest: Option<seq<nat>>): Option<seq<nat>> {
    if rest.Some? then Some(first + rest.value) else None
  }

  ghost predicate LinksTo(h: Header, fat: seq<byte>, a: nat, b: nat)
    requires h.bytesPerLogicalSector > 0 && h.logicalSectorsPerCluster > 0
  {
    LinkIndex(a) + 1 < |fat| && NextCluster(fat, a) == b && IsValidForRead(h, b)
  }

  ghost predicate Ends(fat: seq<byte>, c: nat) {
    LinkIndex(c) + 1 < |fat| && IsEOF(NextCluster(fat, c))
  }

  /** The clusters of a chain, said without following it. */
  ghost predicate IsChain(h: Header, fat: seq<byte>, c: nat, cs: seq<nat>)
    requires h.bytesPerLogicalSector > 0 && h.logicalSectorsPerCluster > 0
  {
    && cs != [] && cs[0] == c
    && (forall i :: 0 <= i < |cs| - 1 ==> LinksTo(h, fat, cs[i], cs[i + 1]))
    && Ends(fat, cs[|cs| - 1])
  }

  lemma IsChainUnfolds(h: Header, fat: seq<byte>, c: nat, cs: seq<nat>)
    requires h.bytesPerLogicalSector > 0 && h.logicalSectorsPerCluster > 0 && |cs| > 1
    ensures IsChain(h, fat, c, cs) <==> cs[0] == c && LinksTo(h, fat, c, cs[1]) && IsChain(h, fat, cs[1], cs[1..])
  {
    hide LinksTo, Ends;
    var rest := cs[1..];
    assert forall i :: 0 <= i < |rest| ==> rest[i] == cs[i + 1];
    if cs[0] == c && LinksTo(h, fat, c, cs[1]) && IsChain(h, fat, cs[1], rest) {
      forall i | 0 <= i < |cs| - 1
        ensures LinksTo(h, fat, cs[i], cs[i + 1])
      {
        assert i > 0 ==> LinksTo(h, fat, rest[i - 1], rest[i]);
      }
    }
  }

  /** The walk yields a list of clusters exactly when that list is a chain. */
  lemma {:induction false} ChainIsChain(h: Header, fat: seq<byte>, c: nat, cs: seq<nat>)
    requires LinksInTable(h, fat) && LinkIndex(c) + 1 < |fat|
    ensures Chain(h, fat, c, |cs|) == Some(cs) <==> IsChain(h, fat, c, cs)
    decreases |cs|
  {
    hide IsEOF, LinkIndex, NextCluster, IsValidForRead;
    if |cs| > 1 {
      IsChainUnfolds(h, fat, c, cs);
      var next := NextCluster(fat, c);
      assert [c] + cs[1..] == cs <==> cs[0] == c;
      if IsValidForRead(h, next) {
        ChainIsChain(h, fat, next, cs[1..]);
        var rest := Chain(h, fat, next, |cs| - 1);
        assert rest.Some? ==> ([c] + rest.value)[1..] == rest.value;
      }
    } else if |cs| == 1 {
      assert cs == [c] <==> cs[0] == c;
    }
  }

  /** What is left of a chain after some of its clusters, the last of them linking to c. */
  ghost function Rest(h: Header, fat: seq<byte>, c: nat, n: nat): Option<seq<nat>>
    requires LinksInTable(h, fat)
  {
    if n == 0 then if IsEOF(c) then Some([]) else None
    else if IsValidForRead(h, c) then Chain(h, fat, c, n)
    else None
  }

  lemma EndIsNotReadable(h: Header, c: nat)
    requires h.bytesPerLogicalSector > 0 && h.logicalSectorsPerCluster > 0
    ensures !(IsEOF(c) && IsValidForRead(h, c))
  {
  }

  /** Clusters c, c + 1, and so on. */
  function Run(c: nat, r: nat): (run: seq<nat>)
    ensures |run| == r && forall i :: 0 <= i < r ==> run[i] == c + i
  {
    seq(r, i requires 0 <= i => c + i)
  }

  predicate LinksOn(fat: seq<byte>, c: nat) {
    LinkIndex(c) + 1 < |fat| && NextCluster(fat, c) == c + 1
  }

  /** Each cluster of the run links to the next, and all may be read if there are several. */
  ghost predicate Contiguous(h: Header, fat: seq<byte>, c: nat, r: nat)
    requires LinksInTable(h, fat)
  {
    && (r > 1 ==> forall d :: c <= d < c + r ==> IsValidForRead(h, d))
    && forall d :: c <= d < c + r - 1 ==> LinksOn(fat, d)
  }

  /** A chain begins with the run it starts with, unless the run is longer than the chain should be. */
  lemma {:induction false} ChainBeginsWithRun(h: Header, fat: seq<byte>, c: nat, r: nat, n: nat)
    requires LinksInTable(h, fat) && r >= 1 && Contiguous(h, fat, c, r)
    requires LinkIndex(c) + 1 < |fat| && LinkIndex(c + r - 1) + 1 < |fat|
    ensures Chain(h, fat, c, n) ==
            if n < r then None else Prepend(Run(c, r), Rest(h, fat, NextCluster(fat, c + r - 1), n - r))
    decreases r
  {
    hide IsValidForRead, IsEOF, LinkIndex, NextCluster;
    if n == 0 {
    } else if r == 1 {
      assert Run(c, 1) == [c];
      assert n == 1 ==> [c] + [] == [c];
    } else {
      assert LinksOn(fat, c) && IsValidForRead(h, c + 1);
      EndIsNotReadable(h, c + 1);
      ChainBeginsWithRun(h, fat, c + 1, r - 1, n - 1);
      assert Run(c, r) == [c] + Run(c + 1, r - 1);
      if n >= r && Rest(h, fat, NextCluster(fat, c + r - 1), n - r).Some? {
        var rest := Rest(h, fat, NextCluster(fat, c + r - 1), n - r).value;
        assert Run(c, r) + rest == [c] + (Run(c + 1, r - 1) + rest);
      }
    }
  }

  // ---------------------------------------------------------------- what the clusters hold

  predicate IsStored(disk: Disk, h: Header, c: nat)
    requires h.bytesPerLogicalSector > 0
  {
    ClusterStartSector(h, c) >= 0 && disk.Has(ClusterStartSector(h, c))
  }

  predicate AllStored(disk: Disk, h: Header, cs: seq<nat>)
    requires h.bytesPerLogicalSector > 0
  {
    forall i :: 0 <= i < |cs| ==> IsStored(disk, h, cs[i])
  }

  /** The sectors of the clusters, one after the other. */
  ghost function Data(disk: Disk, h: Header, cs: seq<nat>): seq<byte>
    requires h.bytesPerLogicalSector > 0 && AllStored(disk, h, cs)
  {
    if cs == [] then []
    else Data(disk, h, cs[..|cs| - 1]) + disk.sectors[ClusterStartSector(h, cs[|cs| - 1])].value
  }

  lemma {:induction false} DataOfBoth(disk: Disk, h: Header, a: seq<nat>, b: seq<nat>)
    requires h.bytesPerLogicalSector > 0 && AllStored(disk, h, a) && AllStored(disk, h, b)
    ensures AllStored(disk, h, a + b) && Data(disk, h, a + b) == Data(disk, h, a) + Data(disk, h, b)
    decreases |b|
  {
    hide ClusterStartSector;
    if b == [] {
      assert a + b == a;
    } else {
      var front := b[..|b| - 1];
      DataOfBoth(disk, h, a, front);
      assert (a + b)[..|a + b| - 1] == a + front;
    }
  }

  /** With one sector to a cluster, adjacent clusters are adjacent sectors. */
  lemma AdjacentSectors(h: Header, c: nat, i: nat)
    requires h.bytesPerLogicalSector > 0 && h.logicalSectorsPerCluster == 1
    ensures ClusterStartSector(h, c + i) == ClusterStartSector(h, c) + i
  {
  }

  lemma RunIsStored(disk: Disk, h: Header, c: nat, r: nat)
    requires h.bytesPerLogicalSector > 0 && h.logicalSectorsPerCluster == 1 && ClusterStartSector(h, c) >= 0
    ensures disk.HasAll(ClusterStartSector(h, c), r) <==> AllStored(disk, h, Run(c, r))
  {
    hide ClusterStartSector;
    var s, run := ClusterStartSector(h, c), Run(c, r);
    forall i | 0 <= i < r
      ensures disk.Has(s + i) <==> IsStored(disk, h, run[i])
    {
      AdjacentSectors(h, c, i);
    }
    if AllStored(disk, h, run) {
      forall k | s <= k < s + r
        ensures disk.Has(k)
      {
        assert disk.Has(s + (k - s)) <==> IsStored(disk, h, run[k - s]);
      }
    }
  }

  lemma {:induction false} StretchIsData(disk: Disk, h: Header, c: nat, r: nat)
    requires h.bytesPerLogicalSector > 0 && h.logicalSectorsPerCluster == 1 && ClusterStartSector(h, c) >= 0
    requires disk.HasAll(ClusterStartSector(h, c), r)
    ensures AllStored(disk, h, Run(c, r))
    ensures Stretch(disk, ClusterStartSector(h, c), r) == Data(disk, h, Run(c, r))
    decreases r
  {
    hide ClusterStartSector;
    RunIsStored(disk, h, c, r);
    if r > 0 {
      StretchIsData(disk, h, c, r - 1);
      AdjacentSectors(h, c, r - 1);
      assert Run(c, r)[..r - 1] == Run(c, r - 1);
    }
  }

  // ---------------------------------------------------------------- the loops

  /** The inner loop: as far as the links go to adjacent clusters. It ends on every table, for cluster numbers grow. */
  method LastContiguous(h: Header, fat: seq<byte>, first: Location) returns (last: Location)
    requires LinksInTable(h, fat) && h.logicalSectorsPerCluster == 1 && LinkIndex(first.allocUnit) + 1 < |fat|
    ensures first.allocUnit <= last.allocUnit && LinkIndex(last.allocUnit) + 1 < |fat|
    ensures Contiguous(h, fat, first.allocUnit, last.allocUnit - first.allocUnit + 1)
  {
    hide IsValidForRead, LinkIndex, NextCluster, ClusterStartSector;
    last := first;
    while true
      invariant first.allocUnit <= last.allocUnit && LinkIndex(last.allocUnit) + 1 < |fat|
      invariant Contiguous(h, fat, first.allocUnit, last.allocUnit - first.allocUnit + 1)
      decreases MAX_FILE_CLUSTER - last.allocUnit
    {
      var next := NextLocation(h, fat, last);
      if IsContiguous(h, last, next) {
        ReadableIsBounded(h, next.allocUnit);
        last := next;
      } else {
        break;
      }
    }
  }

  lemma ReadableIsBounded(h: Header, c: nat)
    requires h.bytesPerLogicalSector > 0 && h.logicalSectorsPerCluster > 0 && IsValidForRead(h, c)
    ensures MIN_FILE_CLUSTER <= c <= MAX_FILE_CLUSTER
  {
  }

  /** The clusters of the file: those of its chain, if they are as many as its size asks for and can all be read. */
  ghost function Clusters(disk: Disk, h: Header, fat: seq<byte>, start: nat, n: nat): Option<seq<nat>>
    requires LinksInTable(h, fat) && LinkIndex(start) + 1 < |fat|
  {
    var cs := Chain(h, fat, start, n);
    if cs.Some? && AllStored(disk, h, cs.value) then cs else None
  }

  /** Where the outer loop has got to: the clusters done are stored and copied, and location c is next. */
  ghost predicate Progress(disk: Disk, h: Header, fat: seq<byte>, start: nat, n: nat, done: seq<nat>, c: nat)
    requires LinksInTable(h, fat) && LinkIndex(start) + 1 < |fat|
  {
    && |done| <= n && AllStored(disk, h, done)
    && if done == [] then c == start
       else Chain(h, fat, start, n) == Prepend(done, Rest(h, fat, c, n - |done|))
  }

  lemma PrependBoth(a: seq<nat>, b: seq<nat>, rest: Option<seq<nat>>)
    ensures Prepend(a, Prepend(b, rest)) == Prepend(a + b, rest) && Prepend([], rest) == rest
  {
    if rest.Some? {
      assert a + (b + rest.value) == a + b + rest.value;
      assert [] + rest.value == rest.value;
    }
  }

  lemma StoredInPart(disk: Disk, h: Header, a: seq<nat>, b: seq<nat>, rest: seq<nat>)
    requires h.bytesPerLogicalSector > 0 && AllStored(disk, h, a + b + rest)
    ensures AllStored(disk, h, b)
  {
    hide IsStored;
    forall i | 0 <= i < |b|
      ensures IsStored(disk, h, b[i])
    {
      assert b[i] == (a + b + rest)[|a| + i];
    }
  }

  /** After the run the walk is at the cluster that its last one links to. */
  lemma ChainAfterRun(disk: Disk, h: Header, fat: seq<byte>, start: nat, n: nat, done: seq<nat>, c: nat, r: nat)
    requires LinksInTable(h, fat) && LinkIndex(start) + 1 < |fat|
    requires Progress(disk, h, fat, start, n, done, c) && (done == [] || (IsValidForRead(h, c) && |done| < n))
    requires r >= 1 && Contiguous(h, fat, c, r) && LinkIndex(c) + 1 < |fat| && LinkIndex(c + r - 1) + 1 < |fat|
    ensures Chain(h, fat, start, n) ==
            if r > n - |done| then None
            else Prepend(done + Run(c, r), Rest(h, fat, NextCluster(fat, c + r - 1), n - |done| - r))
  {
    hide IsValidForRead, IsEOF, LinkIndex, NextCluster, Chain, Contiguous, AllStored;
    ChainBeginsWithRun(h, fat, c, r, n - |done|);
    if r <= n - |done| {
      PrependBoth(done, Run(c, r), Rest(h, fat, NextCluster(fat, c + r - 1), n - |done| - r));
      assert [] + Run(c, r) == Run(c, r);
    }
  }

  lemma RunAdvances(disk: Disk, h: Header, fat: seq<byte>, start: nat, n: nat, done: seq<nat>, c: nat, r: nat)
    requires LinksInTable(h, fat) && LinkIndex(start) + 1 < |fat|
    requires Progress(disk, h, fat, start, n, done, c) && (done == [] || (IsValidForRead(h, c) && |done| < n))
    requires r >= 1 && Contiguous(h, fat, c, r) && LinkIndex(c) + 1 < |fat| && LinkIndex(c + r - 1) + 1 < |fat|
    ensures r > n - |done| ==> Clusters(disk, h, fat, start, n).None?
    ensures r <= n - |done| && !AllStored(disk, h, Run(c, r)) ==> Clusters(disk, h, fat, start, n).None?
    ensures r <= n - |done| && AllStored(disk, h, Run(c, r)) ==>
      Progress(disk, h, fat, start, n, done + Run(c, r), NextCluster(fat, c + r - 1))
  {
    hide IsValidForRead, IsEOF, LinkIndex, NextCluster, Chain, Contiguous, IsStored, Rest;
    ChainAfterRun(disk, h, fat, start, n, done, c, r);
    if r <= n - |done| {
      var run := Run(c, r);
      var rest := Rest(h, fat, NextCluster(fat, c + r - 1), n - |done| - r);
      if AllStored(disk, h, run) {
        BothStored(disk, h, done, run);
      } else if rest.Some? && AllStored(disk, h, done + run + rest.value) {
        StoredInPart(disk, h, done, run, rest.value);
      }
    }
  }

  lemma BothStored(disk: Disk, h: Header, a: seq<nat>, b: seq<nat>)
    requires h.bytesPerLogicalSector > 0 && AllStored(disk, h, a) && AllStored(disk, h, b)
    ensures AllStored(disk, h, a + b)
  {
    hide IsStored;
  }

  lemma DataLength(disk: Disk, h: Header, cs: seq<nat>)
    requires disk.Valid() && h.bytesPerLogicalSector > 0 && AllStored(disk, h, cs)
    ensures |Data(disk, h, cs)| == |cs| * disk.sectorBytes
  {
    if cs != [] {
      DataLength(disk, h, cs[..|cs| - 1]);
      assert IsStored(disk, h, cs[|cs| - 1]);
      assert (|cs| - 1) * disk.sectorBytes + disk.sectorBytes == |cs| * disk.sectorBytes;
    }
  }

  lemma UnitsLeft(n: nat, done: nat, size: nat)
    requires size > 0 && done <= n
    ensures n * size >= done * size && (n * size - done * size) / size == n - done
  {
    MulMonotone(size, done, n);
    assert n * size - done * size == size * (n - done);
    DivIs(size * (n - done), size, n - done, 0);
  }

  method MemCopy(buffer: seq<byte>, dst: array<byte>, at: nat)
    requires at + |buffer| <= dst.Length
    modifies dst
    ensures dst[..] == old(dst[..at]) + buffer + old(dst[at + |buffer|..])
  {
    for i := 0 to |buffer|
      invariant dst[..] == old(dst[..at]) + buffer[..i] + old(dst[at + i..])
    {
      dst[at + i] := buffer[i];
    }
  }

  /** Reading a run and putting it behind what is there. */
  method ReadRun(disk: Disk, h: Header, first: Location, units: nat, dst: array<byte>, at: nat) returns (read: bool)
    requires disk.Valid() && disk.sectorBytes == h.bytesPerLogicalSector && h.logicalSectorsPerCluster == 1
    requires first == FileStartLocation(h, first.allocUnit) && first.sector >= 0 && DoesNotWrap(disk, first.sector, units)
    requires at + units * disk.sectorBytes <= dst.Length
    modifies dst
    ensures read <==> disk.ready && AllStored(disk, h, Run(first.allocUnit, units))
    ensures read ==>
      dst[..] == old(dst[..at]) + Data(disk, h, Run(first.allocUnit, units)) + old(dst[at + units * disk.sectorBytes..])
    ensures !read ==> dst[..] == old(dst[..])
  {
    hide ClusterStartSector, IsStored, AllStored, Data, Stretch;
    RunIsStored(disk, h, first.allocUnit, units);
    var e, sectorBuffer := ReadSector(disk, first.sector, units);
    if !e.SeNone? {
      return false;
    }
    StretchIsData(disk, h, first.allocUnit, units);
    DataLength(disk, h, Run(first.allocUnit, units));
    MemCopy(sectorBuffer, dst, at);
    return true;
  }

  /** What the loop's end says about the chain. */
  lemma LoopEnds(disk: Disk, h: Header, fat: seq<byte>, start: nat, n: nat, done: seq<nat>, c: nat)
    requires LinksInTable(h, fat) && LinkIndex(start) + 1 < |fat|
    requires Progress(disk, h, fat, start, n, done, c) && done != []
    requires !(IsValidForRead(h, c) && |done| < n)
    ensures Clusters(disk, h, fat, start, n) == if IsEOF(c) && |done| == n then Some(done) else None
  {
    hide Chain, IsStored;
    assert done + [] == done;
  }

  lemma SizesCompare(a: nat, b: nat, size: nat)
    requires size > 0 && a <= b
    ensures a * size < b * size <==> a < b
    ensures a * size <= b * size
  {
    MulMonotone(size, a, b);
    if a < b {
      MulMonotone(size, a + 1, b);
    }
  }

  lemma StartIsAhead(h: Header, c: nat)
    requires h.bytesPerLogicalSector > 0 && c >= MIN_FILE_CLUSTER
    ensures ClusterStartSector(h, c) >= 0
  {
    MulMonotone(h.logicalSectorsPerCluster, 0, c - MIN_FILE_CLUSTER);
  }

  lemma NothingDone(disk: Disk, h: Header, fat: seq<byte>, start: nat, n: nat)
    requires LinksInTable(h, fat) && LinkIndex(start) + 1 < |fat|
    ensures Progress(disk, h, fat, start, n, [], start) && AllStored(disk, h, []) && Data(disk, h, []) == []
  {
  }

  lemma SumOfSizes(a: nat, b: nat, size: nat)
    ensures a * size + b * size == (a + b) * size
  {
  }

  /** The sectors before the clusters end below 2 GiB: the products in the ranges of the header have not left the range of int. */
  predicate InReach(h: Header) {
    h.bytesPerLogicalSector <= 0x8000 && DirectoryRange(h).offset + DirectoryRange(h).length < 0x8000_0000
  }

  /** So no cluster starts above 4 GiB. */
  lemma ClusterInReach(h: Header, c: nat)
    requires InReach(h) && h.bytesPerLogicalSector > 0 && h.logicalSectorsPerCluster == 1
    requires MIN_FILE_CLUSTER <= c < 0x1_0000
    ensures 0 <= ClusterStartSector(h, c) * h.bytesPerLogicalSector < WORD
  {
    hide DirectoryRange;
    var size, end := h.bytesPerLogicalSector, DirectoryRange(h).offset + DirectoryRange(h).length;
    assert FirstClusterSector(h) * size <= end;
    var k := c - MIN_FILE_CLUSTER;
    MulMonotone(k, size, 0x8000);
    assert ClusterStartSector(h, c) == FirstClusterSector(h) + k;
    assert (FirstClusterSector(h) + k) * size == FirstClusterSector(h) * size + k * size;
  }

  /** The outer loop is about to read from this location. */
  ghost predicate At(disk: Disk, h: Header, fat: seq<byte>, start: nat, n: nat, done: seq<nat>, current: Location)
    requires LinksInTable(h, fat) && LinkIndex(start) + 1 < |fat|
  {
    && Progress(disk, h, fat, start, n, done, current.allocUnit)
    && (done == [] || (IsValidForRead(h, current.allocUnit) && |done| < n))
    && current == FileStartLocation(h, current.allocUnit) && current.sector >= 0
    && MIN_FILE_CLUSTER <= current.allocUnit < 0x1_0000
    && LinkIndex(current.allocUnit) + 1 < |fat|
  }

  lemma FragmentDoesNotWrap(disk: Disk, h: Header, current: Location, n: nat, done: nat, units: nat)
    requires disk.Valid() && disk.sectorBytes == h.bytesPerLogicalSector && h.logicalSectorsPerCluster == 1 && InReach(h)
    requires current == FileStartLocation(h, current.allocUnit) && current.sector >= 0
    requires MIN_FILE_CLUSTER <= current.allocUnit < 0x1_0000
    requires done + units <= n && n * disk.sectorBytes < WORD
    ensures DoesNotWrap(disk, current.sector, units)
  {
    hide InReach, ClusterStartSector;
    ClusterInReach(h, current.allocUnit);
    MulMonotone(disk.sectorBytes, units, n);
  }

  /** One round of the outer loop: a run of clusters is found, and read behind those already done. */
  method LoadFragment(disk: Disk, h: Header, fat: seq<byte>, ghost start: nat, expectedBytes: nat, ghost n: nat, dst: array<byte>,
                      current: Location, totalBytes: nat, ghost done: seq<nat>)
    returns (read: bool, next: Location, newTotal: nat, ghost newDone: seq<nat>)
    requires disk.Valid() && disk.ready && disk.sectorBytes == h.bytesPerLogicalSector && h.logicalSectorsPerCluster == 1
    requires LinksInTable(h, fat) && LinkIndex(start) + 1 < |fat|
    requires InReach(h) && expectedBytes == n * disk.sectorBytes <= dst.Length && expectedBytes < WORD
    requires At(disk, h, fat, start, n, done, current)
    requires |done| <= n && AllStored(disk, h, done) && totalBytes == |done| * disk.sectorBytes <= expectedBytes
    requires dst[..totalBytes] == Data(disk, h, done)
    modifies dst
    ensures !read ==> Clusters(disk, h, fat, start, n).None?
    ensures dst[expectedBytes..] == old(dst[expectedBytes..])
    ensures read ==>
      && |done| < |newDone| <= n && AllStored(disk, h, newDone)
      && Progress(disk, h, fat, start, n, newDone, next.allocUnit) && next == FileStartLocation(h, next.allocUnit)
      && newTotal == |newDone| * disk.sectorBytes <= expectedBytes
      && dst[..newTotal] == Data(disk, h, newDone)
  {
    hide ClusterStartSector, IsStored, IsValidForRead, LinkIndex, NextCluster, Contiguous, Clusters, Progress, Data, LinksInTable;
    var last := LastContiguous(h, fat, current);
    // The run cannot go backwards, so the test for that needs no branch.
    var allocUnitsToRead := last.allocUnit - current.allocUnit + 1;
    UnitsLeft(n, |done|, disk.sectorBytes);
    var allocUnitsLeft := (expectedBytes - totalBytes) / current.sizeBytes;
    RunAdvances(disk, h, fat, start, n, done, current.allocUnit, allocUnitsToRead);
    next, newTotal, newDone := current, totalBytes, done;
    if allocUnitsToRead > allocUnitsLeft {
      return false, next, newTotal, newDone;
    }
    SizesCompare(|done| + allocUnitsToRead, n, disk.sectorBytes);
    SumOfSizes(|done|, allocUnitsToRead, disk.sectorBytes);
    ghost var run := Run(current.allocUnit, allocUnitsToRead);
    FragmentDoesNotWrap(disk, h, current, n, |done|, allocUnitsToRead);
    read := ReadRun(disk, h, current, allocUnitsToRead, dst, totalBytes);
    if read {
      DataOfBoth(disk, h, done, run);
      DataLength(disk, h, run);
      newTotal := totalBytes + allocUnitsToRead * current.sizeBytes;
      next := NextLocation(h, fat, last);
      newDone := done + run;
    }
  }

  /** The clusters from start on, as many as there should be bytes. */
  method LoadClusters(disk: Disk, h: Header, fat: seq<byte>, start: nat, expectedBytes: nat, ghost n: nat, dst: array<byte>)
    returns (loaded: bool)
    requires disk.Valid() && disk.ready && disk.sectorBytes == h.bytesPerLogicalSector && h.logicalSectorsPerCluster == 1
    requires LinksInTable(h, fat) && LinkIndex(start) + 1 < |fat| && MIN_FILE_CLUSTER <= start < 0x1_0000
    requires InReach(h) && expectedBytes == n * disk.sectorBytes <= dst.Length && expectedBytes < WORD
    modifies dst
    ensures loaded <==> Clusters(disk, h, fat, start, n).Some?
    ensures loaded ==> dst[..expectedBytes] == Data(disk, h, Clusters(disk, h, fat, start, n).value)
    ensures dst[expectedBytes..] == old(dst[expectedBytes..])
  {
    hide ClusterStartSector, IsStored, IsValidForRead, LinkIndex, NextCluster, Clusters, Progress, Data;
    StartIsAhead(h, start);
    NothingDone(disk, h, fat, start, n);
    var current := FileStartLocation(h, start);
    var totalBytes := 0;
    ghost var done: seq<nat> := [];
    while true
      invariant At(disk, h, fat, start, n, done, current)
      invariant |done| <= n && AllStored(disk, h, done) && totalBytes == |done| * disk.sectorBytes <= expectedBytes
      invariant dst[..totalBytes] == Data(disk, h, done)
      invariant dst[expectedBytes..] == old(dst[expectedBytes..])
      decreases n - |done|
    {
      var read;
      read, current, totalBytes, done :=
        LoadFragment(disk, h, fat, start, expectedBytes, n, dst, current, totalBytes, done);
      if !read {
        return false;
      }
      SizesCompare(|done|, n, disk.sectorBytes);
      if !(IsValidForRead(h, current.allocUnit) && totalBytes < expectedBytes) {
        break;
      }
      ReadableIsBounded(h, current.allocUnit);
      StartIsAhead(h, current.allocUnit);
    }
    LoopEnds(disk, h, fat, start, n, done, current.allocUnit);
    loaded := IsEOF(current.allocUnit) && expectedBytes == totalBytes;
  }

  // ---------------------------------------------------------------- a whole file

  /** The size of the file rounded up to clusters, in 32 bits. */
  function ExpectedBytes(h: Header, size: uint32): uint32
    requires h.bytesPerLogicalSector > 0 && h.logicalSectorsPerCluster == 1
  {
    Aligned(size, h.bytesPerLogicalSector) % WORD
  }

  lemma ExpectedIsWhole(h: Header, size: uint32)
    requires PopCount(h.bytesPerLogicalSector) == 1 && h.bytesPerLogicalSector > 0 && h.logicalSectorsPerCluster == 1
    ensures ExpectedBytes(h, size) == ExpectedBytes(h, size) / h.bytesPerLogicalSector * h.bytesPerLogicalSector
  {
    hide Aligned, PopCount;
    var s := h.bytesPerLogicalSector;
    var a := Aligned(size, s);
    AlignedIsMultiple(size, s);
    SectorSizeIsBounded(h);
    var w := SectorSizeDividesWord(h);
    AtMostWord(s, w, a, a / s);
    if a >= WORD {
      DivIs(0, s, 0, 0);
    }
  }

  /** A multiple of the sector size that is less than a sector above 4 GiB is not above it. */
  lemma AtMostWord(s: nat, w: nat, a: nat, q: nat)
    requires s > 0 && s * w == WORD && a == q * s && a < WORD + s
    ensures a <= WORD && a % WORD == if a == WORD then 0 else a
  {
    if a >= WORD {
      assert s * w <= s * q < s * w + s;
      OnlyQuotient(s, w, q);
    }
  }

  lemma OnlyQuotient(s: nat, a: nat, b: nat)
    requires s > 0 && s * a <= s * b < s * a + s
    ensures a == b
  {
    assert s * (a + 1) == s * a + s && s * (b + 1) == s * b + s;
    if a < b {
      MulMonotone(s, a + 1, b);
    } else if b < a {
      MulMonotone(s, b + 1, a);
    }
  }

  /** A table of that length has the links of the first cluster and of all that may be read. */
  ghost predicate LinksFit(h: Header, start: nat, length: nat)
    requires h.bytesPerLogicalSector > 0 && h.logicalSectorsPerCluster > 0
  {
    LinkIndex(start) + 1 < length && forall c :: IsValidForRead(h, c) ==> LinkIndex(c) + 1 < length
  }

  /** So has the table of every volume whose header was accepted. */
  lemma DetectedLinksFit(h: Header, g: Geometry, start: nat, size: nat)
    requires Detect(h, g) && h.hiddenSectors == 0 && h.logicalSectorsPerCluster == 1 && ValidDirEntry(h, start, size)
    ensures LinksFit(h, start, FatRange(h).length)
  {
    hide FatBytes, FatRange, FatEntries, UtilitySectors, LinkIndex, LastCluster, IsValidForRead;
    TableIsInRange(h);
    StartLinkIsInTable(h, start, size);
    forall c | IsValidForRead(h, c)
      ensures LinkIndex(c) + 1 < FatRange(h).length
    {
      LinksAreInTable(h, c);
    }
  }

  /** The table as it is on the disk, all copies of it. */
  ghost function TableOf(disk: Disk, h: Header): seq<byte>
    requires disk.sectorBytes > 0
  {
    BytesFrom(disk, FatRange(h).offset, FatRange(h).length)
  }

  ghost predicate TableCanBeRead(disk: Disk, h: Header)
    requires disk.sectorBytes > 0
  {
    disk.ready && disk.HasAll(FatRange(h).offset / disk.sectorBytes, SectorsOf(FatRange(h), disk.sectorBytes))
  }

  lemma TableHasLinks(disk: Disk, h: Header, start: nat)
    requires disk.sectorBytes > 0 && h.bytesPerLogicalSector > 0 && h.logicalSectorsPerCluster > 0
    requires LinksFit(h, start, FatRange(h).length)
    ensures LinksInTable(h, TableOf(disk, h)) && LinkIndex(start) + 1 < |TableOf(disk, h)|
  {
    hide FatRange, IsValidForRead, LinkIndex;
  }

  /** How a file is to be loaded: the clusters, if everything is as it should be. */
  ghost function File(disk: Disk, h: Header, start: nat, n: nat): Option<seq<nat>>
    requires disk.sectorBytes > 0 && h.bytesPerLogicalSector > 0 && h.logicalSectorsPerCluster > 0
    requires LinksFit(h, start, FatRange(h).length)
  {
    TableHasLinks(disk, h, start);
    if TableCanBeRead(disk, h) && CopiesPass(h, TableOf(disk, h)) then Clusters(disk, h, TableOf(disk, h), start, n) else None
  }

  /**
    * A file is loaded exactly when its table can be read and its copies pass the comparison, the chain from its first cluster has as many clusters
    * as its size asks for and then an end mark, and all of them can be read; what is loaded are their sectors in the order
    * of the chain.
    */
  method LoadFile(disk: Disk, h: Header, start: uint16, size: uint32, dst: array<byte>)
    returns (loaded: bool, ghost n: nat)
    requires h.bytesPerLogicalSector > 0 && h.logicalSectorsPerCluster == 1 && PopCount(h.bytesPerLogicalSector) == 1
    requires disk.sectorBytes == h.bytesPerLogicalSector && disk.Valid()
    requires start >= MIN_FILE_CLUSTER && LinksFit(h, start, FatRange(h).length) && InReach(h)
    requires ExpectedBytes(h, size) <= dst.Length
    modifies dst
    ensures n == ExpectedBytes(h, size) / h.bytesPerLogicalSector
    ensures loaded <==> File(disk, h, start, n).Some?
    ensures loaded ==>
      var cs := File(disk, h, start, n).value;
      AllStored(disk, h, cs) && dst[..ExpectedBytes(h, size)] == Data(disk, h, cs)
    ensures dst[ExpectedBytes(h, size)..] == old(dst[ExpectedBytes(h, size)..])
  {
    hide FatRange, LinkIndex, LinksInTable, LinksFit, AreBytes, BytesFrom, ExpectedBytes, SectorsOf, Data, PopCount, Chain;
    ExpectedIsWhole(h, size);
    TableHasLinks(disk, h, start);
    n := ExpectedBytes(h, size) / h.bytesPerLogicalSector;
    // The range of a detected header is not empty, so the test for that needs no branch.
    var e, fatBytes := ReadBytes(disk, FatRange(h));
    if !e.SeNone? {
      return false, n;
    }
    BytesAreKnown(disk, FatRange(h).offset, fatBytes);
    var verified := FatVerify(h, fatBytes);
    if !verified {
      return false, n;
    }
    loaded := LoadClusters(disk, h, fatBytes, start, ExpectedBytes(h, size), n, dst);
  }

  /** For a volume that was detected and a file that its directory names, the loader has what it asks for. */
  lemma DetectedFileCanBeLoaded(h: Header, g: Geometry, start: uint16, size: uint32)
    requires Detect(h, g) && h.hiddenSectors == 0 && h.logicalSectorsPerCluster == 1 && ValidDirEntry(h, start, size)
    ensures h.bytesPerLogicalSector > 0 && PopCount(h.bytesPerLogicalSector) == 1
    ensures start >= MIN_FILE_CLUSTER && LinksFit(h, start, FatRange(h).length) && InReach(h)
  {
    hide FatRange, LayoutFits, LinksFit, DirectoryRange, PopCount;
    SectorSizeIsBounded(h);
    RangesDoNotOverflow(h);
    DetectedLinksFit(h, g, start, size);
  }
}
