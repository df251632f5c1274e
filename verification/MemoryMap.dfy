/** Turning the BIOS memory map into the table of physical frames, in 32-bit arithmetic that wraps. */
module MemoryMap {
  import opened Outcomes
  import opened PagingState
  import opened Words

  function Wrap(x: nat): uint32 {
    x % WORD
  }

  datatype RangeType = NoRange | MemoryRange | ReservedRange | UnknownRange

  datatype MapEntry = MapEntry(baseLow: uint32, baseHigh: uint32, lengthLow: uint32, lengthHigh: uint32, kind: RangeType)

  const NO_FRAME := Frame(false, false, false, 0)

  // ---------------------------------------------------------------- what the map says, without any limit on numbers

  /** Where a region with its base below 4 GiB ends. */
  function RegionEnd(e: MapEntry): nat {
    e.baseLow + e.lengthLow + e.lengthHigh * WORD
  }

  /** Memory is rounded inwards: the page lies wholly inside it. A reserved region is rounded outwards. */
  predicate Touches(e: MapEntry, page: nat) {
    && e.baseHigh == 0
    && if e.kind.MemoryRange? then e.baseLow <= page * PAGE_BYTES && (page + 1) * PAGE_BYTES <= RegionEnd(e)
       else page * PAGE_BYTES < RegionEnd(e) && e.baseLow < (page + 1) * PAGE_BYTES
  }

  /** The code passes over a reserved region whose end is rounded up to 4 GiB. */
  predicate PassedOver(e: MapEntry) {
    e.kind.ReservedRange? && WORD - PAGE_BYTES < RegionEnd(e) < WORD
  }

  function KernelPage(page: nat): bool {
    page * PAGE_BYTES < KERNEL_BYTES
  }

  function Marked(e: MapEntry, page: nat): Frame {
    Frame(true, e.kind.MemoryRange?, KernelPage(page), if KernelPage(page) then 1 else 0)
  }

  /** The status of a page after the first n entries: that of the last one that touches it. */
  function Status(regions: seq<MapEntry>, n: nat, page: nat): Frame
    requires n <= |regions|
  {
    if n == 0 then NO_FRAME
    else if Touches(regions[n - 1], page) && !PassedOver(regions[n - 1]) then Marked(regions[n - 1], page)
    else Status(regions, n - 1, page)
  }

  /** The entries that count are those before the first one of no type. */
  function Entries(regions: seq<MapEntry>, i: nat): (n: nat)
    requires i <= |regions|
    ensures i <= n <= |regions|
    decreases |regions| - i
  {
    if i == |regions| || regions[i].kind.NoRange? then i else Entries(regions, i + 1)
  }

  // ---------------------------------------------------------------- the same in 32 bits

  function AlignedR(value: uint32, roundUp: bool): uint32 {
    if value % PAGE_BYTES != 0 then Wrap((value / PAGE_BYTES) * PAGE_BYTES + if roundUp then PAGE_BYTES else 0)
    else value
  }

  /** The region goes up to 4 GiB or beyond. */
  predicate Limited(e: MapEntry) {
    !(e.lengthHigh == 0 && e.lengthLow == 0) && (e.lengthHigh != 0 || Wrap(e.baseLow + e.lengthLow) <= e.baseLow)
  }

  function First(e: MapEntry): uint32 {
    AlignedR(e.baseLow, e.kind.MemoryRange?)
  }

  function Beyond(e: MapEntry): uint32 {
    if Limited(e) then 0 else AlignedR(Wrap(e.baseLow + e.lengthLow), !e.kind.MemoryRange?)
  }

  /** First page and number of pages that an entry covers; none when the code skips it. */
  function PageRange(e: MapEntry): Option<(nat, nat)> {
    if e.baseHigh != 0 then None
    else if First(e) < e.baseLow && e.kind.MemoryRange? then None
    else if Beyond(e) <= First(e) && !Limited(e) then None
    else if Beyond(e) == 0 && First(e) == 0 then Some((0, MAX_FRAMES))
    else Some((First(e) / PAGE_BYTES, Wrap(Beyond(e) - First(e) + WORD) / PAGE_BYTES))
  }

  lemma LimitedMeansFar(e: MapEntry)
    ensures Limited(e) <==> RegionEnd(e) >= WORD
    ensures !Limited(e) ==> Wrap(e.baseLow + e.lengthLow) == RegionEnd(e)
  {
    if e.baseLow + e.lengthLow >= WORD {
      assert Wrap(e.baseLow + e.lengthLow) == e.baseLow + e.lengthLow - WORD;
    }
  }

  /** Rounding up gives 0 when the multiple is 4 GiB. */
  lemma Rounding(value: uint32, page: nat)
    requires page < MAX_FRAMES
    ensures var down := AlignedR(value, false);
            down % PAGE_BYTES == 0 && (down / PAGE_BYTES <= page <==> value < (page + 1) * PAGE_BYTES)
    ensures var up := AlignedR(value, true);
            && up % PAGE_BYTES == 0
            && (up == 0 <==> value == 0 || value > WORD - PAGE_BYTES)
            && (up < value <==> value > WORD - PAGE_BYTES)
            && (up >= value ==> (up / PAGE_BYTES <= page <==> value <= page * PAGE_BYTES))
  {
    var q := value / PAGE_BYTES;
    assert value == q * PAGE_BYTES + value % PAGE_BYTES;
    if value % PAGE_BYTES != 0 {
      assert AlignedR(value, false) == q * PAGE_BYTES;
      if value <= WORD - PAGE_BYTES {
        assert AlignedR(value, true) == (q + 1) * PAGE_BYTES;
      }
    }
  }

  /** Pages from one multiple up to another, the second being 4 GiB if it reads as 0. */
  lemma PagesBetween(first: uint32, next: uint32, page: nat)
    requires first % PAGE_BYTES == 0 && next % PAGE_BYTES == 0 && page < MAX_FRAMES
    requires first < next || next == 0
    ensures var n := if next == 0 && first == 0 then MAX_FRAMES else Wrap(next - first + WORD) / PAGE_BYTES;
            first / PAGE_BYTES <= page < first / PAGE_BYTES + n <==>
            first / PAGE_BYTES <= page && (next != 0 ==> page < next / PAGE_BYTES)
  {
    if first < next {
      assert Wrap(next - first + WORD) == next - first;
    } else if first != 0 {
      assert Wrap(next - first + WORD) == WORD - first;
    }
  }

  /** The wrapping computation names exactly the pages that the region touches. */
  lemma PageRangeIsExact(e: MapEntry, page: nat)
    requires e.kind.MemoryRange? || e.kind.ReservedRange?
    requires page < MAX_FRAMES
    ensures PageRange(e).Some? && PageRange(e).value.0 <= page < PageRange(e).value.0 + PageRange(e).value.1 <==>
            Touches(e, page) && !PassedOver(e)
  {
    hide AlignedR, Limited, Wrap;
    LimitedMeansFar(e);
    Rounding(e.baseLow, page);
    if !Limited(e) {
      Rounding(RegionEnd(e), page);
    }
    if First(e) < Beyond(e) || Beyond(e) == 0 {
      PagesBetween(First(e), Beyond(e), page);
    }
  }

  // ---------------------------------------------------------------- the loops

  method MarkRegion(e: MapEntry, frames: array<Frame>)
    requires e.kind.MemoryRange? || e.kind.ReservedRange?
    requires frames.Length <= MAX_FRAMES
    modifies frames
    ensures forall page :: 0 <= page < frames.Length ==>
      frames[page] == if Touches(e, page) && !PassedOver(e) then Marked(e, page) else old(frames[page])
  {
    hide Touches, PassedOver, PageRange;
    var range := PageRange(e);
    if range.None? {
      forall page | 0 <= page < frames.Length
        ensures !(Touches(e, page) && !PassedOver(e))
      {
        PageRangeIsExact(e, page);
      }
      return;
    }
    var (startPage, lengthPages) := range.value;
    var page := startPage;
    while page < startPage + lengthPages && page < frames.Length
      invariant startPage <= page
      invariant forall q :: 0 <= q < frames.Length ==>
        frames[q] == if startPage <= q < page then Marked(e, q) else old(frames[q])
      invariant page <= startPage + lengthPages || page == startPage
    {
      frames[page] := Marked(e, page);
      page := page + 1;
    }
    forall q | 0 <= q < frames.Length
      ensures frames[q] == if Touches(e, q) && !PassedOver(e) then Marked(e, q) else old(frames[q])
    {
      PageRangeIsExact(e, q);
    }
  }

  /** The whole map: every page has the status of the last region that touches it. */
  method InitializePhysicalMemoryMap(regions: seq<MapEntry>, frames: array<Frame>) returns (oops: Option<Oops>)
    requires frames.Length <= MAX_FRAMES
    requires forall page :: 0 <= page < frames.Length ==> frames[page] == NO_FRAME
    modifies frames
    ensures oops.None? <==> forall i :: 0 <= i < Entries(regions, 0) ==> !regions[i].kind.UnknownRange?
    ensures oops.None? ==>
      forall page :: 0 <= page < frames.Length ==> frames[page] == Status(regions, Entries(regions, 0), page)
  {
    hide Touches, PassedOver;
    var i := 0;
    while i < |regions|
      invariant 0 <= i <= |regions| && Entries(regions, 0) == Entries(regions, i)
      invariant forall k :: 0 <= k < i ==> !regions[k].kind.UnknownRange?
      invariant forall page :: 0 <= page < frames.Length ==> frames[page] == Status(regions, i, page)
    {
      if regions[i].kind.NoRange? {
        break;
      } else if regions[i].kind.UnknownRange? {
        EntriesComeAfter(regions, i);
        return Some(MapInconsistent);
      }
      EntriesComeAfter(regions, i);
      MarkRegion(regions[i], frames);
      i := i + 1;
    }
    oops := None;
  }

  lemma EntriesComeAfter(regions: seq<MapEntry>, i: nat)
    requires i < |regions| && !regions[i].kind.NoRange?
    ensures i < Entries(regions, i)
  {
  }

  // ---------------------------------------------------------------- what follows for the frames

  /** Which region a marked page has its status from. */
  lemma {:induction false} StatusComesFrom(regions: seq<MapEntry>, n: nat, page: nat)
    requires n <= |regions|
    ensures Status(regions, n, page) == NO_FRAME ||
            exists i :: 0 <= i < n && Touches(regions[i], page) && Status(regions, n, page) == Marked(regions[i], page)
  {
    if n > 0 && !(Touches(regions[n - 1], page) && !PassedOver(regions[n - 1])) {
      StatusComesFrom(regions, n - 1, page);
    }
  }

  /** Every free frame lies wholly inside a region of memory below 4 GiB, and above the kernel. */
  lemma FreeFramesAreMemory(regions: seq<MapEntry>, page: nat)
    requires IsFree(Status(regions, Entries(regions, 0), page))
    ensures page * PAGE_BYTES >= KERNEL_BYTES
    ensures exists i :: 0 <= i < |regions| && regions[i].kind.MemoryRange? && regions[i].baseHigh == 0
              && regions[i].baseLow <= page * PAGE_BYTES && (page + 1) * PAGE_BYTES <= RegionEnd(regions[i])
  {
    StatusComesFrom(regions, Entries(regions, 0), page);
    var i :| 0 <= i < Entries(regions, 0) && Touches(regions[i], page)
      && Status(regions, Entries(regions, 0), page) == Marked(regions[i], page);
    assert regions[i].kind.MemoryRange?;
  }

  /** A reserved region that was not passed over keeps its pages from being free, unless a later region claims them. */
  lemma ReservedPagesAreNotFree(regions: seq<MapEntry>, n: nat, i: nat, page: nat)
    requires i < n <= |regions| && regions[i].kind.ReservedRange? && Touches(regions[i], page) && !PassedOver(regions[i])
    requires forall k :: i < k < n && regions[k].kind.MemoryRange? ==> !Touches(regions[k], page)
    ensures !IsFree(Status(regions, n, page))
  {
    if n - 1 > i && !(Touches(regions[n - 1], page) && !PassedOver(regions[n - 1])) {
      ReservedPagesAreNotFree(regions, n - 1, i, page);
    }
  }

  /** What the map means: the status of a page is that of the last region that touches it, whichever that is. */
  function Intended(regions: seq<MapEntry>, n: nat, page: nat): Frame
    requires n <= |regions|
  {
    if n == 0 then NO_FRAME
    else if Touches(regions[n - 1], page) then Marked(regions[n - 1], page)
    else Intended(regions, n - 1, page)
  }

  /** Region i is the last one of the first n that touches the page. */
  predicate LastTouching(regions: seq<MapEntry>, n: nat, i: nat, page: nat) {
    && i < n <= |regions| && Touches(regions[i], page)
    && forall k :: i < k < n ==> !Touches(regions[k], page)
  }

  lemma {:induction false} AfterLastTouching(regions: seq<MapEntry>, n: nat, i: nat, page: nat)
    requires LastTouching(regions, n, i, page)
    ensures Intended(regions, n, page) == Marked(regions[i], page)
    ensures Status(regions, n, page) == if PassedOver(regions[i]) then Status(regions, i, page) else Marked(regions[i], page)
    decreases n
  {
    hide Touches, PassedOver, Marked;
    if i < n - 1 {
      AfterLastTouching(regions, n - 1, i, page);
    }
  }

  lemma {:induction false} Untouched(regions: seq<MapEntry>, n: nat, page: nat)
    requires n <= |regions| && forall k :: 0 <= k < n ==> !Touches(regions[k], page)
    ensures Intended(regions, n, page) == Status(regions, n, page) == NO_FRAME
    decreases n
  {
    hide Touches, PassedOver;
    if n > 0 {
      Untouched(regions, n - 1, page);
    }
  }

  lemma {:induction false} FindLastTouching(regions: seq<MapEntry>, n: nat, page: nat) returns (last: Option<nat>)
    requires n <= |regions|
    ensures match last
            case Some(i) => LastTouching(regions, n, i, page)
            case None => forall k :: 0 <= k < n ==> !Touches(regions[k], page)
    decreases n
  {
    hide Touches;
    if n == 0 {
      last := None;
    } else if Touches(regions[n - 1], page) {
      last := Some(n - 1);
    } else {
      last := FindLastTouching(regions, n - 1, page);
    }
  }

  /**
    * A page has the status that the map means exactly if no region touches it, or the last one that does is not passed over,
    * or the regions before that one mark the page as it would have.
    */
  lemma StatusIsIntendedIff(regions: seq<MapEntry>, n: nat, page: nat)
    requires n <= |regions|
    ensures Status(regions, n, page) == Intended(regions, n, page) <==>
            forall i :: 0 <= i < n && LastTouching(regions, n, i, page) && PassedOver(regions[i]) ==>
              Status(regions, i, page) == Marked(regions[i], page)
  {
    hide Touches, PassedOver, Marked;
    var last := FindLastTouching(regions, n, page);
    match last
    case Some(i) => AfterLastTouching(regions, n, i, page);
    case None => Untouched(regions, n, page);
  }

  /** So a page that a passed-over reservation was the last to claim is free exactly if the regions before it leave it free. */
  lemma LostPageIsFreeIff(regions: seq<MapEntry>, n: nat, i: nat, page: nat)
    requires LastTouching(regions, n, i, page) && PassedOver(regions[i])
    ensures !IsFree(Intended(regions, n, page))
    ensures IsFree(Status(regions, n, page)) <==> IsFree(Status(regions, i, page))
  {
    AfterLastTouching(regions, n, i, page);
  }

  /** Memory up to 16 MiB, and a reservation of everything from 8 MiB to the last byte but one below 4 GiB. */
  function LostReservation(): seq<MapEntry> {
    [MapEntry(0, 0, 0x100_0000, 0, MemoryRange), MapEntry(0x80_0000, 0, 0xFF7F_FFFF, 0, ReservedRange)]
  }

  /** The one kind of region that is passed over can hide a reservation of free memory. */
  lemma PassedOverRegionIsLost(page: nat)
    requires 0x800 <= page < 0x1000
    ensures var regions := LostReservation();
            && Entries(regions, 0) == 2
            && Touches(regions[1], page) && IsFree(Status(regions, 2, page))
  {
    var regions := LostReservation();
    assert Touches(regions[0], page);
    assert PassedOver(regions[1]);
    assert Status(regions, 2, page) == Status(regions, 1, page);
    assert Entries(regions, 1) == 2;
  }

  /** The table is a fit start for paging. */
  lemma MapGivesInitialMemory(regions: seq<MapEntry>, frames: seq<Frame>)
    requires |frames| <= MAX_FRAMES
    requires forall page :: 0 <= page < |frames| ==> frames[page] == Status(regions, Entries(regions, 0), page)
    ensures |frames| > 0 ==> !Usable(frames[0])
    ensures forall f :: 0 <= f < |frames| && !frames[f].reserved ==> frames[f].assignCount == 0
  {
    forall f | 0 <= f < |frames|
      ensures frames[f] == NO_FRAME || (frames[f].reserved == KernelPage(f) && frames[f].assignCount == if KernelPage(f) then 1 else 0)
    {
      StatusComesFrom(regions, Entries(regions, 0), f);
    }
  }
}
