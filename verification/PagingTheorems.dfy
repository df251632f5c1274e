/** Paging from the outside: translations, error codes and the frames that come and go. */
module PagingTheorems {
  import opened Arithmetic
  import opened Outcomes
  import opened PagingState
  import opened PagingProofs

  // ---------------------------------------------------------------- assigning a range

  /** How many pages of a range have a translation that they had not before. */
  ghost function NewPages(a: Info, b: Info, page: nat, end: nat): nat
    requires page <= end
    decreases end - page
  {
    if page == end then 0
    else NewPages(a, b, page + 1, end) + if Translate(a, page).None? && Translate(b, page).Some? then 1 else 0
  }

  lemma {:induction false} NewPagesIsLocal(a: Info, b: Info, c: Info, d: Info, page: nat, end: nat)
    requires page <= end
    requires forall q: nat :: page <= q < end ==> Translate(a, q) == Translate(c, q) && Translate(b, q) == Translate(d, q)
    ensures NewPages(a, b, page, end) == NewPages(c, d, page, end)
    decreases end - page
  {
    if page < end {
      NewPagesIsLocal(a, b, c, d, page + 1, end);
    }
  }

  lemma {:induction false} NoNewPages(a: Info, b: Info, page: nat, end: nat)
    requires page <= end
    requires forall q: nat :: page <= q < end ==> Translate(a, q) == Translate(b, q)
    ensures NewPages(a, b, page, end) == 0
    decreases end - page
  {
    if page < end {
      NoNewPages(a, b, page + 1, end);
    }
  }

  /** Old translations stay; new ones appear only in the range. */
  ghost predicate Extends(a: Info, b: Info, page: nat, end: nat) {
    forall q: nat :: Translate(a, q).Some? || !(page <= q < end) ==> Translate(b, q) == Translate(a, q)
  }

  ghost predicate AnyMapped(info: Info, page: nat, end: nat, mapped: bool) {
    exists q: nat :: page <= q < end && Translate(info, q).Some? == mapped
  }

  ghost predicate AllMapped(info: Info, page: nat, end: nat) {
    forall q: nat :: page <= q < end ==> Translate(info, q).Some?
  }

  predicate Succeeded(e: MemError) {
    e.NoMemError? || e.PartAlreadyAssigned? || e.AlreadyAssigned?
  }

  /** What a result code says about the pages asked for. */
  ghost predicate CodeOk(a: Info, m': Memory, p: nat, page: nat, end: nat, e: MemError)
    requires p < |m'.infos|
  {
    match e
    case NoMemError => AllMapped(m'.infos[p], page, end) && !AnyMapped(a, page, end, true)
    case AlreadyAssigned => AllMapped(a, page, end)
    case PartAlreadyAssigned => AllMapped(m'.infos[p], page, end) && AnyMapped(a, page, end, true) && AnyMapped(a, page, end, false)
    case OutOfMemory => !AllMapped(m'.infos[p], page, end) && FreeFrames(m'.frames) == {}
    case OutOfPages => !AllMapped(m'.infos[p], page, end) && AllUsed(m'.infos[p])
    case Unavailable => end > USER_DIRS * MAX_PAGE_ENTRY
    case InvalidArgument => false
  }

  /** The same, while some pages before have been met already. */
  ghost predicate CodeSoFar(a: Info, m': Memory, p: nat, page: nat, end: nat, newPages: bool, overlap: bool, e: MemError)
    requires p < |m'.infos|
  {
    if Succeeded(e) then
      && AllMapped(m'.infos[p], page, end)
      && e == Success(newPages || AnyMapped(a, page, end, false), overlap || AnyMapped(a, page, end, true))
    else CodeOk(a, m', p, page, end, e)
  }

  ghost predicate AssignedRange(m: Memory, m': Memory, p: nat, page: nat, end: nat)
    requires p < |m.infos| && page <= end
  {
    && MemoryOk(m') && OnlyProcess(m, m', p)
    && Extends(m.infos[p], m'.infos[p], page, end)
    && FreeFrames(m'.frames) <= FreeFrames(m.frames)
    && |FreeFrames(m.frames)| - |FreeFrames(m'.frames)| == NewPages(m.infos[p], m'.infos[p], page, end)
  }

  /** One page done, and the rest of the range after it. */
  lemma RangeAfterPage(m: Memory, m1: Memory, m': Memory, p: nat, page: nat, end: nat, r: PageResult)
    requires p < |m.infos| && page < end && OnlyProcess(m, m1, p)
    requires Handled(m, m1, p, page, r) && !r.Refused? && SameElsewhere(m.infos[p], m1.infos[p], page)
    requires AssignedRange(m1, m', p, page + 1, end)
    ensures AssignedRange(m, m', p, page, end)
  {
    hide MemoryOk, FreeFrames, Translate;
    NewPagesIsLocal(m.infos[p], m'.infos[p], m1.infos[p], m'.infos[p], page + 1, end);
  }

  lemma CodeAfterPage(m: Memory, m1: Memory, m': Memory, p: nat, page: nat, end: nat, r: PageResult,
                      newPages: bool, overlap: bool, e: MemError)
    requires p < |m.infos| && page < end && OnlyProcess(m, m1, p)
    requires Handled(m, m1, p, page, r) && !r.Refused? && SameElsewhere(m.infos[p], m1.infos[p], page)
    requires AssignedRange(m1, m', p, page + 1, end)
    requires CodeSoFar(m1.infos[p], m', p, page + 1, end, newPages || r.Assigned?, overlap || r.Overlap?, e)
    ensures CodeSoFar(m.infos[p], m', p, page, end, newPages, overlap, e)
  {
    hide MemoryOk, FreeFrames, Translate, NewPages;
    MappedFrom(m.infos[p], m1.infos[p], page, end, true);
    MappedFrom(m.infos[p], m1.infos[p], page, end, false);
  }

  lemma MappedFrom(a: Info, b: Info, page: nat, end: nat, mapped: bool)
    requires page < end && SameElsewhere(a, b, page)
    ensures AnyMapped(a, page, end, mapped) <==> Translate(a, page).Some? == mapped || AnyMapped(b, page + 1, end, mapped)
  {
    hide Translate;
    if q: nat :| page + 1 <= q < end && Translate(b, q).Some? == mapped {
      assert Translate(a, q).Some? == mapped;
    }
  }

  lemma {:induction false} AssignFromKeeps(m: Memory, p: nat, page: nat, end: nat, newPages: bool, overlap: bool)
    requires MemoryOk(m) && p < |m.infos| && page <= end
    ensures match AssignFrom(m, p, page, end, newPages, overlap)
            case Ok((m', e)) =>
              AssignedRange(m, m', p, page, end) && CodeSoFar(m.infos[p], m', p, page, end, newPages, overlap, e)
            case Halt(_) => false
    decreases end - page
  {
    hide MemoryOk, AssignPage, FreeFrames, Translate;
    if page == end {
      assert SameHardware(m.frames, m.frames);
    } else {
      AssignPageKeeps(m, p, page);
      var (m1, r) := AssignPage(m, p, page).value;
      if r.Refused? {
        NoNewPages(m.infos[p], m1.infos[p], page, end);
      } else {
        var (n, o) := (newPages || r.Assigned?, overlap || r.Overlap?);
        AssignFromKeeps(m1, p, page + 1, end, n, o);
        var (m', e) := AssignFrom(m1, p, page + 1, end, n, o).value;
        RangeAfterPage(m, m1, m', p, page, end, r);
        CodeAfterPage(m, m1, m', p, page, end, r, newPages, overlap, e);
      }
    }
  }

  predicate ValidRange(m: Memory, p: int, start: nat, count: nat) {
    0 <= p < |m.infos| && count > 0 && start < MAX_PAGES && count < MAX_PAGES && start + count < MAX_PAGES
  }

  /** A request never halts; it changes one process, and its code tells what became of the range. */
  lemma AssignIsSound(m: Memory, p: int, start: nat, count: nat)
    requires MemoryOk(m)
    ensures match Assign(m, p, start, count)
            case Ok((m', e)) =>
              && MemoryOk(m')
              && (!ValidRange(m, p, start, count) ==> m' == m && e == InvalidArgument)
              && (ValidRange(m, p, start, count) ==>
                    AssignedRange(m, m', p, start, start + count) && CodeOk(m.infos[p], m', p, start, start + count, e))
            case Halt(_) => false
  {
    hide MemoryOk, FreeFrames, Translate, AssignFrom, NewPages;
    if ValidRange(m, p, start, count) {
      AssignFromKeeps(m, p, start, start + count, false, false);
    }
  }

  // ---------------------------------------------------------------- releasing a page

  predicate Releasable(m: Memory, p: int, page: nat) {
    0 <= p < |m.infos| && page != 0 && DirIndex(page) < USER_DIRS && Translate(m.infos[p], page).Some?
  }

  lemma ReleaseEntryKeepsFrames(m: Memory, p: nat, t: nat, i: nat)
    requires FramesOk(m)
    requires p < |m.infos| && t < |m.infos[p].tables| && i < |m.infos[p].tables[t]|
    requires m.infos[p].tables[t][i].present && m.infos[p].tables[t][i].user
    ensures match ReleaseEntry(m, p, t, i, true)
            case Ok(m') =>
              var f := m.infos[p].tables[t][i].frame;
              && FramesOk(m') && SameHardware(m.frames, m'.frames)
              && m'.infos == m.infos[p := WithEntry(m.infos[p], t, i, NO_PAGE)]
              && f !in FreeFrames(m.frames) && FreeFrames(m'.frames) == FreeFrames(m.frames) + {f}
            case Halt(_) => false
  {
    var f := m.infos[p].tables[t][i].frame;
    var slot := Slot(p, t, i);
    assert Maps(m.infos, slot, f);
    var m' := ReleaseEntry(m, p, t, i, true).value;
    forall s, g: nat
      ensures Maps(m'.infos, s, g) <==> s != slot && Maps(m.infos, s, g)
    {
      SetEntryMaps(m.infos, p, t, i, NO_PAGE, s, g);
    }
    forall g | 0 <= g < |m'.frames| && !m'.frames[g].reserved && m'.frames[g].assignCount != 0
      ensures Mapped(m'.infos, g)
    {
      var s :| Maps(m.infos, s, g);
      assert Maps(m'.infos, s, g);
    }
  }

  /** A page is released exactly when it is there; then its frame is free, and nothing else changed. */
  lemma ReleaseIsSound(m: Memory, p: int, page: nat)
    requires MemoryOk(m)
    ensures ReleasePage(m, p, page).Ok? <==> Releasable(m, p, page)
    ensures Releasable(m, p, page) ==>
      var m' := ReleasePage(m, p, page).value;
      var f := Translate(m.infos[p], page).value;
      && MemoryOk(m') && OnlyProcess(m, m', p)
      && Translate(m'.infos[p], page).None? && SameElsewhere(m.infos[p], m'.infos[p], page)
      && f !in FreeFrames(m.frames) && FreeFrames(m'.frames) == FreeFrames(m.frames) + {f}
  {
    hide FramesOk, FreeFrames, ReleaseEntry;
    if 0 <= p < |m.infos| && page != 0 && DirIndex(page) < USER_DIRS {
      var info := m.infos[p];
      var d, i := DirIndex(page), TableIndex(page);
      if info.dir[d].present {
        assert UsesTable(info, d);
        var t := info.dir[d].table.index;
        assert EntryOk(info.tables[t][i]);
        assert page == d * MAX_PAGE_ENTRY + i;
        if info.tables[t][i].present {
          ReleaseEntryKeepsFrames(m, p, t, i);
          SetEntryKeepsInfo(info, t, i, NO_PAGE);
          var m' := ReleasePage(m, p, page).value;
          forall q: nat
            ensures Translate(m'.infos[p], q) == if q == page then None else Translate(info, q)
          {
            SetEntryTranslates(info, d, t, i, NO_PAGE, q);
          }
        } else {
          EmptyEntryHalts(m, p, t, i);
        }
      }
    }
  }

  lemma EmptyEntryHalts(m: Memory, p: nat, t: nat, i: nat)
    requires p < |m.infos| && t < |m.infos[p].tables| && i < |m.infos[p].tables[t]|
    requires m.infos[p].tables[t][i] == NO_PAGE
    ensures ReleaseEntry(m, p, t, i, true).Halt?
  {
  }

  // ---------------------------------------------------------------- the end of a process

  predicate Before(s: Slot, t: nat, i: nat) {
    s.t < t || (s.t == t && s.i < i)
  }

  /** While the tables are scanned: the frames of the entries already met are given back, and no other. */
  ghost predicate GivenBack(m: Memory, m1: Memory, p: nat, t: nat, i: nat) {
    && m1.infos == m.infos && SameHardware(m.frames, m1.frames)
    && forall f :: 0 <= f < |m.frames| ==>
         m1.frames[f].assignCount == if Met(m.infos, f, p, t, i) then 0 else m.frames[f].assignCount
  }

  ghost predicate Met(infos: seq<Info>, f: nat, p: nat, t: nat, i: nat) {
    exists s :: Maps(infos, s, f) && s.p == p && Before(s, t, i)
  }

  lemma GiveBackOne(m: Memory, m1: Memory, p: nat, t: nat, i: nat)
    requires FramesOk(m) && p < |m.infos| && t < |m.infos[p].tables| && i < |m.infos[p].tables[t]|
    requires GivenBack(m, m1, p, t, i)
    ensures if m.infos[p].tables[t][i].present then
              match ReleaseEntry(m1, p, t, i, false)
              case Ok(m2) => GivenBack(m, m2, p, t, i + 1)
              case Halt(_) => false
            else GivenBack(m, m1, p, t, i + 1)
  {
    var here := Slot(p, t, i);
    var e := m.infos[p].tables[t][i];
    forall f | 0 <= f < |m.frames|
      ensures Met(m.infos, f, p, t, i + 1) <==> Met(m.infos, f, p, t, i) || (e.present && e.frame == f)
    {
      if e.present && e.frame == f {
        assert Maps(m.infos, here, f);
      }
      if s :| Maps(m.infos, s, f) && s.p == p && Before(s, t, i + 1) {
        assert s == here || Before(s, t, i);
      }
      if s :| Maps(m.infos, s, f) && s.p == p && Before(s, t, i) {
        assert Before(s, t, i + 1);
      }
    }
    if e.present {
      assert Maps(m.infos, here, e.frame);
    }
  }

  lemma {:induction false} CleanTableGivesBack(m: Memory, m1: Memory, p: nat, t: nat, i: nat)
    requires FramesOk(m) && p < |m.infos| && t < |m.infos[p].tables| && i <= |m.infos[p].tables[t]|
    requires GivenBack(m, m1, p, t, i)
    ensures match CleanTable(m1, p, t, i)
            case Ok(m2) => GivenBack(m, m2, p, t, |m.infos[p].tables[t]|)
            case Halt(_) => false
    decreases |m.infos[p].tables[t]| - i
  {
    hide FramesOk, ReleaseEntry;
    if i < |m.infos[p].tables[t]| {
      GiveBackOne(m, m1, p, t, i);
      if m.infos[p].tables[t][i].present {
        CleanTableGivesBack(m, ReleaseEntry(m1, p, t, i, false).value, p, t, i + 1);
      } else {
        CleanTableGivesBack(m, m1, p, t, i + 1);
      }
    }
  }

  lemma NextTable(m: Memory, m1: Memory, p: nat, t: nat, i: nat)
    requires p < |m.infos| && PagesOk(m.infos[p]) && t < |m.infos[p].tables|
    requires GivenBack(m, m1, p, t, i)
    requires i == MAX_PAGE_ENTRY || (i == 0 && !m.infos[p].used[t])
    ensures GivenBack(m, m1, p, t + 1, 0)
  {
    forall f | 0 <= f < |m.frames|
      ensures Met(m.infos, f, p, t + 1, 0) <==> Met(m.infos, f, p, t, i)
    {
      if s :| Maps(m.infos, s, f) && s.p == p && Before(s, t + 1, 0) {
        assert Before(s, t, i);
      }
      if s :| Maps(m.infos, s, f) && s.p == p && Before(s, t, i) {
        assert Before(s, t + 1, 0);
      }
    }
  }

  lemma {:induction false} CleanTablesGivesBack(m: Memory, m1: Memory, p: nat, t: nat)
    requires MemoryOk(m) && p < |m.infos| && t <= |m.infos[p].used|
    requires GivenBack(m, m1, p, t, 0)
    ensures match CleanTables(m1, p, t)
            case Ok(m2) => GivenBack(m, m2, p, |m.infos[p].used|, 0)
            case Halt(_) => false
    decreases |m.infos[p].used| - t
  {
    hide FramesOk, DirOk, CleanTable, SameHardware, Met;
    if t < |m.infos[p].used| {
      if m.infos[p].used[t] {
        CleanTableGivesBack(m, m1, p, t, 0);
        var m2 := CleanTable(m1, p, t, 0).value;
        NextTable(m, m2, p, t, MAX_PAGE_ENTRY);
        CleanTablesGivesBack(m, m2, p, t + 1);
      } else {
        NextTable(m, m1, p, t, 0);
        CleanTablesGivesBack(m, m1, p, t + 1);
      }
    }
  }

  lemma ClearedIsEmpty(info: Info)
    requires DirOk(info) && PagesOk(info)
    ensures ClearedInfo(info) == EmptyInfo(|info.used|)
  {
    assert ClearedInfo(info).dir == EmptyInfo(|info.used|).dir;
    assert ClearedInfo(info).tables == EmptyInfo(|info.used|).tables;
    assert ClearedInfo(info).used == EmptyInfo(|info.used|).used;
  }

  lemma EmptyInfoIsOk(tables: nat)
    ensures DirOk(EmptyInfo(tables)) && PagesOk(EmptyInfo(tables))
  {
    var info := EmptyInfo(tables);
    assert forall d :: 0 <= d < USER_DIRS ==> info.dir[d] == NO_DIR_ENTRY;
  }

  /** A process starts with the kernel's area, mapped to the lowest frames, and nothing else. */
  lemma EmptyInfoTranslates(tables: nat, page: nat)
    requires page < MAX_PAGES
    ensures Translate(EmptyInfo(tables), page) ==
            if DirIndex(page) < USER_DIRS then None else Some(page - USER_DIRS * MAX_PAGE_ENTRY)
  {
    var d := DirIndex(page);
    assert page == d * MAX_PAGE_ENTRY + TableIndex(page);
    assert EmptyInfo(tables).dir[d] == if d < USER_DIRS then NO_DIR_ENTRY else KernelDir(d - USER_DIRS);
  }

  /** A process may use exactly the pages that are mapped for it in its own area, and no page of the kernel. */
  lemma UserReachesOwnPages(m: Memory, p: nat, page: nat)
    requires MemoryOk(m) && p < |m.infos| && page < MAX_PAGES
    ensures UserMay(m.infos[p], page) <==> DirIndex(page) < USER_DIRS && Translate(m.infos[p], page).Some?
    ensures DirIndex(page) >= USER_DIRS ==> !m.infos[p].dir[DirIndex(page)].user
  {
    hide FramesOk;
  }

  /** The cleanup of a process gives back exactly its frames and leaves everybody else alone. */
  lemma CleanupIsSound(m: Memory, p: nat)
    requires MemoryOk(m) && p < |m.infos|
    ensures match Cleanup(m, p)
            case Ok(m') =>
              && MemoryOk(m') && OnlyProcess(m, m', p)
              && m'.infos[p] == EmptyInfo(|m.infos[p].used|)
              && FreeFrames(m'.frames) == FreeFrames(m.frames) + Owned(m, p)
              && FreeFrames(m.frames) !! Owned(m, p)
            case Halt(_) => false
  {
    hide DirOk, FramesOk, CleanTables, ClearedInfo, GivenBack, Owned, FreeFrames;
    var n := |m.infos[p].used|;
    NothingGivenBack(m, p);
    CleanTablesGivesBack(m, m, p, 0);
    ClearedIsEmpty(m.infos[p]);
    EmptyInfoIsOk(n);
    ClearedKeepsFrames(m, CleanTables(m, p, 0).value, p);
  }

  lemma NothingGivenBack(m: Memory, p: nat)
    ensures GivenBack(m, m, p, 0, 0)
  {
  }

  lemma ClearedMaps(m: Memory, p: nat, s: Slot, f: nat)
    requires p < |m.infos|
    ensures Maps(m.infos[p := ClearedInfo(m.infos[p])], s, f) <==> Maps(m.infos, s, f) && s.p != p
  {
  }

  lemma AllMet(infos: seq<Info>, f: nat, p: nat)
    requires p < |infos|
    ensures Met(infos, f, p, |infos[p].tables|, 0) <==> Owns(infos, p, f)
  {
    if s :| Maps(infos, s, f) && s.p == p {
      assert Before(s, |infos[p].tables|, 0);
    }
  }

  lemma ClearedKeepsFrames(m: Memory, m1: Memory, p: nat)
    requires MemoryOk(m) && p < |m.infos|
    requires GivenBack(m, m1, p, |m.infos[p].used|, 0)
    ensures m1.infos == m.infos
    ensures var m' := WithInfo(m1, p, ClearedInfo(m.infos[p]));
            && FramesOk(m') && OnlyProcess(m, m', p)
            && FreeFrames(m'.frames) == FreeFrames(m.frames) + Owned(m, p)
            && FreeFrames(m.frames) !! Owned(m, p)
  {
    hide ClearedInfo, DirOk, Met, Maps;
    assert PagesOk(m.infos[p]);
    var m' := WithInfo(m1, p, ClearedInfo(m.infos[p]));
    forall s, f: nat
      ensures Maps(m'.infos, s, f) <==> Maps(m.infos, s, f) && s.p != p
    {
      ClearedMaps(m, p, s, f);
    }
    forall f | 0 <= f < |m.frames|
      ensures m'.frames[f].assignCount == if Owns(m.infos, p, f) then 0 else m.frames[f].assignCount
    {
      AllMet(m.infos, f, p);
    }
    forall f | 0 <= f < |m.frames| && !m.frames[f].reserved && m'.frames[f].assignCount != 0
      ensures Mapped(m'.infos, f)
    {
      var s :| Maps(m.infos, s, f);
      assert Maps(m'.infos, s, f);
    }
  }

  // ---------------------------------------------------------------- runs

  /** A request in bytes covers exactly the pages that hold one of its bytes, all of them below the kernel's area. */
  lemma RequestCoversItsBytes(start: nat, size: nat, page: nat)
    requires start < ADDRESS_SPACE && 0 < size && start + size <= ADDRESS_SPACE - KERNEL_BYTES
    ensures var first := start / PAGE_BYTES;
            var count := Aligned(start + size, PAGE_BYTES) / PAGE_BYTES - first;
            && count > 0 && first + count <= USER_DIRS * MAX_PAGE_ENTRY
            && (first <= page < first + count <==> page * PAGE_BYTES < start + size && start < (page + 1) * PAGE_BYTES)
  {
  }

  datatype Request = Request(p: int, start: nat, size: nat) | Return(p: int, page: nat) | End(p: int)

  predicate WellFormed(r: Request) {
    r.Request? ==> r.start < ADDRESS_SPACE && r.size < ADDRESS_SPACE
  }

  function Serve(m: Memory, r: Request): Outcome<Memory>
    requires WellFormed(r)
  {
    match r
    case Request(p, start, size) => var (m1, _) :- Gimme(m, p, start, size); Ok(m1)
    case Return(p, page) => ReleasePage(m, p, page)
    case End(p) => Cleanup(m, p)
  }

  function ServeAll(m: Memory, rs: seq<Request>): Outcome<Memory>
    requires forall i :: 0 <= i < |rs| ==> WellFormed(rs[i])
    decreases |rs|
  {
    if rs == [] then Ok(m)
    else
      var m1 :- Serve(m, rs[0]);
      ServeAll(m1, rs[1..])
  }

  lemma ServeKeeps(m: Memory, r: Request)
    requires MemoryOk(m) && WellFormed(r)
    ensures match Serve(m, r)
            case Ok(m') => MemoryOk(m') && SameHardware(m.frames, m'.frames) && |m'.infos| == |m.infos|
            case Halt(_) => r.Return? || !(0 <= r.p < |m.infos|)
  {
    hide MemoryOk, Assign, ReleasePage, Cleanup, AssignedRange, CodeOk;
    match r
    case Request(p, start, size) => GimmeIsSound(m, p, start, size);
    case Return(p, page) =>
      ReleaseIsSound(m, p, page);
      if ReleasePage(m, p, page).Ok? {
        assert Releasable(m, p, page);
      }
    case End(p) =>
      if 0 <= p < |m.infos| {
        CleanupIsSound(m, p);
      } else {
        assert Cleanup(m, p).Halt? by { NobodyToClean(m, p); }
      }
  }

  lemma NobodyToClean(m: Memory, p: int)
    requires !(0 <= p < |m.infos|)
    ensures Cleanup(m, p).Halt?
  {
  }

  predicate InUserArea(start: nat, size: nat) {
    0 < size && start + size <= ADDRESS_SPACE - KERNEL_BYTES
  }

  lemma EndDoesNotWrap(start: nat, size: nat)
    requires start < ADDRESS_SPACE && size < ADDRESS_SPACE
    ensures var end := (start + size) % ADDRESS_SPACE;
            && (start < end <= ADDRESS_SPACE - KERNEL_BYTES <==> InUserArea(start, size))
            && (InUserArea(start, size) ==> end == start + size)
  {
    if start + size >= ADDRESS_SPACE {
      assert (start + size) % ADDRESS_SPACE == start + size - ADDRESS_SPACE;
    }
  }

  /** A request is refused outright unless it lies in the user's area; when it succeeds every byte of it is mapped. */
  lemma GimmeIsSound(m: Memory, p: int, start: nat, size: nat)
    requires MemoryOk(m) && start < ADDRESS_SPACE && size < ADDRESS_SPACE
    ensures match Gimme(m, p, start, size)
            case Ok((m', e)) =>
              && MemoryOk(m') && SameHardware(m.frames, m'.frames) && |m'.infos| == |m.infos|
              && (e == InvalidArgument <==> !(0 <= p < |m.infos|) || !InUserArea(start, size))
              && e != Unavailable
              && (e == InvalidArgument ==> m' == m)
              && (Succeeded(e) ==> forall a: nat :: start <= a < start + size ==> Translate(m'.infos[p], a / PAGE_BYTES).Some?)
            case Halt(_) => false
  {
    hide MemoryOk, Assign, FreeFrames, Translate, NewPages;
    EndDoesNotWrap(start, size);
    if 0 <= p < |m.infos| && InUserArea(start, size) {
      var first := start / PAGE_BYTES;
      var count := Aligned(start + size, PAGE_BYTES) / PAGE_BYTES - first;
      RequestCoversItsBytes(start, size, first);
      AssignIsSound(m, p, first, count);
      var (m', e) := Gimme(m, p, start, size).value;
      if Succeeded(e) {
        forall a: nat | start <= a < start + size
          ensures Translate(m'.infos[p], a / PAGE_BYTES).Some?
        {
          RequestCoversItsBytes(start, size, a / PAGE_BYTES);
        }
      }
    } else {
      assert SameHardware(m.frames, m.frames);
    }
  }

  lemma SameHardwareSameUsable(a: seq<Frame>, b: seq<Frame>)
    requires SameHardware(a, b)
    ensures UsableFrames(a) == UsableFrames(b)
  {
  }

  /** Whatever is asked for, and in whatever order: no frame is lost, shared, or made up. */
  lemma {:induction false} FramesSurviveRuns(m: Memory, rs: seq<Request>)
    requires MemoryOk(m)
    requires forall i :: 0 <= i < |rs| ==> WellFormed(rs[i])
    ensures match ServeAll(m, rs)
            case Ok(m') =>
              && MemoryOk(m')
              && |FreeFrames(m'.frames)| + |MappedFrames(m')| == |FreeFrames(m.frames)| + |MappedFrames(m)|
            case Halt(_) => true
    decreases |rs|
  {
    hide MemoryOk, Serve, SameHardware, FreeFrames, MappedFrames, UsableFrames;
    if rs != [] {
      ServeKeeps(m, rs[0]);
      if Serve(m, rs[0]).Ok? {
        var m1 := Serve(m, rs[0]).value;
        FramesAreConserved(m);
        FramesAreConserved(m1);
        SameHardwareSameUsable(m.frames, m1.frames);
        FramesSurviveRuns(m1, rs[1..]);
      }
    }
  }

  /** Before anybody has asked: the counters are those of the memory map, and every process has the kernel's area only. */
  lemma InitialMemoryIsOk(frames: seq<Frame>, procs: nat, tables: nat)
    requires |frames| <= MAX_FRAMES && (|frames| > 0 ==> !Usable(frames[0]))
    requires forall f :: 0 <= f < |frames| && !frames[f].reserved ==> frames[f].assignCount == 0
    ensures MemoryOk(Memory(frames, seq(procs, p => EmptyInfo(tables))))
  {
    hide DirOk, PagesOk;
    EmptyInfoIsOk(tables);
    var m := Memory(frames, seq(procs, p => EmptyInfo(tables)));
    forall s, f: nat
      ensures !Maps(m.infos, s, f)
    {
    }
  }
}
