/** What every paging operation keeps, and what each of them changes. */
module PagingProofs {
  import opened Outcomes
  import opened PagingState

  // ---------------------------------------------------------------- the invariant

  /** One process: present directory entries and used tables correspond one to one. */
  ghost predicate DirOk(info: Info) {
    && |info.dir| == MAX_DIR_ENTRY
    && |info.tables| == |info.used|
    && (forall d :: 0 <= d < USER_DIRS ==>
          if info.dir[d].present then UsesTable(info, d) else info.dir[d] == NO_DIR_ENTRY)
    && (forall d, e :: 0 <= d < e < USER_DIRS && info.dir[d].present && info.dir[e].present ==>
          info.dir[d].table != info.dir[e].table)
    && (forall t :: 0 <= t < |info.used| && info.used[t] ==> exists d :: 0 <= d < USER_DIRS && Refers(info.dir, d, t))
    && (forall d :: USER_DIRS <= d < MAX_DIR_ENTRY ==> info.dir[d] == KernelDir(d - USER_DIRS))
  }

  predicate UsesTable(info: Info, d: nat)
    requires d < |info.dir|
  {
    && info.dir[d].user
    && info.dir[d].table.UserTable?
    && info.dir[d].table.index < |info.used| && info.used[info.dir[d].table.index]
  }

  predicate Refers(dir: seq<DirEntry>, d: nat, t: nat) {
    d < |dir| && dir[d].present && dir[d].table == UserTable(t)
  }

  /** A table entry is all zero, or present and the user's. */
  predicate EntryOk(e: PageEntry) {
    e == NO_PAGE || (e.present && e.user)
  }

  ghost predicate PagesOk(info: Info) {
    && |info.tables| == |info.used|
    && (forall t :: 0 <= t < |info.tables| ==> |info.tables[t]| == MAX_PAGE_ENTRY)
    && (forall t, i :: 0 <= t < |info.tables| && 0 <= i < |info.tables[t]| ==> EntryOk(info.tables[t][i]))
    && (forall t :: 0 <= t < |info.used| && !info.used[t] ==> info.tables[t] == NoPages())
  }

  /** Where an entry is. */
  datatype Slot = Slot(p: nat, t: nat, i: nat)

  /** The entry in slot s maps frame f. */
  predicate Maps(infos: seq<Info>, s: Slot, f: nat) {
    && s.p < |infos| && s.t < |infos[s.p].tables| && s.i < |infos[s.p].tables[s.t]|
    && infos[s.p].tables[s.t][s.i].present
    && infos[s.p].tables[s.t][s.i].frame == f
  }

  /** Mapped frames are usable, mapped once and counted once; a count on any other frame means it is mapped. */
  ghost predicate FramesOk(m: Memory) {
    && |m.frames| <= MAX_FRAMES
    && (|m.frames| > 0 ==> !Usable(m.frames[0]))
    && (forall s, f: nat :: Maps(m.infos, s, f) ==> f < |m.frames| && Usable(m.frames[f]) && m.frames[f].assignCount == 1)
    && (forall r, s, f: nat :: Maps(m.infos, r, f) && Maps(m.infos, s, f) ==> r == s)
    && (forall f :: 0 <= f < |m.frames| && !m.frames[f].reserved && m.frames[f].assignCount != 0 ==> Mapped(m.infos, f))
  }

  ghost predicate Mapped(infos: seq<Info>, f: nat) {
    exists s :: Maps(infos, s, f)
  }

  ghost predicate Owns(infos: seq<Info>, p: nat, f: nat) {
    exists s :: Maps(infos, s, f) && s.p == p
  }

  ghost predicate MemoryOk(m: Memory) {
    && FramesOk(m)
    && (forall p :: 0 <= p < |m.infos| ==> DirOk(m.infos[p]) && PagesOk(m.infos[p]))
  }

  // ---------------------------------------------------------------- frames

  ghost function FreeFrames(frames: seq<Frame>): (r: set<nat>)
    ensures forall f :: f in r <==> 0 <= f < |frames| && IsFree(frames[f])
  {
    set f: nat | f < |frames| && IsFree(frames[f])
  }

  ghost function UsableFrames(frames: seq<Frame>): (r: set<nat>)
    ensures forall f :: f in r <==> 0 <= f < |frames| && Usable(frames[f])
  {
    set f: nat | f < |frames| && Usable(frames[f])
  }

  /** The frames that process p has. */
  ghost function Owned(m: Memory, p: nat): (r: set<nat>)
    ensures forall f :: f in r <==> 0 <= f < |m.frames| && Owns(m.infos, p, f)
  {
    set f: nat | f < |m.frames| && Owns(m.infos, p, f)
  }

  ghost function MappedFrames(m: Memory): (r: set<nat>)
    ensures forall f :: f in r <==> 0 <= f < |m.frames| && Mapped(m.infos, f)
  {
    set f: nat | f < |m.frames| && Mapped(m.infos, f)
  }

  /** Every usable frame is either free or mapped. */
  lemma FramesAreConserved(m: Memory)
    requires MemoryOk(m)
    ensures FreeFrames(m.frames) !! MappedFrames(m)
    ensures FreeFrames(m.frames) + MappedFrames(m) == UsableFrames(m.frames)
    ensures |FreeFrames(m.frames)| + |MappedFrames(m)| == |UsableFrames(m.frames)|
  {
    forall f | f in MappedFrames(m)
      ensures f in UsableFrames(m.frames) && f !in FreeFrames(m.frames)
    {
      var s :| Maps(m.infos, s, f);
    }
    assert FreeFrames(m.frames) + MappedFrames(m) == UsableFrames(m.frames);
  }

  /** The entries of all processes that map f: as many as its counter says, and at most one. */
  ghost function Mappings(infos: seq<Info>, f: nat): (r: set<Slot>)
    ensures forall s :: s in r <==> Maps(infos, s, f)
  {
    set p: nat, t: nat, i: nat {:trigger Slot(p, t, i)}
      | p < |infos| && t < |infos[p].tables| && i < |infos[p].tables[t]| && Maps(infos, Slot(p, t, i), f) :: Slot(p, t, i)
  }

  lemma CountersAreMappings(m: Memory, f: nat)
    requires MemoryOk(m) && f < |m.frames|
    ensures !m.frames[f].reserved ==> |Mappings(m.infos, f)| == m.frames[f].assignCount <= 1
    ensures m.frames[f].reserved ==> Mappings(m.infos, f) == {}
  {
    if s :| s in Mappings(m.infos, f) {
      assert Mappings(m.infos, f) == {s};
    }
  }

  // ---------------------------------------------------------------- taking a table

  lemma FreeTableIsLowest(used: seq<bool>, t: nat)
    requires t <= |used|
    ensures t <= FreeTable(used, t) <= |used|
    ensures FreeTable(used, t) < |used| ==> !used[FreeTable(used, t)]
    ensures forall k :: t <= k < FreeTable(used, t) ==> used[k]
    decreases |used| - t
  {
  }

  lemma FreeFrameIsLowest(frames: seq<Frame>, f: nat)
    requires f <= |frames|
    ensures f <= FreeFrame(frames, f) <= |frames|
    ensures FreeFrame(frames, f) < |frames| ==> IsFree(frames[FreeFrame(frames, f)])
    ensures forall k :: f <= k < FreeFrame(frames, f) ==> !IsFree(frames[k])
    decreases |frames| - f
  {
  }

  lemma TakeTableKeepsDir(info: Info, d: nat)
    requires DirOk(info) && d < USER_DIRS && !info.dir[d].present
    ensures match TakeTable(info, d)
            case None => forall t :: 0 <= t < |info.used| ==> info.used[t]
            case Some(info') => DirOk(info') && Refers(info'.dir, d, FreeTable(info.used, 0))
  {
    FreeTableIsLowest(info.used, 0);
    var t := FreeTable(info.used, 0);
    if t < |info.used| {
      var info' := TakeTable(info, d).value;
      forall k | 0 <= k < |info'.used| && info'.used[k]
        ensures exists e :: 0 <= e < USER_DIRS && Refers(info'.dir, e, k)
      {
        if k == t {
          assert Refers(info'.dir, d, k);
        } else {
          var e :| 0 <= e < USER_DIRS && Refers(info.dir, e, k);
          assert Refers(info'.dir, e, k);
        }
      }
    }
  }

  /** A new table is empty, so no translation changes. */
  lemma TakeTableKeeps(info: Info, d: nat, page: nat)
    requires DirOk(info) && PagesOk(info) && d < USER_DIRS && !info.dir[d].present && TakeTable(info, d).Some?
    ensures var info' := TakeTable(info, d).value;
            PagesOk(info') && info'.tables == info.tables && Translate(info', page) == Translate(info, page)
  {
    FreeTableIsLowest(info.used, 0);
    assert TableIndex(page) < MAX_PAGE_ENTRY;
  }

  // ---------------------------------------------------------------- changing an entry

  lemma SetEntryMaps(infos: seq<Info>, p: nat, t: nat, i: nat, e: PageEntry, s: Slot, f: nat)
    requires p < |infos| && t < |infos[p].tables| && i < |infos[p].tables[t]|
    ensures Maps(infos[p := WithEntry(infos[p], t, i, e)], s, f) <==>
            if s == Slot(p, t, i) then e.present && e.frame == f else Maps(infos, s, f)
  {
  }

  lemma SetEntryKeepsInfo(info: Info, t: nat, i: nat, e: PageEntry)
    requires DirOk(info) && PagesOk(info)
    requires t < |info.used| && info.used[t] && i < MAX_PAGE_ENTRY && EntryOk(e)
    ensures DirOk(WithEntry(info, t, i, e)) && PagesOk(WithEntry(info, t, i, e))
  {
  }

  /** Only the page whose entry it is gets a new translation. */
  lemma SetEntryTranslates(info: Info, d: nat, t: nat, i: nat, e: PageEntry, page: nat)
    requires DirOk(info) && PagesOk(info)
    requires d < USER_DIRS && Refers(info.dir, d, t) && i < MAX_PAGE_ENTRY
    ensures t < |info.tables|
    ensures Translate(WithEntry(info, t, i, e), page) ==
            if page == d * MAX_PAGE_ENTRY + i then if e.present then Some(e.frame) else None else Translate(info, page)
  {
    assert page == DirIndex(page) * MAX_PAGE_ENTRY + TableIndex(page);
  }

  // ---------------------------------------------------------------- assigning a page

  /** Counters may change, and nothing else about the frames. */
  ghost predicate SameHardware(a: seq<Frame>, b: seq<Frame>) {
    && |a| == |b|
    && forall f :: 0 <= f < |a| ==> b[f] == a[f].(assignCount := b[f].assignCount)
  }

  ghost predicate OnlyProcess(m: Memory, m': Memory, p: nat) {
    && SameHardware(m.frames, m'.frames)
    && |m.infos| == |m'.infos|
    && forall q :: 0 <= q < |m.infos| && q != p ==> m'.infos[q] == m.infos[q]
  }

  lemma AssignEntryKeepsFrames(m: Memory, p: nat, t: nat, i: nat)
    requires FramesOk(m)
    requires p < |m.infos| && t < |m.infos[p].tables| && i < |m.infos[p].tables[t]|
    requires !m.infos[p].tables[t][i].present
    ensures match AssignEntry(m, p, t, i)
            case Ok((m', r)) => FramesOk(m')
            case Halt(_) => false
  {
    FreeFrameIsLowest(m.frames, 0);
    var f := FreeFrame(m.frames, 0);
    if f < |m.frames| {
      assert f > 0;
      var e := PageEntry(f, true, true);
      var m' := AssignEntry(m, p, t, i).value.0;
      forall s, g: nat
        ensures Maps(m'.infos, s, g) <==> if s == Slot(p, t, i) then g == f else Maps(m.infos, s, g)
      {
        SetEntryMaps(m.infos, p, t, i, e, s, g);
      }
      assert Maps(m'.infos, Slot(p, t, i), f);
      forall g | 0 <= g < |m'.frames| && !m'.frames[g].reserved && m'.frames[g].assignCount != 0
        ensures Mapped(m'.infos, g)
      {
        if g != f {
          var s :| Maps(m.infos, s, g);
          assert Maps(m'.infos, s, g);
        }
      }
    }
  }

  lemma AssignEntryKeeps(m: Memory, p: nat, d: nat, t: nat, i: nat)
    requires MemoryOk(m) && p < |m.infos|
    requires d < USER_DIRS && Refers(m.infos[p].dir, d, t) && t < |m.infos[p].tables| && i < MAX_PAGE_ENTRY
    requires |m.infos[p].tables[t]| == MAX_PAGE_ENTRY && m.infos[p].tables[t][i] == NO_PAGE
    ensures match AssignEntry(m, p, t, i)
            case Ok((m', Assigned)) =>
              && MemoryOk(m') && OnlyProcess(m, m', p)
              && exists f :: f in FreeFrames(m.frames) && FreeFrames(m'.frames) == FreeFrames(m.frames) - {f}
                   && m'.infos == m.infos[p := WithEntry(m.infos[p], t, i, PageEntry(f, true, true))]
            case Ok((m', r)) => r == Refused(OutOfMemory) && m' == m && FreeFrames(m.frames) == {}
            case Halt(_) => false
  {
    FreeFrameIsLowest(m.frames, 0);
    AssignEntryKeepsFrames(m, p, t, i);
    var f := FreeFrame(m.frames, 0);
    if f < |m.frames| {
      SetEntryKeepsInfo(m.infos[p], t, i, PageEntry(f, true, true));
      var m' := AssignEntry(m, p, t, i).value.0;
      assert f in FreeFrames(m.frames) && FreeFrames(m'.frames) == FreeFrames(m.frames) - {f};
    }
  }

  ghost predicate SameElsewhere(a: Info, b: Info, page: nat) {
    forall q: nat :: q != page ==> Translate(b, q) == Translate(a, q)
  }

  ghost predicate AllUsed(info: Info) {
    forall t :: 0 <= t < |info.used| ==> info.used[t]
  }

  /** What one round did to the page, and to the frames. */
  ghost predicate Handled(m: Memory, m': Memory, p: nat, page: nat, r: PageResult)
    requires p < |m.infos| && p < |m'.infos|
  {
    var was := Translate(m.infos[p], page);
    var now := Translate(m'.infos[p], page);
    match r
    case Assigned =>
      && was.None? && now.Some? && now.value in FreeFrames(m.frames)
      && FreeFrames(m'.frames) == FreeFrames(m.frames) - {now.value}
    case Overlap => was.Some? && now == was && FreeFrames(m'.frames) == FreeFrames(m.frames)
    case Refused(e) =>
      && now == was && (e != Unavailable ==> now.None?)
      && FreeFrames(m'.frames) == FreeFrames(m.frames)
      && RefusedFor(m', p, page, e)
  }

  ghost predicate RefusedFor(m: Memory, p: nat, page: nat, e: MemError)
    requires p < |m.infos|
  {
    match e
    case OutOfMemory => FreeFrames(m.frames) == {}
    case OutOfPages => AllUsed(m.infos[p])
    case Unavailable => page >= USER_DIRS * MAX_PAGE_ENTRY
    case _ => false
  }

  lemma AssignInTableKeeps(m: Memory, p: nat, page: nat)
    requires MemoryOk(m) && p < |m.infos| && DirIndex(page) < USER_DIRS
    requires m.infos[p].dir[DirIndex(page)].present
    ensures match AssignInTable(m, p, page)
            case Ok((m', r)) =>
              && MemoryOk(m') && OnlyProcess(m, m', p)
              && Handled(m, m', p, page, r) && SameElsewhere(m.infos[p], m'.infos[p], page)
            case Halt(_) => false
  {
    hide FramesOk, FreeFrames, AssignEntry;
    var info := m.infos[p];
    var d := DirIndex(page);
    var t := info.dir[d].table.index;
    var i := TableIndex(page);
    assert UsesTable(info, d);
    assert page == d * MAX_PAGE_ENTRY + i;
    assert EntryOk(info.tables[t][i]);
    if !info.tables[t][i].user {
      AssignEntryKeeps(m, p, d, t, i);
      var r := AssignEntry(m, p, t, i).value.1;
      if r.Assigned? {
        var m' := AssignEntry(m, p, t, i).value.0;
        var f :| f in FreeFrames(m.frames) && FreeFrames(m'.frames) == FreeFrames(m.frames) - {f}
          && m'.infos == m.infos[p := WithEntry(info, t, i, PageEntry(f, true, true))];
        forall q: nat
          ensures Translate(m'.infos[p], q) == if q == page then Some(f) else Translate(info, q)
        {
          SetEntryTranslates(info, d, t, i, PageEntry(f, true, true), q);
        }
      }
    }
  }

  lemma TakeTableKeepsMemory(m: Memory, p: nat, d: nat)
    requires MemoryOk(m) && p < |m.infos| && d < USER_DIRS && !m.infos[p].dir[d].present
    requires TakeTable(m.infos[p], d).Some?
    ensures var m' := WithInfo(m, p, TakeTable(m.infos[p], d).value);
            && MemoryOk(m') && OnlyProcess(m, m', p) && m'.frames == m.frames && m'.infos[p].dir[d].present
            && forall page :: Translate(m'.infos[p], page) == Translate(m.infos[p], page)
  {
    TakeTableKeepsDir(m.infos[p], d);
    var m' := WithInfo(m, p, TakeTable(m.infos[p], d).value);
    forall page
      ensures Translate(m'.infos[p], page) == Translate(m.infos[p], page)
    {
      TakeTableKeeps(m.infos[p], d, page);
    }
    TakeTableKeeps(m.infos[p], d, 0);
    assert forall s, f: nat :: Maps(m'.infos, s, f) <==> Maps(m.infos, s, f);
  }

  lemma AssignPageKeeps(m: Memory, p: nat, page: nat)
    requires MemoryOk(m) && p < |m.infos|
    ensures match AssignPage(m, p, page)
            case Ok((m', r)) =>
              && MemoryOk(m') && OnlyProcess(m, m', p)
              && Handled(m, m', p, page, r) && SameElsewhere(m.infos[p], m'.infos[p], page)
            case Halt(_) => false
  {
    hide FramesOk, PagesOk, FreeFrames, AssignInTable, TakeTable;
    var d := DirIndex(page);
    if d < USER_DIRS {
      if m.infos[p].dir[d].present {
        AssignInTableKeeps(m, p, page);
      } else {
        TakeTableKeepsDir(m.infos[p], d);
        if TakeTable(m.infos[p], d).Some? {
          TakeTableKeepsMemory(m, p, d);
          AssignInTableKeeps(WithInfo(m, p, TakeTable(m.infos[p], d).value), p, page);
        }
      }
    }
  }
}
