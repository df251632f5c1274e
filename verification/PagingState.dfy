/** Physical frames, per-process page directories and tables, and what each paging function does to them. */
module PagingState {
  import opened Arithmetic
  import opened Outcomes

  const MAX_PAGE_ENTRY: nat := 1024
  const MAX_DIR_ENTRY: nat := 1024
  const KERNEL_TABLES: nat := 1
  const USER_DIRS: nat := MAX_DIR_ENTRY - KERNEL_TABLES
  const MAX_FRAMES: nat := MAX_DIR_ENTRY * MAX_PAGE_ENTRY
  const MAX_PAGES: nat := MAX_FRAMES

  // ---------------------------------------------------------------- tables

  datatype Frame = Frame(present: bool, available: bool, reserved: bool, assignCount: nat)

  predicate Usable(f: Frame) {
    f.present && f.available && !f.reserved
  }

  predicate IsFree(f: Frame) {
    Usable(f) && f.assignCount == 0
  }

  /** Which table the address in a directory entry is. */
  datatype TableRef = NoTable | UserTable(index: nat) | KernelTable(index: nat)

  datatype DirEntry = DirEntry(table: TableRef, present: bool, user: bool)
  const NO_DIR_ENTRY := DirEntry(NoTable, false, false)

  datatype PageEntry = PageEntry(frame: nat, present: bool, user: bool)
  const NO_PAGE := PageEntry(0, false, false)

  type Table = seq<PageEntry>

  function NoPages(): Table {
    seq(MAX_PAGE_ENTRY, i => NO_PAGE)
  }

  /** The directory is flat: the user area, then the kernel area. */
  datatype Info = Info(dir: seq<DirEntry>, tables: seq<Table>, used: seq<bool>)

  datatype Memory = Memory(frames: seq<Frame>, infos: seq<Info>)

  function DirIndex(page: nat): nat {
    page / MAX_PAGE_ENTRY
  }

  function TableIndex(page: nat): nat {
    page % MAX_PAGE_ENTRY
  }

  function KernelDir(k: nat): DirEntry {
    DirEntry(KernelTable(k), true, false)
  }

  function EmptyInfo(tables: nat): Info {
    Info(seq(MAX_DIR_ENTRY, d requires d >= 0 => if d < USER_DIRS then NO_DIR_ENTRY else KernelDir(d - USER_DIRS)),
         seq(tables, t => NoPages()),
         seq(tables, t => false))
  }

  /** The two-level lookup: where a page of the process is, if it is anywhere. */
  function Translate(info: Info, page: nat): Option<nat> {
    if DirIndex(page) >= |info.dir| || !info.dir[DirIndex(page)].present then None
    else
      var i := TableIndex(page);
      match info.dir[DirIndex(page)].table
      case NoTable => None
      case KernelTable(k) => Some(k * MAX_PAGE_ENTRY + i)
      case UserTable(t) =>
        if t < |info.tables| && i < |info.tables[t]| && info.tables[t][i].present then Some(info.tables[t][i].frame) else None
  }

  /** The user bits of both levels let a process at the page; the pages of the kernel's tables have none. */
  predicate UserMay(info: Info, page: nat) {
    && DirIndex(page) < |info.dir| && info.dir[DirIndex(page)].present && info.dir[DirIndex(page)].user
    && match info.dir[DirIndex(page)].table
       case UserTable(t) =>
         var i := TableIndex(page);
         t < |info.tables| && i < |info.tables[t]| && info.tables[t][i].present && info.tables[t][i].user
       case _ => false
  }

  // ---------------------------------------------------------------- assigning

  datatype MemError =
    | NoMemError | PartAlreadyAssigned | AlreadyAssigned
    | Unavailable | OutOfPages | OutOfMemory | InvalidArgument

  function FreeTable(used: seq<bool>, t: nat): nat
    requires t <= |used|
    decreases |used| - t
  {
    if t == |used| || !used[t] then t else FreeTable(used, t + 1)
  }

  function FreeFrame(frames: seq<Frame>, f: nat): nat
    requires f <= |frames|
    decreases |frames| - f
  {
    if f == |frames| || IsFree(frames[f]) then f else FreeFrame(frames, f + 1)
  }

  function WithInfo(m: Memory, p: nat, info: Info): Memory
    requires p < |m.infos|
  {
    m.(infos := m.infos[p := info])
  }

  function WithEntry(info: Info, t: nat, i: nat, e: PageEntry): Info
    requires t < |info.tables| && i < |info.tables[t]|
  {
    info.(tables := info.tables[t := info.tables[t][i := e]])
  }

  function WithCount(m: Memory, f: nat, count: nat): Memory
    requires f < |m.frames|
  {
    m.(frames := m.frames[f := m.frames[f].(assignCount := count)])
  }

  /** The directory entry for the d-th area, taking a table for it when there is none. */
  function TakeTable(info: Info, d: nat): Option<Info>
    requires d < |info.dir|
  {
    var t := FreeTable(info.used, 0);
    if t >= |info.used| then None
    else Some(info.(dir := info.dir[d := DirEntry(UserTable(t), true, true)], used := info.used[t := true]))
  }

  datatype PageResult = Assigned | Overlap | Refused(error: MemError)

  /** The entry is free, in the user table t. */
  function AssignEntry(m: Memory, p: nat, t: nat, i: nat): Outcome<(Memory, PageResult)>
    requires p < |m.infos| && t < |m.infos[p].tables| && i < |m.infos[p].tables[t]|
  {
    var f := FreeFrame(m.frames, 0);
    if f >= |m.frames| then Ok((m, Refused(OutOfMemory)))
    else if f == 0 || f >= MAX_FRAMES then Halt(IllegalFrame)
    else Ok((WithCount(WithInfo(m, p, WithEntry(m.infos[p], t, i, PageEntry(f, true, true))), f, m.frames[f].assignCount + 1),
             Assigned))
  }

  function AssignInTable(m: Memory, p: nat, page: nat): Outcome<(Memory, PageResult)>
    requires p < |m.infos| && DirIndex(page) < |m.infos[p].dir|
  {
    var info := m.infos[p];
    var d := info.dir[DirIndex(page)];
    var i := TableIndex(page);
    if !d.table.UserTable? || d.table.index >= |info.tables| || i >= |info.tables[d.table.index]| then Halt(NoPageTable)
    else
      var e := info.tables[d.table.index][i];
      if e.user then Ok((m, Overlap))
      else if e.present then Ok((m, Refused(Unavailable)))
      else AssignEntry(m, p, d.table.index, i)
  }

  /** One round of the loop over the requested pages. */
  function AssignPage(m: Memory, p: nat, page: nat): Outcome<(Memory, PageResult)>
    requires p < |m.infos|
  {
    var d := DirIndex(page);
    if d >= USER_DIRS || d >= |m.infos[p].dir| then Ok((m, Refused(Unavailable)))
    else if !m.infos[p].dir[d].present then
      match TakeTable(m.infos[p], d)
      case None => Ok((m, Refused(OutOfPages)))
      case Some(info) => AssignInTable(WithInfo(m, p, info), p, page)
    else if !m.infos[p].dir[d].user then Ok((m, Refused(Unavailable)))
    else AssignInTable(m, p, page)
  }

  function Success(newPages: bool, overlap: bool): MemError {
    if overlap then if newPages then PartAlreadyAssigned else AlreadyAssigned else NoMemError
  }

  function AssignFrom(m: Memory, p: nat, page: nat, end: nat, newPages: bool, overlap: bool): Outcome<(Memory, MemError)>
    requires page <= end
    decreases end - page
  {
    if page == end then Ok((m, Success(newPages, overlap)))
    else if p >= |m.infos| then Ok((m, InvalidArgument))
    else
      var (m1, r) :- AssignPage(m, p, page);
      match r
      case Refused(e) => Ok((m1, e))
      case Overlap => AssignFrom(m1, p, page + 1, end, newPages, true)
      case Assigned => AssignFrom(m1, p, page + 1, end, true, overlap)
  }

  function Assign(m: Memory, p: int, start: nat, count: nat): Outcome<(Memory, MemError)> {
    if !(0 <= p < |m.infos|) || count == 0 then Ok((m, InvalidArgument))
    else if start >= MAX_PAGES || count >= MAX_PAGES || start + count >= MAX_PAGES then Ok((m, InvalidArgument))
    else AssignFrom(m, p, start, start + count, false, false)
  }

  // ---------------------------------------------------------------- releasing

  /** Giving back the frame of an entry, with the checks of its counter. */
  function Decrement(m: Memory, f: nat): Outcome<Memory>
    requires f < |m.frames|
  {
    var frame := m.frames[f];
    if frame.assignCount == 0 || frame.reserved || !frame.available || !frame.present then Halt(FrameNotInUse)
    else Ok(WithCount(m, f, frame.assignCount - 1))
  }

  /** `clean` also removes the entry; the cleanup of a whole process does that at the end. */
  function ReleaseEntry(m: Memory, p: nat, t: nat, i: nat, clean: bool): Outcome<Memory>
    requires p < |m.infos| && t < |m.infos[p].tables| && i < |m.infos[p].tables[t]|
  {
    var e := m.infos[p].tables[t][i];
    if e.frame == 0 || e.frame >= |m.frames| then Halt(IllegalFrame)
    else if clean && !(e.present && e.user) then Halt(IllegalPage)
    else Decrement(if clean then WithInfo(m, p, WithEntry(m.infos[p], t, i, NO_PAGE)) else m, e.frame)
  }

  function ReleasePage(m: Memory, p: int, page: nat): Outcome<Memory> {
    if !(0 <= p < |m.infos|) || page == 0 || page >= MAX_PAGES then Halt(IllegalPage)
    else if DirIndex(page) >= USER_DIRS || DirIndex(page) >= |m.infos[p].dir| then Halt(IllegalPage)
    else
      var d := m.infos[p].dir[DirIndex(page)];
      var i := TableIndex(page);
      if !d.table.UserTable? || d.table.index >= |m.infos[p].tables| || i >= |m.infos[p].tables[d.table.index]| then
        Halt(IllegalPage)
      else ReleaseEntry(m, p, d.table.index, i, true)
  }

  /** The inner loop of the cleanup: every present entry of a table from the i-th on. */
  function CleanTable(m: Memory, p: nat, t: nat, i: nat): Outcome<Memory>
    requires p < |m.infos| && t < |m.infos[p].tables| && i <= |m.infos[p].tables[t]|
    decreases |m.infos[p].tables[t]| - i
  {
    if i == |m.infos[p].tables[t]| then Ok(m)
    else if !m.infos[p].tables[t][i].present then CleanTable(m, p, t, i + 1)
    else
      var m1 :- ReleaseEntry(m, p, t, i, false);
      CleanTable(m1, p, t, i + 1)
  }

  function CleanTables(m: Memory, p: nat, t: nat): Outcome<Memory>
    requires p < |m.infos| && |m.infos[p].tables| == |m.infos[p].used| && t <= |m.infos[p].used|
    decreases |m.infos[p].used| - t
  {
    if t == |m.infos[p].used| then Ok(m)
    else if !m.infos[p].used[t] then CleanTables(m, p, t + 1)
    else
      var m1 :- CleanTable(m, p, t, 0);
      if m1.infos == m.infos then CleanTables(m1, p, t + 1) else Ok(m1)
  }

  /** Only the user area of the directory is cleared. */
  function ClearedInfo(info: Info): Info {
    Info(seq(|info.dir|, d requires 0 <= d < |info.dir| => if d < USER_DIRS then NO_DIR_ENTRY else info.dir[d]),
         seq(|info.tables|, t => NoPages()),
         seq(|info.used|, t => false))
  }

  function Cleanup(m: Memory, p: int): Outcome<Memory> {
    if !(0 <= p < |m.infos|) || |m.infos[p].tables| != |m.infos[p].used| then Halt(IllegalPage)
    else
      var m1 :- CleanTables(m, p, 0);
      Ok(if p < |m1.infos| then WithInfo(m1, p, ClearedInfo(m1.infos[p])) else m1)
  }

  // ---------------------------------------------------------------- requests in bytes

  const PAGE_BYTES: nat := 4096
  const KERNEL_BYTES: nat := 4 * 1024 * 1024
  const ADDRESS_SPACE: nat := 0x1_0000_0000

  /** Pages for a range of addresses; the end is computed in 32 bits. */
  function Gimme(m: Memory, p: int, start: nat, size: nat): Outcome<(Memory, MemError)>
    requires start < ADDRESS_SPACE && size < ADDRESS_SPACE
  {
    var end := (start + size) % ADDRESS_SPACE;
    if !(0 <= p < |m.infos|) || end <= start || end > ADDRESS_SPACE - KERNEL_BYTES then Ok((m, InvalidArgument))
    else
      var first := start / PAGE_BYTES;
      Assign(m, p, first, Aligned(end, PAGE_BYTES) / PAGE_BYTES - first)
  }
}
