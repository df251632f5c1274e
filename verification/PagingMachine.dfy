/** Paging as it runs: tables updated in place by loops, each function refining its description. */
module PagingMachine {
  import opened Arithmetic
  import opened Outcomes
  import opened PagingState
  import PagingProofs

  /** The number of free frames from the f-th on. */
  function CountFree(frames: seq<Frame>, f: nat): nat
    requires f <= |frames|
    decreases |frames| - f
  {
    if f == |frames| then 0 else CountFree(frames, f + 1) + if IsFree(frames[f]) then 1 else 0
  }

  lemma {:induction false} CountFreeIsCardinality(frames: seq<Frame>, f: nat)
    requires f <= |frames|
    ensures CountFree(frames, f) == |FreeFrom(frames, f)|
    decreases |frames| - f
  {
    if f < |frames| {
      CountFreeIsCardinality(frames, f + 1);
      var rest := FreeFrom(frames, f + 1);
      assert FreeFrom(frames, f) == if IsFree(frames[f]) then rest + {f} else rest;
    }
  }

  ghost function FreeFrom(frames: seq<Frame>, f: nat): (r: set<nat>)
    ensures forall g :: g in r <==> f <= g < |frames| && IsFree(frames[g])
  {
    set g: nat | f <= g < |frames| && IsFree(frames[g])
  }

  class Paging {
    const frames: array<Frame>
    const infos: array<Info>

    ghost function View(): Memory
      reads this, frames, infos
    {
      Memory(frames[..], infos[..])
    }

    constructor (hardware: seq<Frame>, procs: nat, tables: nat)
      ensures View() == Memory(hardware, seq(procs, p => EmptyInfo(tables)))
      ensures fresh(frames) && fresh(infos)
    {
      frames := new Frame[|hardware|](i requires 0 <= i < |hardware| => hardware[i]);
      infos := new Info[procs](p => EmptyInfo(tables));
      new;
      assert frames[..] == hardware;
      assert infos[..] == seq(procs, p => EmptyInfo(tables));
    }

    method GetFreeTable(p: nat) returns (table: nat)
      requires p < infos.Length
      ensures table == FreeTable(infos[p].used, 0)
    {
      table := 0;
      while table < |infos[p].used|
        invariant table <= |infos[p].used| && FreeTable(infos[p].used, 0) == FreeTable(infos[p].used, table)
      {
        if !infos[p].used[table] {
          return;
        }
        table := table + 1;
      }
    }

    method GetFreeFrame() returns (frame: nat)
      ensures frame == FreeFrame(frames[..], 0)
    {
      frame := 0;
      while frame < frames.Length
        invariant frame <= frames.Length && FreeFrame(frames[..], 0) == FreeFrame(frames[..], frame)
      {
        if IsFree(frames[frame]) {
          return;
        }
        frame := frame + 1;
      }
    }

    /** The size of the set of free frames. */
    method GetFreePages() returns (freePages: nat)
      ensures freePages == |PagingProofs.FreeFrames(frames[..])|
    {
      freePages := 0;
      for page := 0 to frames.Length
        invariant freePages + CountFree(frames[..], page) == CountFree(frames[..], 0)
      {
        if IsFree(frames[page]) {
          freePages := freePages + 1;
        }
      }
      CountFreeIsCardinality(frames[..], 0);
      assert FreeFrom(frames[..], 0) == PagingProofs.FreeFrames(frames[..]);
    }

    method AssignPage(p: nat, page: nat) returns (oops: Option<Oops>, r: PageResult)
      requires p < infos.Length
      modifies frames, infos
      ensures FollowsWith(oops, View(), r, PagingState.AssignPage(old(View()), p, page))
    {
      var d, i := DirIndex(page), TableIndex(page);
      if d >= USER_DIRS || d >= |infos[p].dir| {
        return None, Refused(Unavailable);
      }
      if !infos[p].dir[d].present {
        var t := GetFreeTable(p);
        if t >= |infos[p].used| {
          return None, Refused(OutOfPages);
        }
        infos[p] := infos[p].(dir := infos[p].dir[d := DirEntry(UserTable(t), true, true)],
                              used := infos[p].used[t := true]);
      } else if !infos[p].dir[d].user {
        return None, Refused(Unavailable);
      }
      var table := infos[p].dir[d].table;
      if !table.UserTable? || table.index >= |infos[p].tables| || i >= |infos[p].tables[table.index]| {
        return Some(NoPageTable), Overlap;
      }
      if infos[p].tables[table.index][i].user {
        return None, Overlap;
      }
      if infos[p].tables[table.index][i].present {
        return None, Refused(Unavailable);
      }
      var f := GetFreeFrame();
      if f >= frames.Length {
        return None, Refused(OutOfMemory);
      }
      if f == 0 || f >= MAX_FRAMES {
        return Some(IllegalFrame), Overlap;
      }
      frames[f] := frames[f].(assignCount := frames[f].assignCount + 1);
      infos[p] := WithEntry(infos[p], table.index, i, PageEntry(f, true, true));
      return None, Assigned;
    }

    method Assign(p: int, start: nat, count: nat) returns (oops: Option<Oops>, e: MemError)
      modifies frames, infos
      ensures FollowsWith(oops, View(), e, PagingState.Assign(old(View()), p, start, count))
    {
      hide PagingState.AssignPage;
      if !(0 <= p < infos.Length) || count == 0 {
        return None, InvalidArgument;
      }
      if start >= MAX_PAGES || count >= MAX_PAGES || start + count >= MAX_PAGES {
        return None, InvalidArgument;
      }
      var newPages, overlap := false, false;
      for page := start to start + count
        invariant PagingState.Assign(old(View()), p, start, count) ==
                  AssignFrom(View(), p, page, start + count, newPages, overlap)
      {
        var r;
        oops, r := AssignPage(p, page);
        if oops.Some? {
          return oops, InvalidArgument;
        }
        match r
        case Refused(error) => return None, error;
        case Overlap => overlap := true;
        case Assigned => newPages := true;
      }
      return None, Success(newPages, overlap);
    }

    method Gimme(p: int, start: nat, size: nat) returns (oops: Option<Oops>, e: MemError)
      requires start < ADDRESS_SPACE && size < ADDRESS_SPACE
      modifies frames, infos
      ensures FollowsWith(oops, View(), e, PagingState.Gimme(old(View()), p, start, size))
    {
      hide PagingState.Assign;
      var end := (start + size) % ADDRESS_SPACE;
      if !(0 <= p < infos.Length) || end <= start || end > ADDRESS_SPACE - KERNEL_BYTES {
        return None, InvalidArgument;
      }
      var first := start / PAGE_BYTES;
      oops, e := Assign(p, first, Aligned(end, PAGE_BYTES) / PAGE_BYTES - first);
    }

    method ReleaseEntry(p: nat, t: nat, i: nat, clean: bool) returns (oops: Option<Oops>)
      requires p < infos.Length && t < |infos[p].tables| && i < |infos[p].tables[t]|
      modifies frames, infos
      ensures Follows(oops, View(), PagingState.ReleaseEntry(old(View()), p, t, i, clean))
    {
      var e := infos[p].tables[t][i];
      if e.frame == 0 || e.frame >= frames.Length {
        return Some(IllegalFrame);
      }
      if clean {
        if !e.present || !e.user {
          return Some(IllegalPage);
        }
        infos[p] := WithEntry(infos[p], t, i, NO_PAGE);
      }
      var f := frames[e.frame];
      if f.assignCount == 0 || f.reserved || !f.available || !f.present {
        return Some(FrameNotInUse);
      }
      frames[e.frame] := f.(assignCount := f.assignCount - 1);
      return None;
    }

    method Release(p: int, page: nat) returns (oops: Option<Oops>)
      modifies frames, infos
      ensures Follows(oops, View(), ReleasePage(old(View()), p, page))
    {
      hide PagingState.ReleaseEntry;
      if !(0 <= p < infos.Length) || page == 0 || page >= MAX_PAGES {
        return Some(IllegalPage);
      }
      if DirIndex(page) >= USER_DIRS || DirIndex(page) >= |infos[p].dir| {
        return Some(IllegalPage);
      }
      var table, i := infos[p].dir[DirIndex(page)].table, TableIndex(page);
      if !table.UserTable? || table.index >= |infos[p].tables| || i >= |infos[p].tables[table.index]| {
        return Some(IllegalPage);
      }
      oops := ReleaseEntry(p, table.index, i, true);
    }

    method CleanTable(p: nat, t: nat) returns (oops: Option<Oops>)
      requires p < infos.Length && t < |infos[p].tables|
      modifies frames, infos
      ensures Follows(oops, View(), PagingState.CleanTable(old(View()), p, t, 0))
    {
      hide PagingState.ReleaseEntry;
      for i := 0 to |infos[p].tables[t]|
        invariant infos[..] == old(infos[..])
        invariant PagingState.CleanTable(old(View()), p, t, 0) == PagingState.CleanTable(View(), p, t, i)
      {
        if infos[p].tables[t][i].present {
          ReleasingLeavesEntries(View(), p, t, i);
          oops := ReleaseEntry(p, t, i, false);
          if oops.Some? {
            return;
          }
        }
      }
      oops := None;
    }

    method Cleanup(p: int) returns (oops: Option<Oops>)
      modifies frames, infos
      ensures Follows(oops, View(), PagingState.Cleanup(old(View()), p))
    {
      hide PagingState.CleanTable;
      if !(0 <= p < infos.Length) || |infos[p].tables| != |infos[p].used| {
        return Some(IllegalPage);
      }
      for t := 0 to |infos[p].tables|
        invariant infos[..] == old(infos[..])
        invariant CleanTables(old(View()), p, 0) == CleanTables(View(), p, t)
      {
        if infos[p].used[t] {
          CleaningLeavesEntries(View(), p, t, 0);
          oops := CleanTable(p, t);
          if oops.Some? {
            return;
          }
        }
      }
      infos[p] := ClearedInfo(infos[p]);
      oops := None;
    }
  }

  lemma ReleasingLeavesEntries(m: Memory, p: nat, t: nat, i: nat)
    requires p < |m.infos| && t < |m.infos[p].tables| && i < |m.infos[p].tables[t]|
    ensures match ReleaseEntry(m, p, t, i, false) case Ok(m') => m'.infos == m.infos case Halt(_) => true
  {
  }

  lemma CleaningLeavesEntries(m: Memory, p: nat, t: nat, i: nat)
    requires p < |m.infos| && t < |m.infos[p].tables| && i <= |m.infos[p].tables[t]|
    ensures match CleanTable(m, p, t, i) case Ok(m') => m'.infos == m.infos case Halt(_) => true
    decreases |m.infos[p].tables[t]| - i
  {
    if i < |m.infos[p].tables[t]| {
      ReleasingLeavesEntries(m, p, t, i);
      var next := if m.infos[p].tables[t][i].present then ReleaseEntry(m, p, t, i, false) else Ok(m);
      if next.Ok? {
        CleaningLeavesEntries(next.value, p, t, i + 1);
      }
    }
  }
}
