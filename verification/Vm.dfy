/** phase3/vmSupport.c and its neighbours in place: each piece of code between two points where other processes
    can run is a method that does one step of the paging model. */
module Vm {
  import opened Layout
  import opened PageTable
  import opened Paging
  import Devices

  const FLASHINT := 4
  const FLASHREAD := 2
  const FLASHWRITE := 3
  const READY := 1

  /** A word for the COMMAND field of a flash device: (block << BYTELENGTH) | operation. */
  function FlashCommand(block: nat, operation: nat): (r: nat)
    requires operation < 256
    ensures r / 256 == block && r % 256 == operation
  {
    block * 256 + operation
  }

  /** flashOp and printDevice compute command addresses by pointer arithmetic; each decodes to the device meant. */
  const PRINT0ADDR := 0x1000_01d4
  const TERM0ADDR := 0x1000_0254
  const DEVREGLEN := 4
  const TRANCOMMAND := 3
  const WORDLEN := 4

  function FlashCommandAddr(asid: Asid): int { Devices.CommandAddr(FLASHINT, asid - 1) }
  function PrinterCommandAddr(devNo: nat): int { PRINT0ADDR + devNo * DEVREGLEN * WORDLEN + WORDLEN }
  function TerminalCommandAddr(devNo: nat): int { TERM0ADDR + devNo * DEVREGLEN * WORDLEN + TRANCOMMAND * WORDLEN }

  /** Each of the three addresses is a command register that doio finds, of the right device and no other. */
  lemma AddressesDecode(asid: Asid, devNo: nat)
    requires devNo < UPROCMAX
    ensures Devices.Decode(FlashCommandAddr(asid)) == Some(Devices.Register(Flash, asid - 1))
    ensures Devices.Decode(PrinterCommandAddr(devNo)) == Some(Devices.Register(Printer, devNo))
    ensures Devices.Decode(TerminalCommandAddr(devNo)) == Some(Devices.Register(TermTransm, devNo))
  {
    Devices.DecodeInvertsCommand(FlashCommandAddr(asid), Devices.Register(Flash, asid - 1));
    Devices.DecodeInvertsCommand(PrinterCommandAddr(devNo), Devices.Register(Printer, devNo));
    Devices.DecodeInvertsCommand(TerminalCommandAddr(devNo), Devices.Register(TermTransm, devNo));
  }

  class SwapPool {
    const table: array<Row>
    var ptes: map<Slot, Pte>
    var tlb: map<nat, nat>
    var ram: map<int, Page>
    var flash: map<Slot, Page>
    var counter: int
    ghost var phase: Phase
    ghost var dead: set<int>

    ghost predicate Valid()
      reads this
    {
      table.Length == POOLSIZE
    }

    /** The paging invariant holds of the fields. */
    ghost predicate Sound()
      reads this, table
    {
      true == (Valid() && Inv(View()))
    }

    ghost function View(): M
      requires Valid()
      reads this, table
    {
      M(table[..], ptes, tlb, ram, flash, counter, phase, dead)
    }

    // ---------- initialisation ----------

    /** The part of test() that sets up the swap pool and the page tables. */
    constructor (ram: map<int, Page>, flash: map<Slot, Page>)
      requires (forall f | 0 <= f < POOLSIZE :: f in ram) && (forall s: Slot :: s in flash)
      ensures Valid() && fresh(table) && Initial(View()) && counter == -1 && this.flash == flash
    {
      table := new Row[POOLSIZE](_ => Row(0, 0, None));
      ptes, tlb, this.ram, this.flash, counter := map[], map[], ram, flash, -1;
      phase, dead := Open, {};
      new;
      var i := 0;
      while i < POOLSIZE
        modifies table
        invariant 0 <= i <= POOLSIZE
        invariant forall f | 0 <= f < i :: table[f] == Row(NOASID, NOPAGE, None)
      {
        InitSwapStructs(i);
        i := i + 1;
      }
      InitSupportStruct();
      assert forall f | 0 <= f < POOLSIZE :: View().swap[f] == table[f];
    }

    /** initSwapStructs. */
    method InitSwapStructs(entryId: int)
      requires Valid() && 0 <= entryId < POOLSIZE
      modifies table
      ensures table[..] == old(table[..])[entryId := Row(NOASID, NOPAGE, None)]
    {
      table[entryId] := Row(NOASID, NOPAGE, None);
    }

    /** initSupportStruct: every page of every address space is on flash, and each entry carries its own name. */
    method InitSupportStruct()
      modifies this`ptes
      ensures forall s: Slot :: s in ptes && ptes[s] == Pte(HiOf(s), DIRTYON)
    {
      var asid := 0;
      while asid < UPROCMAX
        invariant 0 <= asid <= UPROCMAX
        invariant forall s: Slot | s.asid <= asid :: s in ptes && ptes[s] == Pte(HiOf(s), DIRTYON)
      {
        var i := 0;
        while i < MAXPAGES - 1
          invariant 0 <= i <= MAXPAGES - 1
          invariant forall s: Slot | s.asid <= asid || (s.asid == asid + 1 && s.page < i) ::
                      s in ptes && ptes[s] == Pte(HiOf(s), DIRTYON)
        {
          ptes := ptes[Slot(asid + 1, i) := Pte(KUSEG + i * PAGESIZE + (asid + 1) * 64, DIRTYON)];
          i := i + 1;
        }
        ptes := ptes[Slot(asid + 1, MAXPAGES - 1) := Pte(GETSHAREFLAG - PAGESIZE + (asid + 1) * 64, DIRTYON)];
        asid := asid + 1;
      }
    }

    // ---------- vmSupport.c ----------

    /** isFrameFree. */
    method IsFrameFree(i: int) returns (r: bool)
      requires Valid() && 0 <= i < POOLSIZE
      ensures r == View().Free(i)
    {
      r := table[i].asid == NOASID;
    }

    /** pick_frame: the first free frame, or the one whose turn it is. */
    method PickFrame() returns (r: int)
      requires Valid()
      modifies this`counter
      ensures (r, counter) == Pick(old(View()))
      ensures r < POOLSIZE && (old(counter) >= 0 ==> r >= 0)
      ensures (exists f | 0 <= f < POOLSIZE :: View().Free(f)) ==>
                0 <= r && View().Free(r) && counter == old(counter) && forall f | 0 <= f < r :: !View().Free(f)
    {
      PickFromIs(table[..], counter, 0);
      var i := 0;
      while i < POOLSIZE
        invariant 0 <= i <= POOLSIZE
        invariant counter == old(counter) && Pick(View()) == PickFrom(table[..], counter, i)
        invariant forall f | 0 <= f < i :: !View().Free(f)
      {
        var free := IsFrameFree(i);
        if free { return i; }
        i := i + 1;
      }
      r := if counter >= 0 then counter % POOLSIZE else -((-counter) % POOLSIZE);
      counter := counter + 1;
    }

    /** updateTLB. */
    method UpdateTLB(e: Pte)
      modifies this`tlb
      ensures tlb == UpdateTlb(old(tlb), e)
      ensures tlb.Keys == old(tlb).Keys && (e.hi in tlb ==> tlb[e.hi] == e.lo)
      ensures forall h | h in tlb && h != e.hi :: tlb[h] == old(tlb)[h]
    {
      if e.hi in tlb {
        tlb := tlb[e.hi := e.lo];
      }
    }

    /** flashOp, with the status that the device answers: exactly on READY one page has moved between a frame
        and a flash block. */
    method FlashOp(asid: Asid, block: PageNo, frame: int, operation: nat, answer: int) returns (status: int)
      requires frame in ram && Slot(asid, block) in flash && (operation == FLASHREAD || operation == FLASHWRITE)
      modifies this`ram, this`flash
      ensures status == answer && (answer != READY ==> ram == old(ram) && flash == old(flash))
      ensures answer == READY && operation == FLASHWRITE ==>
                flash == old(flash)[Slot(asid, block) := old(ram)[frame]] && ram == old(ram)
      ensures answer == READY && operation == FLASHREAD ==>
                ram == old(ram)[frame := old(flash)[Slot(asid, block)]] && flash == old(flash)
    {
      if answer == READY {
        if operation == FLASHWRITE {
          flash := flash[Slot(asid, block) := ram[frame]];
        } else {
          ram := ram[frame := flash[Slot(asid, block)]];
        }
      }
      status := answer;
    }

    /** The pager's call of pick_frame. */
    method Choose(want: Slot) returns (frame: int)
      requires Valid() && Sized(View()) && phase == Granted(want)
      requires counter >= 0 || exists f | 0 <= f < POOLSIZE :: View().Free(f)
      modifies this`counter, this`phase
      ensures Valid() && Enabled(old(View()), PicksFrame) && View() == Apply(old(View()), PicksFrame)
      ensures phase == Picked(want, frame) && 0 <= frame < POOLSIZE
    {
      PickIsFrame(View());
      frame := PickFrame();
      phase := Picked(want, frame);
    }

    /** The victim's entry loses its valid bit, and so does its copy in the TLB. */
    method ClearVictim(want: Slot, frame: int)
      requires Sound() && phase == Picked(want, frame) && !View().Free(frame)
      modifies this`ptes, this`tlb, this`phase
      ensures Valid() && Enabled(old(View()), ClearsVictim) && View() == Apply(old(View()), ClearsVictim)
    {
      assert Resident(View(), Owner(View().swap[frame]), frame);
      var victim := table[frame].pte.value;
      var e := ptes[victim];
      ptes := ptes[victim := e.(lo := ClearBit(e.lo, VALIDON))];
      UpdateTLB(ptes[victim]);
      phase := Phase.Cleared(want, frame);
    }

    /** The victim is written to its own flash block. */
    method SaveVictim(want: Slot, frame: int, answer: int) returns (ok: bool)
      requires Sound() && phase == Phase.Cleared(want, frame)
      modifies this`ram, this`flash, this`phase
      ensures Valid() && ok == (answer == READY) && (!ok ==> View() == old(View()))
      ensures ok ==> Enabled(old(View()), SavesVictim) && View() == Apply(old(View()), SavesVictim)
    {
      var status := FlashOp(table[frame].asid, table[frame].page, frame, FLASHWRITE, answer);
      if status != READY { return false; }
      phase := Saved(want, frame);
      ok := true;
    }

    /** The page is read into the frame. */
    method FetchPage(want: Slot, frame: int, answer: int) returns (ok: bool)
      requires Sound() && phase == Saved(want, frame)
      modifies this`ram, this`flash, this`phase
      ensures Valid() && ok == (answer == READY) && (!ok ==> View() == old(View()))
      ensures ok ==> Enabled(old(View()), Fetches) && View() == Apply(old(View()), Fetches)
    {
      var status := FlashOp(want.asid, want.page, frame, FLASHREAD, answer);
      if status != READY { return false; }
      phase := Fetched(want, frame);
      ok := true;
    }

    /** The row is rewritten, field by field in the original. */
    method RecordRow(want: Slot, frame: int)
      requires Sound() && phase == Fetched(want, frame)
      modifies this`phase, table
      ensures Valid() && Enabled(old(View()), Records) && View() == Apply(old(View()), Records)
    {
      table[frame] := table[frame].(asid := want.asid);
      table[frame] := table[frame].(page := want.page);
      table[frame] := table[frame].(pte := Some(want));
      phase := Recorded(want, frame);
    }

    /** The entry becomes valid and points at the frame, in the page table and in the TLB; the mutex is released. */
    method MapPage(want: Slot, frame: int)
      requires Sound() && phase == Recorded(want, frame)
      modifies this`ptes, this`tlb, this`phase
      ensures Valid() && Enabled(old(View()), Maps) && View() == Apply(old(View()), Maps)
    {
      var e := ptes[want];
      e := e.(lo := SetBit(SetBit(e.lo, VALIDON), DIRTYON));
      e := e.(lo := e.lo % PAGESIZE);
      e := e.(lo := e.lo + FrameAddr(frame));
      ptes := ptes[want := e];
      UpdateTLB(e);
      phase := Open;
    }

    /** pager for the page that hi names, when nobody interferes. On success the page is valid and the memory is as
        it was. Otherwise, after a write to a protected page or a failed transfer, the process has trapped in the
        state `before`, in which nothing was lost yet. */
    method Pager(asid: Asid, hi: nat, modification: bool, saveAnswer: int, fetchAnswer: int)
      returns (ok: bool, ghost before: M)
      requires Sound() && phase == Open && asid !in dead
      requires !PageTable.Valid(ptes[Slot(asid, PageOf(hi))].lo)
      requires counter >= 0 || exists f | 0 <= f < POOLSIZE :: View().Free(f)
      modifies this, table
      ensures Valid() && phase == Open && Follows(old(View()), before)
      ensures ok == (!modification && fetchAnswer == READY
                     && (saveAnswer == READY || exists f | 0 <= f < POOLSIZE :: old(View()).Free(f)))
      ensures ok ==> Inv(View()) && before == View() && PageTable.Valid(ptes[Slot(asid, PageOf(hi))].lo)
      ensures !ok ==> Inv(before) && Enabled(before, Traps(asid)) && View() == Apply(before, Traps(asid))
      ensures !ok ==> modification || Holds(before, asid)
    {
      var want := Slot(asid, PageOf(hi));
      before := View();
      FollowsItself(before);
      if modification {
        ProgramTrap(asid);
        return false, before;
      }
      ok := Fill(want, saveAnswer, fetchAnswer);
      before := View();
      if !ok { ProgramTrap(asid); }
    }

    /** The pager between grant and release. */
    method Fill(want: Slot, saveAnswer: int, fetchAnswer: int) returns (ok: bool)
      requires Sound() && phase == Open && want.asid !in dead && want in ptes && !PageTable.Valid(ptes[want].lo)
      requires counter >= 0 || exists f | 0 <= f < POOLSIZE :: View().Free(f)
      modifies this, table
      ensures Sound() && Follows(old(View()), View())
      ensures ok == (fetchAnswer == READY
                     && (saveAnswer == READY || exists f | 0 <= f < POOLSIZE :: old(View()).Free(f)))
      ensures ok ==> phase == Open && want in ptes && PageTable.Valid(ptes[want].lo)
      ensures !ok ==> phase != Open && phase.want == want
    {
      ghost var m := View();
      phase := Granted(want);
      StepFollows(m, Fault(want));
      ghost var m1 := View();
      var frame;
      ok, frame := GetFrame(want, saveAnswer);
      ghost var m2 := View();
      FollowsOn(m, m1, m2);
      if ok {
        ok := ReadIn(want, frame, fetchAnswer);
        FollowsOn(m, m2, View());
      }
    }

    /** From the grant to a frame that holds nobody's page, or to a write-back that failed. */
    method GetFrame(want: Slot, answer: int) returns (ok: bool, frame: int)
      requires Sound() && phase == Granted(want)
      requires counter >= 0 || exists f | 0 <= f < POOLSIZE :: View().Free(f)
      modifies this`counter, this`ptes, this`tlb, this`ram, this`flash, this`phase
      ensures Sound() && Follows(old(View()), View())
      ensures phase == if ok then Saved(want, frame) else Phase.Cleared(want, frame)
      ensures ok <==> answer == READY || exists f | 0 <= f < POOLSIZE :: old(View()).Free(f)
    {
      ghost var m := View();
      PickFromIs(m.swap, m.counter, 0);
      frame := Choose(want);
      ghost var m1 := View();
      StepFollows(m, PicksFrame);
      var free := IsFrameFree(frame);
      if free {
        phase := Saved(want, frame);
        StepFollows(m1, SkipsVictim);
        ok := true;
        assert m.Free(frame);
      } else {
        ok := EmptyFrame(want, frame, answer);
      }
      FollowsOn(m, m1, View());
    }

    /** The occupied branch: the page in the frame is invalidated and written back. */
    method EmptyFrame(want: Slot, frame: int, answer: int) returns (ok: bool)
      requires Sound() && phase == Picked(want, frame) && !View().Free(frame)
      modifies this`ptes, this`tlb, this`ram, this`flash, this`phase
      ensures Sound() && Follows(old(View()), View()) && ok == (answer == READY)
      ensures phase == if ok then Saved(want, frame) else Phase.Cleared(want, frame)
    {
      ghost var m := View();
      ClearVictim(want, frame);
      StepFollows(m, ClearsVictim);
      ghost var m1 := View();
      ok := SaveVictim(want, frame, answer);
      if ok {
        StepFollows(m1, SavesVictim);
        FollowsOn(m, m1, View());
      }
    }

    /** From an empty frame to the page in it, mapped, or to a read that failed. */
    method ReadIn(want: Slot, frame: int, answer: int) returns (ok: bool)
      requires Sound() && phase == Saved(want, frame)
      modifies this`ptes, this`tlb, this`ram, this`flash, this`phase, table
      ensures Sound() && Follows(old(View()), View()) && ok == (answer == READY)
      ensures !ok ==> phase == Saved(want, frame)
      ensures ok ==> phase == Open && want in ptes && PageTable.Valid(ptes[want].lo)
    {
      ghost var m := View();
      ok := FetchPage(want, frame, answer);
      if !ok {
        FollowsItself(m);
        return;
      }
      StepFollows(m, Fetches);
      ghost var m1 := View();
      Install(want, frame);
      FollowsOn(m, m1, View());
    }

    /** The last part of the pager: the row and the entry. */
    method Install(want: Slot, frame: int)
      requires Sound() && phase == Fetched(want, frame)
      modifies this`ptes, this`tlb, this`phase, table
      ensures Sound() && phase == Open && Follows(old(View()), View())
      ensures want in ptes && PageTable.Valid(ptes[want].lo)
    {
      ghost var m1 := View();
      RecordRow(want, frame);
      StepFollows(m1, Records);
      ghost var m2 := View();
      MapPage(want, frame);
      StepFollows(m2, Maps);
      FollowsOn(m1, m2, View());
      MappedIsValid(m2.ptes[want].lo, frame);
    }

    // ---------- initial.c, sysSupport.c ----------

    /** uTLB_RefillHandler for the running address space; out is the entry that TLBWR displaces. */
    method RefillHandler(asid: Asid, hi: nat, out: Option<nat>)
      requires Sound() && asid !in dead && HiOf(Slot(asid, PageOf(hi))) !in tlb
      modifies this`tlb
      ensures Valid() && Enabled(old(View()), Refill(Slot(asid, PageOf(hi)), out))
      ensures View() == Apply(old(View()), Refill(Slot(asid, PageOf(hi)), out))
      ensures var s := Slot(asid, PageOf(hi)); HiOf(s) in tlb && tlb[HiOf(s)] == ptes[s].lo
      ensures forall h | h in old(tlb) && Some(h) != out :: h in tlb && tlb[h] == old(tlb)[h]
    {
      var p := hi % 0x4000_0000 / PAGESIZE;
      if p > MAXPAGES - 1 {
        p := MAXPAGES - 1;
      }
      var e := ptes[Slot(asid, p)];
      if out.Some? {
        tlb := tlb - {out.value};
      }
      tlb := tlb[e.hi := e.lo];
    }

    /** programTrapHandler by the process of space asid: its frames become free, and if it holds the swap mutex
        it releases it. */
    method ProgramTrap(asid: Asid)
      requires Valid() && Sized(View()) && asid !in dead
      modifies this`phase, this`dead, table
      ensures Valid() && Enabled(old(View()), Traps(asid)) && View() == Apply(old(View()), Traps(asid))
    {
      var i := 0;
      while i < POOLSIZE
        modifies table
        invariant 0 <= i <= POOLSIZE
        invariant forall f | 0 <= f < POOLSIZE ::
                    table[f] == if f < i then Cleaned(old(table[..]), asid)[f] else old(table[f])
      {
        if table[i].asid == asid {
          table[i] := table[i].(asid := NOASID);
        }
        i := i + 1;
      }
      assert table[..] == Cleaned(old(table[..]), asid);
      phase, dead := if Holds(old(View()), asid) then Open else phase, dead + {asid as int};
    }
  }

  /** The memory of the live spaces is what it was, and nobody died. */
  ghost predicate Follows(m: M, m2: M) {
    true == (
      && Sized(m) && Sized(m2) && m2.dead == m.dead
      && forall s: Slot | s.asid !in m.dead :: Contents(m2, s) == Contents(m, s))
  }

  lemma FollowsOn(m: M, m1: M, m2: M)
    requires Follows(m, m1) && Follows(m1, m2)
    ensures Follows(m, m2)
  {
  }

  /** A step of the pager keeps the invariant and the memory. */
  lemma StepFollows(m: M, e: Event)
    requires Inv(m) && Enabled(m, e) && !e.Writes? && !e.Traps?
    ensures Inv(Apply(m, e)) && Follows(m, Apply(m, e))
  {
    StepKeeps(m, e);
    SameDead(m, e);
  }

  lemma FollowsItself(m: M)
    requires Sized(m)
    ensures Follows(m, m)
  {
  }
}
