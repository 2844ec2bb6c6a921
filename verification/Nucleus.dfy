/** The nucleus in place: system calls, services, interrupts and the scheduler as methods over the
    linked tables, each refining its function on nucleus states. */
module Nucleus {
  import opened Layout
  import opened Rings
  import opened Listx
  import opened PcbPool
  import opened MsgPool
  import opened Kernel
  import opened Invariant
  import opened Terminate
  import opened Subtrees
  import opened Boot
  import opened Replies
  import opened Services
  import Devices
  import Answers
  import Runs

  /** allocPcb for the first free row c. */
  function Allocated(k: K, c: PcbId): K
    requires k.Q(PcbFree) != []
  {
    k.(rings := k.rings[PcbFree := k.Q(PcbFree)[1..]][PChild(c) := []][Inbox(c) := []],
       pcbs := k.pcbs[c := Pcb(None, k.nextPid, k.pcbs[c].dev, None, None)], nextPid := k.nextPid + 1)
  }

  /** The rest of createProcess. */
  function Adopted(k: K, parent: PcbId, c: PcbId): K {
    k.(pcbs := k.pcbs[c := k.pcbs[c].(parent := Some(parent))], processCount := k.processCount + 1)
     .Put(Head(Ready), PList(c)).Put(PChild(parent), PSib(c))
  }

  lemma CreateIsAllocateAndAdopt(k: K, parent: PcbId)
    requires k.Q(PcbFree) != []
    ensures var c := PcbOf(k.Q(PcbFree)[0]); Create(k, parent) == (Adopted(Allocated(k, c), parent, c), Some(c))
  {
    var c := PcbOf(k.Q(PcbFree)[0]);
    var row := Pcb(None, k.nextPid, k.pcbs[c].dev, None, None);
    assert k.pcbs[c := row][c := row.(parent := Some(parent))] == k.pcbs[c := row.(parent := Some(parent))];
  }

  lemma AllocatedLists(k: K, c: PcbId)
    requires ListsOk(k) && k.Q(PcbFree) != [] && k.Q(PcbFree)[0] == PList(c) && Loose(k.rings, PSib(c))
    ensures var k1 := Allocated(k, c);
            && Loose(k1.rings, PList(c)) && Loose(k1.rings, PSib(c)) && PcbFree in k1.rings && Head(Ready) in k1.rings
            && forall p: PcbId | k.Live(p) :: PChild(p) in k1.rings
  {
    NewbornLists(k, c, None);
    assert Allocated(k, c).rings == Newborn(k, c, None).rings;
  }

  /** The last part of send. */
  function Delivered(k: K, dest: PcbId, x: Addr): K {
    (if k.current != Some(dest) && PList(dest) !in k.Q(Head(Ready)) then k.Put(Head(Ready), PList(dest)) else k)
      .Put(Inbox(dest), x)
  }

  lemma SendIsPost(k: K, sender: PcbId, dest: PcbId, payload: int)
    requires ListsOk(k) && !k.SoftBlocked(dest) && k.Q(MsgFree) != []
    ensures var (k1, x) := Filled(k, Msg(Some(sender), payload));
            && ListsOk(k1) && Loose(k1.rings, x) && x.MList?
            && (k1.Live(dest) ==> PList(dest) in k1.Q(Head(Ready)) || Loose(k1.rings, PList(dest)))
            && Send(k, sender, dest, payload)
               == if k1.Live(dest) then (Delivered(k1, dest, x), Sent) else (k1, NoDestination)
  {
    FilledLists(k, Msg(Some(sender), payload));
    if k.Live(dest) { NowhereIsLoose(k, dest); }
  }

  class Nucleus {
    const links: Links
    const pcbs: PcbTable
    const msgs: MsgTable
    var current: Option<PcbId>
    var processCount: int
    var softBlockCount: int
    var ssi: PcbId

    /** The tables hang together and the links thread the lists. */
    ghost predicate Wired()
      reads this, links
    {
      links.Valid() && pcbs.links == links && msgs.links == links && msgs.pcbs == pcbs
    }

    ghost function View(): K
      reads this, links, pcbs, msgs
    {
      K(links.rings, pcbs.rows, msgs.rows, pcbs.nextPid, current, processCount, softBlockCount, ssi)
    }

    // ---------- initial.c ----------

    /** main up to its call of the scheduler: all tables free, then two ready processes, the SSI first. */
    constructor ()
      ensures Wired() && Initial(View())
    {
      var l := new Links();
      var p := new PcbTable(l);
      links, pcbs := l, p;
      msgs := new MsgTable(l, p);
      current, processCount, softBlockCount, ssi := None, 0, 0, 0;
      new;
      FillPools();
      MakeQueues();
      assert View() == Cleared();
      ClearedUp();
      Populate();
    }

    /** The two pools, each holding its whole table. */
    method FillPools()
      requires Wired() && links.rings == map[PcbFree := [], MsgFree := []]
      modifies links
      ensures Wired() && links.rings == Pools()
    {
      pcbs.InitPcbs();
      msgs.InitMsgs();
    }

    /** mkEmptyProcQ for every queue there is. */
    method MakeQueues()
      requires Wired()
      modifies links
      ensures Wired()
      ensures links.rings == old(links.rings)
        [Head(Ready) := []][Head(Disk) := []][Head(Flash) := []][Head(Ethernet) := []]
        [Head(Printer) := []][Head(TermTransm) := []][Head(TermRecv) := []][Head(PseudoClock) := []]
    {
      links.InitListHead(Head(Ready));
      links.InitListHead(Head(Disk));
      links.InitListHead(Head(Flash));
      links.InitListHead(Head(Ethernet));
      links.InitListHead(Head(Printer));
      links.InitListHead(Head(TermTransm));
      links.InitListHead(Head(TermRecv));
      links.InitListHead(Head(PseudoClock));
    }

    /** The two processes main starts. */
    method Populate()
      requires Wired() && Up(View(), 0)
      modifies this`processCount, this`ssi, links, pcbs
      ensures Wired() && Initial(View())
    {
      var first := StartNext(0);
      ghost var k := View();
      ssi := first;
      assert View() == k;
      var second := StartNext(1);
      TwoUp(View());
    }

    method StartNext(ghost c: PcbId) returns (p: PcbId)
      requires Wired() && Up(View(), c)
      modifies this`processCount, links, pcbs
      ensures Wired() && Up(View(), c + 1) && View().ssi == old(View()).ssi && p == c
    {
      NextUp(View(), c);
      p := Start(c);
    }

    /** A process of main's own: the first free row, ready. */
    method Start(ghost c: PcbId) returns (p: PcbId)
      requires Wired() && CanSpawn(View(), c)
      modifies this`processCount, links, pcbs
      ensures Wired() && View() == Spawn(old(View())) && p == c
    {
      var r := pcbs.AllocPcb();
      p := r.value;
      pcbs.InsertProcQ(Head(Ready), p);
      processCount := processCount + 1;
    }

    // ---------- scheduler.c ----------

    method Scheduler() returns (v: Verdict)
      requires Wired() && ListsOk(View().(current := None))
      modifies this`current, links
      ensures Wired() && View() == Schedule(old(View())) && v == Decision(old(View()))
    {
      current := pcbs.RemoveProcQ(Head(Ready));
      if current == None {
        if processCount == 1 {
          v := Halted;
        } else if processCount > 1 && softBlockCount == 0 {
          v := Panicked;
        } else if processCount > 1 && softBlockCount > 0 {
          current := None;
          v := Idle;
        } else {
          v := NoProcess;
        }
      } else {
        v := Dispatched(current.value);
      }
    }

    // ---------- exceptions.c ----------

    /** send. */
    method SendMessage(sender: PcbId, dest: PcbId, payload: int) returns (r: SendResult)
      requires Wired() && ListsOk(View()) && !View().SoftBlocked(dest)
      modifies links, msgs
      ensures Wired() && View() == Send(old(View()), sender, dest, payload).0
      ensures r == Send(old(View()), sender, dest, payload).1
    {
      ghost var k := View();
      var m := msgs.AllocMsg();
      if m == None { return NoMessage; }
      msgs.rows := msgs.rows[m.value := Msg(Some(sender), payload)];
      assert View() == Filled(k, Msg(Some(sender), payload)).0
             && MList(m.value) == Filled(k, Msg(Some(sender), payload)).1;
      SendIsPost(k, sender, dest, payload);
      r := Post(dest, m.value);
    }

    /** The rest of send, for a message that is filled in. */
    method Post(dest: PcbId, m: MsgId) returns (r: SendResult)
      requires Wired() && ListsOk(View()) && Loose(links.rings, MList(m))
      requires View().Live(dest) ==> PList(dest) in View().Q(Head(Ready)) || Loose(links.rings, PList(dest))
      modifies links
      ensures Wired()
      ensures View() == if old(View()).Live(dest) then Delivered(old(View()), dest, MList(m)) else old(View())
      ensures r == if old(View()).Live(dest) then Sent else NoDestination
    {
      var free := pcbs.SearchProcQ(dest, PcbFree);
      if free != 0 { return NoDestination; }
      Deliver(dest, m);
      return Sent;
    }

    /** A sleeping destination is made ready; the message joins its inbox. */
    method Deliver(dest: PcbId, m: MsgId)
      requires Wired() && ListsOk(View()) && View().Live(dest) && Loose(links.rings, MList(m))
      requires PList(dest) in View().Q(Head(Ready)) || Loose(links.rings, PList(dest))
      modifies links
      ensures Wired() && View() == Delivered(old(View()), dest, MList(m))
    {
      var ready := pcbs.SearchProcQ(dest, Head(Ready));
      if current != Some(dest) && ready == 0 {
        pcbs.InsertProcQ(Head(Ready), dest);
      }
      msgs.InsertMessage(Inbox(dest), m);
    }

    /** recv by the running process: a message is taken and freed, or the receive stays pending
        and the scheduler is called. */
    method ReceiveMessage(me: PcbId, f: Filter) returns (r: Option<Msg>)
      requires Wired() && ListsOk(View()) && MessagesOk(View()) && current == Some(me)
      modifies this`current, links, pcbs
      ensures Wired() && View() == Receive(old(View()), me, f).0
      ensures r == Receive(old(View()), me, f).1
    {
      ghost var k := View();
      var m := msgs.PopMessage(Inbox(me), f);
      if m == None {
        Sleep(me, f);
        return None;
      }
      r := Some(msgs.rows[m.value]);
      Finish(me, m.value);
    }

    /** The state is saved with its program counter still at the receive. */
    method Sleep(me: PcbId, f: Filter)
      requires Wired() && ListsOk(View()) && current == Some(me)
      modifies this`current, links, pcbs`rows
      ensures Wired() && View() == Schedule(SaveAt(old(View()), me, f))
    {
      pcbs.rows := pcbs.rows[me := pcbs.rows[me].(pending := Some(f), saved := Some(f))];
      var v := Scheduler();
    }

    /** The message goes back to the pool and the program counter moves on. */
    method Finish(me: PcbId, m: MsgId)
      requires Wired() && MsgFree in links.rings && Inbox(me) in links.rings && MList(m) in links.stale
      modifies links, pcbs`rows
      ensures Wired() && View() == SetPending(old(View()), me, None).Put(MsgFree, MList(m))
    {
      pcbs.rows := pcbs.rows[me := pcbs.rows[me].(pending := None)];
      msgs.FreeMsg(m, Inbox(me));
    }

    // ---------- ssi.c ----------

    /** createProcess: None is NOPROC. */
    method CreateProcess(parent: PcbId) returns (r: Option<PcbId>)
      requires Wired() && ListsOk(View()) && TreeOk(View()) && View().Live(parent)
      modifies this`processCount, links, pcbs
      ensures Wired() && View() == Create(old(View()), parent).0 && r == Create(old(View()), parent).1
    {
      var empty := links.ListEmpty(PcbFree);
      if empty { return None; }
      FreeIsNobodysChild(View());
      CreateIsAllocateAndAdopt(View(), parent);
      AllocatedLists(View(), PcbOf(View().Q(PcbFree)[0]));
      var c := AllocateRow();
      Adopt(parent, c);
      r := Some(c);
    }

    /** allocPcb on a table with a free row. */
    method AllocateRow() returns (c: PcbId)
      requires Wired() && PcbFree in links.rings && links.rings[PcbFree] != []
      requires Loose(links.rings, PSib(PcbOf(links.rings[PcbFree][0])))
      modifies links, pcbs
      ensures Wired() && c == PcbOf(old(links.rings)[PcbFree][0]) && View() == Allocated(old(View()), c)
    {
      var r := pcbs.AllocPcb();
      c := r.value;
    }

    /** The second half of createProcess: the child is ready and has a parent. */
    method Adopt(parent: PcbId, c: PcbId)
      requires Wired() && Head(Ready) in links.rings && PChild(parent) in links.rings && PcbFree in links.rings
      requires Loose(links.rings, PList(c)) && Loose(links.rings, PSib(c))
      modifies this`processCount, links, pcbs`rows
      ensures Wired()
      ensures View() == Adopted(old(View()), parent, c)
    {
      pcbs.InsertProcQ(Head(Ready), c);
      pcbs.InsertChild(parent, c);
      processCount := processCount + 1;
    }

    /** wait4Clock. */
    method WaitForClock(p: PcbId)
      requires Wired() && ListsOk(View()) && View().AwaitsMessage(p)
      modifies this`softBlockCount, links
      ensures Wired() && View() == WaitClock(old(View()), p)
    {
      NotQueued(View(), p);
      pcbs.InsertProcQ(Head(PseudoClock), p);
      softBlockCount := softBlockCount + 1;
    }

    /** insertDeviceQ. */
    method InsertDeviceQ(line: int, p: PcbId)
      requires Wired() && ListsOk(View()) && Loose(links.rings, PList(p)) && 3 <= line < 7
      modifies links
      ensures Wired() && View() == old(View()).Put(Head(Devices.LineQueue(line)), PList(p))
    {
      if line == 3 {
        pcbs.InsertProcQ(Head(Disk), p);
      } else if line == 4 {
        pcbs.InsertProcQ(Head(Flash), p);
      } else if line == 5 {
        pcbs.InsertProcQ(Head(Ethernet), p);
      } else if line == 6 {
        pcbs.InsertProcQ(Head(Printer), p);
      }
    }

    /** What one match of the address search does. */
    method BlockOn(r: Devices.Register, p: PcbId)
      requires Wired() && ListsOk(View()) && View().Live(p) && !View().SoftBlocked(p) && Devices.IsDevice(r)
      modifies links, pcbs
      ensures Wired()
      ensures View() == old(View()).(pcbs := old(View()).pcbs[p := old(View()).pcbs[p].(dev := r.devNo)])
                          .Take(Head(Ready), PList(p)).Put(Head(r.queue), PList(p))
    {
      Unready(p, r.devNo);
      if r.queue == TermTransm {
        pcbs.InsertProcQ(Head(TermTransm), p);
      } else if r.queue == TermRecv {
        pcbs.InsertProcQ(Head(TermRecv), p);
      } else {
        InsertDeviceQ(Devices.QueueLine(r.queue), p);
      }
    }

    /** The process remembers the device and leaves the ready queue. */
    method Unready(p: PcbId, devNo: nat)
      requires Wired() && ListsOk(View()) && View().Live(p) && !View().SoftBlocked(p)
      modifies links, pcbs
      ensures Wired() && ListsOk(View()) && Loose(links.rings, PList(p))
      ensures View() == old(View()).(pcbs := old(View()).pcbs[p := old(View()).pcbs[p].(dev := devNo)])
                          .Take(Head(Ready), PList(p))
    {
      UnreadyLists(View(), p);
      pcbs.rows := pcbs.rows[p := pcbs.rows[p].(dev := devNo)];
      var found := pcbs.OutProcQ(Head(Ready), p);
    }

    /** doio: searches all command registers for the address; the process leaves the ready queue and joins
        the queue of the one register found, if there is one. */
    method DoIO(p: PcbId, command: int)
      requires Wired() && ListsOk(View()) && View().Live(p) && !View().SoftBlocked(p)
      modifies this`softBlockCount, links, pcbs
      ensures Wired() && View() == DoIo(old(View()), p, command)
    {
      softBlockCount := softBlockCount + 1;
      ghost var k := View();
      SearchDone(command);
      var line := 3;
      while line < 8
        invariant 3 <= line <= 8 && Wired()
        invariant View() == if Before(command, line, 0) then Joined(k, p, command) else k
      {
        var devNo := 0;
        while devNo < 8
          invariant 0 <= devNo <= 8 && Wired()
          invariant View() == if Before(command, line, devNo) then Joined(k, p, command) else k
        {
          var found := TryDevice(p, command, line, devNo);
          if found { break; }
          devNo := devNo + 1;
        }
        LineDone(command, line);
        line := line + 1;
      }
    }

    /** One turn of the search: a terminal has two command registers, every other device one. */
    method TryDevice(p: PcbId, command: int, line: int, devNo: nat) returns (found: bool)
      requires Wired() && 3 <= line < 8 && devNo < 8
      requires Before(command, line, devNo) || (ListsOk(View()) && View().Live(p) && !View().SoftBlocked(p))
      modifies links, pcbs
      ensures Wired() && View() == if found then Joined(old(View()), p, command) else old(View())
      ensures found ==> !Before(command, line, devNo) && Before(command, line + 1, 0)
      ensures !found ==> Before(command, line, devNo + 1) == Before(command, line, devNo)
    {
      if line == 7 {
        if Devices.TransmCommandAddr(devNo) == command {
          FoundHere(command, line, devNo, Devices.Register(TermTransm, devNo));
          BlockOn(Devices.Register(TermTransm, devNo), p);
          return true;
        } else if Devices.CommandAddr(7, devNo) == command {
          FoundHere(command, line, devNo, Devices.Register(TermRecv, devNo));
          BlockOn(Devices.Register(TermRecv, devNo), p);
          return true;
        }
      } else if Devices.CommandAddr(line, devNo) == command {
        FoundHere(command, line, devNo, Devices.Register(Devices.LineQueue(line), devNo));
        BlockOn(Devices.Register(Devices.LineQueue(line), devNo), p);
        return true;
      }
      NotHere(command, line, devNo);
      return false;
    }

    /** The second queue is tried if the first one does not have p. */
    method OutOfEither(a: Queue, b: Queue, p: PcbId) returns (hit: bool)
      requires Wired() && PcbFree in links.rings && Head(a) in links.rings && Head(b) in links.rings
      modifies links
      ensures Wired() && (View(), hit) == OutFirst(old(View()), [a, b], p) && SibsKept(old(links.stale), links.stale)
    {
      OutFirstOfTwo(View(), a, b, p);
      hit := pcbs.OutProcQ(Head(a), p);
      if !hit { hit := pcbs.OutProcQ(Head(b), p); }
    }

    /** isPcbBlockedOnDevice: takes the process off the first of the tried queues that has it. */
    method IsPcbBlockedOnDevice(p: PcbId) returns (hit: bool)
      requires Wired() && PcbFree in links.rings && (forall q: Queue :: Head(q) in links.rings)
               && 0 <= pcbs.rows[p].dev < 8
      modifies links
      ensures Wired() && View() == OutFirst(old(View()), Tried(old(pcbs.rows)[p].dev), p).0
      ensures hit == OutFirst(old(View()), Tried(old(pcbs.rows)[p].dev), p).1
      ensures SibsKept(old(links.stale), links.stale)
    {
      var dev := pcbs.rows[p].dev;
      if dev == 0xFFFF_FFFF { return false; }
      if dev == 7 {
        OutFirstOfThree(View(), TermRecv, TermTransm, PseudoClock, p);
        hit := pcbs.OutProcQ(Head(TermRecv), p);
        if !hit { hit := pcbs.OutProcQ(Head(TermTransm), p); }
        if !hit { hit := pcbs.OutProcQ(Head(PseudoClock), p); }
      } else if dev == 3 {
        hit := OutOfEither(Disk, PseudoClock, p);
      } else if dev == 4 {
        hit := OutOfEither(Flash, PseudoClock, p);
      } else if dev == 5 {
        hit := OutOfEither(Ethernet, PseudoClock, p);
      } else if dev == 6 {
        hit := OutOfEither(Printer, PseudoClock, p);
      } else {
        hit := pcbs.OutProcQ(Head(PseudoClock), p);
      }
    }

    method LeaveQueue(p: PcbId)
      requires Wired() && PcbFree in links.rings && (forall q: Queue :: Head(q) in links.rings)
               && 0 <= pcbs.rows[p].dev < 8
      modifies this`softBlockCount, links
      ensures Wired() && View() == Unblock(old(View()), p)
      ensures SibsKept(old(links.stale), links.stale)
    {
      var hit := IsPcbBlockedOnDevice(p);
      if hit { softBlockCount := softBlockCount - 1; }
    }

    /** outChild and freePcb. */
    method Unlist(p: PcbId)
      requires Wired() && PcbFree in links.rings && Loose(links.rings, PList(p)) && StillLinked(p)
      modifies this`processCount, links, pcbs`rows
      ensures Wired() && View() == Bury(Orphan(old(View()), p), p)
      ensures old(AlreadyUnlinked(p)) ==> SibsKept(old(links.stale), links.stale)
    {
      ghost var k := View();
      OrphanShape(k, p);
      pcbs.OutChild(p);
      OrphanRows(k, p);
      assert links.rings == Orphan(k, p).rings;
      FreeAndCount(p);
    }

    /** freePcb and one process less. */
    method FreeAndCount(p: PcbId)
      requires Wired() && PcbFree in links.rings && Loose(links.rings, PList(p))
      modifies this`processCount, links
      ensures Wired() && View() == Bury(old(View()), p) && SibsKept(old(links.stale), links.stale)
    {
      pcbs.FreePcb(p);
      processCount := processCount - 1;
    }

    /** The second half of terminateProcess, when no children are left. */
    method Reap(p: PcbId)
      requires Wired() && Doomed(View(), [p]) && 0 <= pcbs.rows[p].dev < 8 && StillLinked(p)
      modifies this`softBlockCount, this`processCount, links, pcbs`rows
      ensures Wired() && View() == KillOne(old(View()), p)
      ensures old(AlreadyUnlinked(p)) ==> SibsKept(old(links.stale), links.stale)
    {
      ghost var s0 := links.stale;
      ghost var again := AlreadyUnlinked(p);
      UnblockGone(View(), p);
      LeaveQueue(p);
      ghost var s1 := links.stale;
      assert again ==> AlreadyUnlinked(p);
      Unlist(p);
      if again { SibsKeptTwice(s0, s1, links.stale); }
    }

    /** terminateProcess on the subtree t of p: children are unlinked first, killed, and unlinked again by
        their own outChild; sibling nodes that were stale outside the subtree are not disturbed. */
    method TerminateProcess(p: PcbId, ghost t: Tree)
      requires Wired() && t.root == p && Killing(View(), t) && StillLinked(p)
      modifies this`softBlockCount, this`processCount, links, pcbs`rows
      ensures Wired() && View() == KillTree(old(View()), t)
      ensures old(AlreadyUnlinked(p)) ==> OthersKept(old(links.stale), links.stale, PostOrder(t))
      decreases |PostOrder(t)|, 0
    {
      ghost var k0 := View();
      ghost var s0 := links.stale;
      ghost var rest := t.kids;
      KillingStarts(k0, t);
      var empty := pcbs.EmptyChild(p);
      while !empty
        invariant Wired() && Remaining(View(), p, rest) && StillLinked(p) && empty == (rest == [])
        invariant KillAll(View(), p, rest) == KillAll(k0, p, t.kids)
        invariant |Posts(rest)| < |PostOrder(t)| && forall x | x in Posts(rest) :: x in PostOrder(t)
        invariant pcbs.rows[p] == k0.pcbs[p] && OthersKept(s0, links.stale, PostOrder(t))
        decreases |rest|
      {
        ghost var s1 := links.stale;
        KillFirstChild(p, rest);
        OthersKeptMore(s0, s1, links.stale, Posts(rest) + [p], PostOrder(t));
        rest := rest[1..];
        empty := pcbs.EmptyChild(p);
      }
      KillingEnds(k0, t);
      ghost var s2 := links.stale;
      Reap(p);
      if old(AlreadyUnlinked(p)) { OthersKeptThenSibs(s0, s2, links.stale, PostOrder(t)); }
    }

    /** removeChild has taken p off its parent's list; outChild has not been called yet. */
    ghost predicate AlreadyUnlinked(p: PcbId)
      reads this, links, pcbs
    {
      && pcbs.rows[p].parent.Some? && PSib(p) in links.stale
      && links.stale[PSib(p)] == PChild(pcbs.rows[p].parent.value)
    }

    /** One round of the loop: terminateProcess(removeChild(p)). */
    method KillFirstChild(p: PcbId, ghost ts: seq<Tree>)
      requires Wired() && ts != [] && Remaining(View(), p, ts) && StillLinked(p) && ParentOutside(p, Posts(ts) + [p])
      modifies this`softBlockCount, this`processCount, links, pcbs`rows
      ensures Wired() && View() == KillTree(old(View()).Take(PChild(p), PSib(ts[0].root)), ts[0])
      ensures Remaining(View(), p, ts[1..]) && StillLinked(p) && pcbs.rows[p] == old(pcbs.rows)[p]
      ensures OthersKept(old(links.stale), links.stale, Posts(ts) + [p])
      decreases |Posts(ts)|, 1
    {
      ghost var s0 := links.stale;
      RemainingRest(View(), p, ts);
      var child := TakeFirstChild(p, ts);
      ghost var s1 := links.stale;
      TerminateProcess(child, ts[0]);
      FirstStale(s0, s1, links.stale, p, ts);
    }

    method TakeFirstChild(p: PcbId, ghost ts: seq<Tree>) returns (child: PcbId)
      requires Wired() && ts != [] && Remaining(View(), p, ts)
      modifies links
      ensures Wired() && child == ts[0].root && View() == old(View()).Take(PChild(p), PSib(child))
      ensures Killing(View(), ts[0]) && AlreadyUnlinked(child) && StillLinked(child)
      ensures |PostOrder(ts[0])| <= |Posts(ts)| && PSib(child) !in old(links.stale)
      ensures links.stale == KeepStale(old(links.stale), PChild(p), PSib(child))[PSib(child) := PChild(p)]
    {
      RemainingFirst(View(), p, ts);
      var r := pcbs.RemoveChild(p);
      child := r.value;
    }

    ghost predicate ParentOutside(p: PcbId, ps: seq<PcbId>)
      reads pcbs
    {
      pcbs.rows[p].parent.Some? ==> pcbs.rows[p].parent.value !in ps
    }

    /** p's sibling node is on its parent's list, or was, and its old neighbours are still adjacent. */
    ghost predicate StillLinked(p: PcbId)
      reads this, links, pcbs
    {
      pcbs.rows[p].parent.Some? ==>
        var h := PChild(pcbs.rows[p].parent.value);
        && h in links.rings
        && (PSib(p) in links.rings[h] || (PSib(p) in links.stale && links.stale[PSib(p)] == h))
    }

    /** terminateProcess(p) for a live process: the subtree is the one the child lists describe. */
    method KillProcess(p: PcbId)
      requires Wired() && MayKill(View(), p)
      modifies this`softBlockCount, this`processCount, links, pcbs`rows
      ensures Wired() && View() == Kill(old(View()), p)
    {
      MayKillIsKilling(View(), p);
      TerminateProcess(p, Build(View(), p));
    }

    /** passUpOrDie for a process without a support structure. */
    method Die(me: PcbId) returns (v: Verdict)
      requires Wired() && MayKill(View(), me) && current == Some(me)
      modifies this`current, this`softBlockCount, this`processCount, links, pcbs`rows
      ensures Wired() && View() == Schedule(Kill(old(View()), me)) && v == Decision(Kill(old(View()), me))
    {
      KilledRunner(View(), me);
      KillProcess(me);
      v := Scheduler();
    }

    /** SSIRequest: one service for the client the SSI has heard. */
    method SSIRequest(client: PcbId, r: Request) returns (res: int)
      requires Wired() && ListsOk(View()) && TreeOk(View()) && SsiOk(View()) && Allows(View(), r, client)
      modifies this`softBlockCount, this`processCount, links, pcbs
      ensures Wired() && View() == Served(old(View()), r, client) && res == Result(old(View()), r, client)
      ensures Inv(old(View())) ==> Does(old(View()), View(), r, client, res)
    {
      if Inv(View()) { ServiceDoes(View(), r, client); }
      match r {
        case CreateProcess =>
          res := CreateForClient(client);
        case TermProcess(target) =>
          KillForClient(client, r, if target == None then client else target.value);
          res := 0;
        case DoIO(command) =>
          IoForClient(client, command);
          res := NOPROC;
        case ClockWait =>
          ClockForClient(client);
          res := NOPROC;
        case Value(value) =>
          res := value;
        case Unknown =>
          KillForClient(client, r, client);
          res := MSGNOGOOD;
      }
    }

    method CreateForClient(client: PcbId) returns (res: int)
      requires Wired() && ListsOk(View()) && TreeOk(View()) && Allows(View(), Request.CreateProcess, client)
      modifies this`processCount, links, pcbs
      ensures Wired() && View() == Served(old(View()), Request.CreateProcess, client)
      ensures res == Result(old(View()), Request.CreateProcess, client)
    {
      var child := CreateProcess(client);
      res := if child == None then NOPROC else child.value;
    }

    /** The two services whose answer comes from an interrupt. */
    method IoForClient(client: PcbId, command: int)
      requires Wired() && ListsOk(View()) && Allows(View(), Request.DoIO(command), client)
      modifies this`softBlockCount, links, pcbs
      ensures Wired() && View() == Served(old(View()), Request.DoIO(command), client)
    {
      DoIO(client, command);
    }

    method ClockForClient(client: PcbId)
      requires Wired() && ListsOk(View()) && Allows(View(), ClockWait, client)
      modifies this`softBlockCount, links
      ensures Wired() && View() == Served(old(View()), ClockWait, client)
    {
      WaitForClock(client);
    }

    /** A killing service; the SSI itself goes on. */
    method KillForClient(client: PcbId, ghost r: Request, victim: PcbId)
      requires Wired() && SsiOk(View()) && Allows(View(), r, client) && Effect(r, client) == Some(Runs.Kills(victim))
      modifies this`softBlockCount, this`processCount, links, pcbs`rows
      ensures Wired() && View() == Served(old(View()), r, client)
    {
      Runs.KillerRuns(View(), victim);
      KillProcess(victim);
    }

    // ---------- interrupts.c ----------

    /** exitInterruptHandler. */
    method ExitInterruptHandler()
      requires Wired() && ListsOk(View())
      modifies this`current, links
      ensures Wired() && View() == ExitInterrupt(old(View()))
    {
      if current == None {
        var v := Scheduler();
      }
    }

    /** The answer to a blocked request: a message from the SSI, and the process is ready. */
    method Answer(p: PcbId, status: int)
      requires Wired() && ListsOk(View()) && links.rings[MsgFree] != [] && View().Live(p)
      requires Loose(links.rings, PList(p)) && current != Some(p)
      modifies this`softBlockCount, links, msgs
      ensures Wired() && View() == Reply(old(View()), p, status)
    {
      FilledLists(View(), Msg(Some(ssi), status));
      var m := FillMessage(Msg(Some(ssi), status));
      HandOver(p, m);
      softBlockCount := softBlockCount - 1;
    }

    method HandOver(p: PcbId, m: MsgId)
      requires Wired() && Inbox(p) in links.rings && Head(Ready) in links.rings && MsgFree in links.rings
      requires Loose(links.rings, MList(m)) && Loose(links.rings, PList(p)) && PcbFree in links.rings
      modifies links
      ensures Wired() && View() == old(View()).Put(Inbox(p), MList(m)).Put(Head(Ready), PList(p))
    {
      msgs.InsertMessage(Inbox(p), m);
      pcbs.InsertProcQ(Head(Ready), p);
    }

    /** allocMsg on a pool that has a message, and the two stores after it. */
    method FillMessage(msg: Msg) returns (m: MsgId)
      requires Wired() && ListsOk(View()) && links.rings[MsgFree] != []
      modifies links, msgs
      ensures Wired() && View() == Filled(old(View()), msg).0 && MList(m) == Filled(old(View()), msg).1
    {
      FilledLists(View(), msg);
      var r := msgs.AllocMsg();
      m := r.value;
      msgs.rows := msgs.rows[m := msg];
    }

    /** intervalTimerHandler: every process waiting for the clock is answered, in queue order. */
    method IntervalTimerHandler()
      requires Wired() && Inv(View()) && MayTick(View())
      modifies this`current, this`softBlockCount, links, msgs
      ensures Wired() && View() == Tick(old(View()))
    {
      ghost var k0, k := View(), View();
      var woken := NextSleeper();
      while woken.Some?
        invariant Wired() && Ticking(k, k0) && Sleeper(k, View(), woken) && ListsOk(k)
        decreases |k.Q(Head(PseudoClock))|
      {
        WakeSleeper(woken.value, k, k0);
        k := View();
        woken := NextSleeper();
      }
      ExitInterruptHandler();
    }

    /** The body of the timer's loop; k is the state before p was taken off the queue. */
    method WakeSleeper(p: PcbId, ghost k: K, ghost k0: K)
      requires Wired() && Ticking(k, k0) && Sleeper(k, View(), Some(p))
      modifies this`softBlockCount, links, msgs
      ensures Wired() && Ticking(View(), k0) && ListsOk(View())
      ensures |View().Q(Head(PseudoClock))| < |k.Q(Head(PseudoClock))|
    {
      TickRound(k, k0, p);
      AnswerReady(k, View(), p);
      Answer(p, 0);
    }

    /** removeProcQ on the pseudo-clock queue. */
    method NextSleeper() returns (r: Option<PcbId>)
      requires Wired() && ListsOk(View())
      modifies links
      ensures Wired() && Sleeper(old(View()), View(), r)
    {
      FirstWoken(View());
      r := pcbs.RemoveProcQ(Head(PseudoClock));
    }

    /** unlockPcbDevNo on one queue. */
    method UnlockFrom(q: Queue, devNo: int) returns (r: Option<PcbId>)
      requires Wired() && ListsOk(View())
      modifies links
      ensures Wired() && Unlocked(old(View()), View(), q, devNo, r)
    {
      UnlockedIsQueued(View(), q, devNo);
      r := pcbs.UnlockPcbDevNo(devNo, Head(q));
    }

    /** deviceHandler: the first process blocked on the interrupting device is answered with its status. */
    method DeviceHandler(line: int, bitmap: bv32, recvStatus: nat, transmStatus: nat, status: nat)
      requires Wired() && ListsOk(View()) && 3 <= line <= 7 && Devices.GetDeviceNo(bitmap) >= 0
      requires Runs.Enabled(View(), Answers.Raised(line, bitmap, recvStatus, transmStatus, status))
      requires line == 7 ==> Devices.Succeeded(recvStatus) || Devices.Succeeded(transmStatus)
      modifies this`current, this`softBlockCount, links, msgs
      ensures Wired()
      ensures View() == Runs.Apply(old(View()), Answers.Raised(line, bitmap, recvStatus, transmStatus, status))
    {
      var devNo := Devices.GetDeviceNo(bitmap);
      var out, answer := UnlockWaiter(line, devNo, recvStatus, transmStatus, status);
      UnlockedThenDone(old(View()), View(), Devices.InterruptQueue(line, recvStatus), devNo, answer, out);
      if out.Some? { Answer(out.value, answer); }
      ExitInterruptHandler();
    }

    /** The branches of deviceHandler: the process to answer and the status it gets. */
    method UnlockWaiter(line: int, devNo: int, recvStatus: nat, transmStatus: nat, status: nat)
      returns (out: Option<PcbId>, answer: int)
      requires Wired() && ListsOk(View()) && 3 <= line <= 7
      requires line == 7 ==> Devices.Succeeded(recvStatus) || Devices.Succeeded(transmStatus)
      modifies links
      ensures Wired() && Unlocked(old(View()), View(), Devices.InterruptQueue(line, recvStatus), devNo, out)
      ensures answer == Devices.InterruptStatus(line, recvStatus, transmStatus, status)
    {
      answer := status;
      if line == 7 {
        if Devices.Succeeded(recvStatus) {
          out := UnlockFrom(TermRecv, devNo);
          answer := recvStatus;
        } else if Devices.Succeeded(transmStatus) {
          out := UnlockFrom(TermTransm, devNo);
          answer := transmStatus;
        }
      } else if line == 3 {
        out := UnlockFrom(Disk, devNo);
      } else if line == 4 {
        out := UnlockFrom(Flash, devNo);
      } else if line == 5 {
        out := UnlockFrom(Ethernet, devNo);
      } else {
        out := UnlockFrom(Printer, devNo);
      }
    }

    /** PLTHandler: what the process has done since it slept last is forgotten, and it goes to the tail of the ready
        queue. */
    method PLTHandler(me: PcbId)
      requires Wired() && ListsOk(View()) && current == Some(me)
      modifies this`current, links, pcbs`rows
      ensures Wired() && View() == Preempt(old(View()), me)
    {
      pcbs.rows := pcbs.rows[me := pcbs.rows[me].(pending := pcbs.rows[me].saved)];
      PutLists(View().(current := None), Head(Ready), PList(me));
      pcbs.InsertProcQ(Head(Ready), me);
      var v := Scheduler();
    }
  }

  lemma MayKillIsKilling(k: K, p: PcbId)
    requires MayKill(k, p)
    ensures Killing(k, Build(k, p)) && Build(k, p).root == p
    ensures k.pcbs[p].parent.Some? ==> PSib(p) in k.Q(PChild(k.pcbs[p].parent.value))
  {
    KillDoomed(k, p);
  }

  /** After its own death the running process is on the free list only. */
  lemma KilledRunner(k: K, me: PcbId)
    requires MayKill(k, me) && k.current == Some(me)
    ensures ListsOk(Kill(k, me).(current := None))
  {
    KillGone(k, me);
    KilledLists(k, Kill(k, me), Progeny(k, me), k.pcbs[me].parent);
  }

  lemma UnlockedIsQueued(k: K, q: Queue, devNo: int)
    requires ListsOk(k)
    ensures var r := FirstOnDev(k.pcbs, k.Q(Head(q)), devNo);
            r.Some? ==>
              var k1 := k.Take(Head(q), PList(r.value));
              && PList(r.value) in k.Q(Head(q))
              && ListsOk(k1) && k1.Live(r.value) && Loose(k1.rings, PList(r.value)) && k1.current != Some(r.value)
  {
    forall x | x in k.Q(Head(q)) ensures x.PList? { assert Fits(Head(q), x); }
    FirstOnDevIn(k.pcbs, k.Q(Head(q)), devNo);
    var r := FirstOnDev(k.pcbs, k.Q(Head(q)), devNo);
    if r.Some? { TakenFromQueue(k, q, r.value); }
  }

  /** k1 is k without the first process r of queue q that is blocked on devNo; it is k if there is none. */
  ghost predicate Unlocked(k: K, k1: K, q: Queue, devNo: int, r: Option<PcbId>) {
    true == (
      && r == FirstOnDev(k.pcbs, k.Q(Head(q)), devNo)
      && k1 == (if r.Some? then k.Take(Head(q), PList(r.value)) else k)
      && ListsOk(k1)
      && (r.Some? ==> k1.Live(r.value) && Loose(k1.rings, PList(r.value)) && k1.current != r))
  }

  lemma UnlockedThenDone(k: K, k1: K, q: Queue, devNo: int, status: int, r: Option<PcbId>)
    requires Unlocked(k, k1, q, devNo, r) && MayAnswer(k, q, devNo) && ListsOk(k)
    ensures match r
            case None => DeviceDone(k, q, devNo, status) == ExitInterrupt(k1) && ListsOk(k1)
            case Some(p) =>
              && k1.Q(MsgFree) != [] && MsgFree in k1.rings && k1.Live(p) && Loose(k1.rings, PList(p))
                 && k1.current != r && ListsOk(k1)
              && DeviceDone(k, q, devNo, status) == ExitInterrupt(Reply(k1, p, status)) && ListsOk(Reply(k1, p, status))
  {
    if r.Some? { ReplyLists(k1, r.value, status); }
  }

  /** k1 is k without its first clock waiter p; it is k if there is none. */
  ghost predicate Sleeper(k: K, k1: K, p: Option<PcbId>) {
    var q := k.Q(Head(PseudoClock));
    true == (if p == None then q == [] && k1 == k
             else q != [] && q[0] == PList(p.value) && k1 == k.Take(Head(PseudoClock), PList(p.value)))
  }

  lemma FirstWoken(k: K)
    requires ListsOk(k)
    ensures var q := k.Q(Head(PseudoClock));
            q != [] ==> q[0] == PList(PcbOf(q[0])) && Without(q, q[0]) == q[1..]
  {
    var q := k.Q(Head(PseudoClock));
    if q != [] { assert q[0] in q && Fits(Head(PseudoClock), q[0]); }
  }

  /** Where the timer's loop stands: k0 was the state at the interrupt. */
  ghost predicate Ticking(k: K, k0: K) {
    true == (Inv(k) && MayTick(k) && MayTick(k0) && WakeAll(k) == WakeAll(k0))
  }

  lemma TickRound(k: K, k0: K, p: PcbId)
    requires Ticking(k, k0) && k.Q(Head(PseudoClock)) != [] && k.Q(Head(PseudoClock))[0] == PList(p)
    ensures MayWake(k, PseudoClock, p) && Ticking(Woken(k, PseudoClock, p, 0), k0)
    ensures ListsOk(k) && ListsOk(Woken(k, PseudoClock, p, 0))
    ensures |Woken(k, PseudoClock, p, 0).Q(Head(PseudoClock))| < |k.Q(Head(PseudoClock))|
  {
    assert PList(p) in k.Q(Head(PseudoClock));
    WokenKeeps(k, PseudoClock, p, 0);
    WakeAllStep(k, p);
  }

  /** The sleeper can be answered. */
  lemma AnswerReady(k: K, k1: K, p: PcbId)
    requires ListsOk(k) && MayWake(k, PseudoClock, p) && k1 == k.Take(Head(PseudoClock), PList(p))
    ensures ListsOk(k1) && k1.Live(p) && Loose(k1.rings, PList(p)) && k1.current != Some(p) && k1.Q(MsgFree) != []
    ensures Reply(k1, p, 0) == Woken(k, PseudoClock, p, 0)
  {
    TakenFromQueue(k, PseudoClock, p);
  }

  lemma TakenFromQueue(k: K, q: Queue, p: PcbId)
    requires ListsOk(k) && PList(p) in k.Q(Head(q))
    ensures var k1 := k.Take(Head(q), PList(p));
            ListsOk(k1) && k1.Live(p) && Loose(k1.rings, PList(p)) && k1.current != Some(p)
  {
    BlockedIsAlive(k, q, p);
    TakeLists(k, Head(q), PList(p));
  }

  /** Nodes stale between children of processes outside ps are still stale there. */
  ghost predicate OthersKept(s: map<Addr, Addr>, t: map<Addr, Addr>, ps: seq<PcbId>) {
    forall x | x in s && s[x].PChild? && s[x].pcb !in ps :: x in t && t[x] == s[x]
  }

  lemma OthersKeptThenSibs(s: map<Addr, Addr>, t: map<Addr, Addr>, u: map<Addr, Addr>, ps: seq<PcbId>)
    requires OthersKept(s, t, ps) && SibsKept(t, u)
    ensures OthersKept(s, u, ps)
  {
  }

  lemma OthersKeptMore(s: map<Addr, Addr>, t: map<Addr, Addr>, u: map<Addr, Addr>, ps: seq<PcbId>, all: seq<PcbId>)
    requires OthersKept(s, t, all) && OthersKept(t, u, ps) && forall p | p in ps :: p in all
    ensures OthersKept(s, u, all)
  {
  }

  /** removeChild makes its child stale and the recursion undoes nothing outside it. */
  lemma FirstStale(s0: map<Addr, Addr>, s1: map<Addr, Addr>, s2: map<Addr, Addr>, p: PcbId, ts: seq<Tree>)
    requires ts != [] && PSib(ts[0].root) !in s0
    requires s1 == KeepStale(s0, PChild(p), PSib(ts[0].root))[PSib(ts[0].root) := PChild(p)]
    requires OthersKept(s1, s2, PostOrder(ts[0]))
    ensures OthersKept(s0, s2, Posts(ts) + [p])
  {
  }

  /** The register of that address comes before (line, devNo) in the order of the search. */
  predicate Before(command: int, line: int, devNo: int) {
    match Devices.Decode(command)
    case None => false
    case Some(r) => Devices.QueueLine(r.queue) < line || (Devices.QueueLine(r.queue) == line && r.devNo < devNo)
  }

  function Joined(k: K, p: PcbId, command: int): K {
    match Devices.Decode(command)
    case None => k
    case Some(r) =>
      k.(pcbs := k.pcbs[p := k.pcbs[p].(dev := r.devNo)]).Take(Head(Ready), PList(p)).Put(Head(r.queue), PList(p))
  }

  lemma FoundHere(command: int, line: int, devNo: nat, r: Devices.Register)
    requires 3 <= line < 8 && devNo < 8 && Devices.IsDevice(r) && Devices.Command(r) == command
    requires Devices.QueueLine(r.queue) == line && r.devNo == devNo
    ensures Devices.Decode(command) == Some(r) && !Before(command, line, devNo) && Before(command, line + 1, 0)
  {
    Devices.DecodeInvertsCommand(command, r);
  }

  lemma NotHere(command: int, line: int, devNo: nat)
    requires 3 <= line < 8 && devNo < 8
    requires Devices.CommandAddr(line, devNo) != command && (line == 7 ==> Devices.TransmCommandAddr(devNo) != command)
    ensures Before(command, line, devNo + 1) == Before(command, line, devNo)
  {
    if Devices.Decode(command).Some? {
      Devices.DecodeInvertsCommand(command, Devices.Decode(command).value);
    }
  }

  lemma LineDone(command: int, line: int)
    ensures Before(command, line, 8) == Before(command, line + 1, 0)
  {
    if Devices.Decode(command).Some? {
      Devices.DecodeInvertsCommand(command, Devices.Decode(command).value);
    }
  }

  lemma SearchDone(command: int)
    ensures Before(command, 8, 0) <==> Devices.Decode(command).Some?
    ensures !Before(command, 3, 0)
  {
    if Devices.Decode(command).Some? {
      Devices.DecodeInvertsCommand(command, Devices.Decode(command).value);
    }
  }
}
