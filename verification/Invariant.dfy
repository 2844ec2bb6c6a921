/** What holds between any two steps of the nucleus. */
module Invariant {
  import opened Layout
  import opened Rings
  import opened PcbPool
  import opened MsgPool
  import opened Kernel
  import Devices
  import Listx

  /** The lists have their shape and those that live processes need exist. */
  ghost predicate ListsOk(k: K) {
    true == (
      && Shape(k.rings)
      && PcbFree in k.rings && MsgFree in k.rings && (forall q: Queue :: Head(q) in k.rings)
      && (forall p: PcbId | k.Live(p) :: PChild(p) in k.rings && Inbox(p) in k.rings)
      && (k.current.Some? ==> Loose(k.rings, PList(k.current.value))))
  }

  /** The two counters agree with the lists. */
  ghost predicate CountsOk(k: K) {
    && k.processCount == MAXPROC - |k.Q(PcbFree)|
    && k.softBlock == k.BlockedTotal()
  }

  /** Pids grow, so a pid names one PCB among all that were ever allocated. */
  ghost predicate PidsOk(k: K) {
    && (forall p: PcbId :: 0 <= k.pcbs[p].pid < k.nextPid && 0 <= k.pcbs[p].dev < 8)
    && (forall p: PcbId | k.Live(p) :: k.pcbs[p].pid > 0)
    && (forall p: PcbId, q: PcbId | k.pcbs[p].pid == k.pcbs[q].pid && k.pcbs[p].pid > 0 :: p == q)
  }

  /** Child lists and parent fields describe the same forest of live processes, older to younger. */
  ghost predicate TreeOk(k: K) {
    && (forall p: PcbId, c: PcbId | PSib(c) in k.Q(PChild(p)) ::
          k.Live(p) && k.Live(c) && k.pcbs[c].parent == Some(p) && k.pcbs[p].pid < k.pcbs[c].pid)
    && (forall c: PcbId | k.pcbs[c].parent.Some? :: PSib(c) in k.Q(PChild(k.pcbs[c].parent.value)))
  }

  /** Every queued message has a sender that was allocated once. */
  ghost predicate MessagesOk(k: K) {
    forall d: PcbId, x | x in k.Q(Inbox(d)) ::
      k.msgs[MsgOf(x)].sender.Some? && k.pcbs[k.msgs[MsgOf(x)].sender.value].pid > 0
  }

  /** No message in the inbox of p is one that f accepts. */
  ghost predicate NothingFor(k: K, p: PcbId, f: Filter) {
    forall x | x in k.Q(Inbox(p)) :: !Matches(k.pcbs, k.msgs, x, f)
  }

  /** No lost wake-up: whoever waits for a message does not have it. */
  ghost predicate WaitsOk(k: K) {
    forall p: PcbId | k.AwaitsMessage(p) ::
      k.pcbs[p].pending.Some? && NothingFor(k, p, k.pcbs[p].pending.value)
  }

  ghost predicate SsiOk(k: K) {
    k.Live(k.ssi) && k.pcbs[k.ssi].parent == None
  }

  ghost predicate Inv(k: K) {
    ListsOk(k) && CountsOk(k) && PidsOk(k) && TreeOk(k) && MessagesOk(k) && WaitsOk(k) && SsiOk(k)
  }

  // ---------- list shape under the elementary moves ----------

  lemma PutShape(rings: Heads, h: Addr, x: Addr)
    requires Shape(rings) && h in rings && Fits(h, x) && Loose(rings, x)
    ensures Shape(rings[h := rings[h] + [x]])
  {
    Listx.InsertShape(rings, h, |rings[h]|, x);
    assert Insert(rings[h], |rings[h]|, x) == rings[h] + [x];
  }

  lemma PopShape(rings: Heads, h: Addr)
    requires Shape(rings) && h in rings && rings[h] != []
    ensures var rs := rings[h := rings[h][1..]];
            Shape(rs) && Loose(rs, rings[h][0]) && Fits(h, rings[h][0])
    ensures Without(rings[h], rings[h][0]) == rings[h][1..]
  {
    assert rings[h][0] in rings[h];
    Listx.DeleteShape(rings, h, rings[h][0]);
  }

  /** A pid test among allocated PCBs is an identity test. */
  lemma MatchIsIdentity(k: K, d: PcbId, x: Addr, f: PcbId)
    requires PidsOk(k) && MessagesOk(k) && x in k.Q(Inbox(d))
    ensures Matches(k.pcbs, k.msgs, x, From(f)) <==> k.msgs[MsgOf(x)].sender == Some(f)
  {
  }

  /** k2 has the same processes in the same places of the tree. */
  ghost predicate SameProcesses(k: K, k2: K) {
    && k2.Q(PcbFree) == k.Q(PcbFree) && k2.nextPid == k.nextPid && k2.ssi == k.ssi
    && (forall p: PcbId :: k2.Q(PChild(p)) == k.Q(PChild(p)))
    && (forall p: PcbId ::
          k2.pcbs[p].parent == k.pcbs[p].parent && k2.pcbs[p].pid == k.pcbs[p].pid && 0 <= k2.pcbs[p].dev < 8)
  }

  ghost predicate SameMail(k: K, k2: K) {
    k2.msgs == k.msgs && forall p: PcbId :: k2.Q(Inbox(p)) == k.Q(Inbox(p)) && k2.pcbs[p].pid == k.pcbs[p].pid
  }

  lemma ProcessesKept(k: K, k2: K)
    requires PidsOk(k) && TreeOk(k) && SsiOk(k) && SameProcesses(k, k2)
    ensures PidsOk(k2) && TreeOk(k2) && SsiOk(k2)
  {
    assert forall p: PcbId :: k2.Live(p) == k.Live(p);
  }

  lemma CountsKept(k: K, k2: K)
    requires CountsOk(k) && k2.processCount == k.processCount && k2.softBlock == k.softBlock
    requires |k2.Q(PcbFree)| == |k.Q(PcbFree)|
    requires forall q: Queue | q != Ready :: k2.Q(Head(q)) == k.Q(Head(q))
    ensures CountsOk(k2)
  {
    SameTotal(k, k2);
  }

  lemma SameTotal(k: K, k2: K)
    requires forall q: Queue | q != Ready :: k2.Q(Head(q)) == k.Q(Head(q))
    ensures k2.BlockedTotal() == k.BlockedTotal()
  {
  }

  /** Only queue q changed its length. */
  lemma TotalMoves(k: K, k2: K, q: Queue, d: int)
    requires q != Ready && |k2.Q(Head(q))| == |k.Q(Head(q))| + d
    requires forall r: Queue | r != Ready && r != q :: k2.Q(Head(r)) == k.Q(Head(r))
    ensures k2.BlockedTotal() == k.BlockedTotal() + d
  {
    match q { case Ready => case Disk => case Flash => case Ethernet => case Printer =>
              case TermTransm => case TermRecv => case PseudoClock => }
  }

  lemma MailKept(k: K, k2: K)
    requires MessagesOk(k) && SameMail(k, k2)
    ensures MessagesOk(k2)
  {
  }

  /** Who waits in k2 waited in k already, for the same message and with the same inbox. */
  lemma WaitsKept(k: K, k2: K)
    requires WaitsOk(k) && SameMail(k, k2)
    requires forall p: PcbId | k2.AwaitsMessage(p) :: k.AwaitsMessage(p) && k2.pcbs[p].pending == k.pcbs[p].pending
    ensures WaitsOk(k2)
  {
    forall p: PcbId | k2.AwaitsMessage(p) ensures NothingFor(k2, p, k2.pcbs[p].pending.value) {
      var f := k.pcbs[p].pending.value;
      assert NothingFor(k, p, f);
      forall x | x in k2.Q(Inbox(p)) ensures !Matches(k2.pcbs, k2.msgs, x, f) {
        assert !Matches(k.pcbs, k.msgs, x, f);
      }
    }
  }

  /** A step that moves processes between running, ready and blocked, and wakes no sleeper wrongly. */
  lemma MovedKeeps(k: K, k2: K)
    requires Inv(k) && ListsOk(k2) && CountsOk(k2) && SameProcesses(k, k2) && SameMail(k, k2)
    requires forall p: PcbId | k2.AwaitsMessage(p) :: k.AwaitsMessage(p) && k2.pcbs[p].pending == k.pcbs[p].pending
    ensures Inv(k2)
  {
    ProcessesKept(k, k2);
    MailKept(k, k2);
    WaitsKept(k, k2);
  }

  lemma ScheduleLists(k: K)
    requires ListsOk(k) && CountsOk(k) && k.current == None
    ensures ListsOk(Schedule(k)) && CountsOk(Schedule(k))
  {
    if k.Q(Head(Ready)) != [] {
      PopShape(k.rings, Head(Ready));
    }
  }

  lemma ScheduleWaits(k: K, p: PcbId)
    requires ListsOk(k) && k.current == None && Schedule(k).AwaitsMessage(p)
    ensures k.AwaitsMessage(p)
  {
    var q := k.Q(Head(Ready));
    var k2 := Schedule(k);
    assert PList(p) !in k2.Q(Head(Ready));
    if q != [] {
      assert q[0] in q && Fits(Head(Ready), q[0]);
      assert q == [q[0]] + q[1..];
    }
    forall r: Queue ensures PList(p) !in k.Q(Head(r)) {
      assert PList(p) !in k2.Q(Head(r));
    }
  }

  lemma ScheduleKeeps(k: K)
    requires Inv(k) && k.current == None
    ensures Inv(Schedule(k))
  {
    ScheduleLists(k);
    forall p: PcbId | Schedule(k).AwaitsMessage(p) ensures k.AwaitsMessage(p) {
      ScheduleWaits(k, p);
    }
    MovedKeeps(k, Schedule(k));
  }

  lemma PutLists(k: K, h: Addr, x: Addr)
    requires ListsOk(k) && h in k.rings && Fits(h, x) && Loose(k.rings, x)
    requires h == PcbFree || k.current.None? || x != PList(k.current.value)
    requires h == PcbFree ==> k.current.None? || x != PList(k.current.value)
    ensures ListsOk(k.Put(h, x))
    ensures forall y | y != x && Loose(k.rings, y) :: Loose(k.Put(h, x).rings, y)
  {
    PutShape(k.rings, h, x);
  }

  lemma TakeLists(k: K, h: Addr, x: Addr)
    requires ListsOk(k) && h in k.rings && x in k.rings[h] && h != PcbFree
    ensures ListsOk(k.Take(h, x)) && Loose(k.Take(h, x).rings, x)
    ensures forall y | Loose(k.rings, y) :: Loose(k.Take(h, x).rings, y)
    ensures forall y :: y in k.Take(h, x).Q(h) <==> y in k.Q(h) && y != x
    ensures |k.Take(h, x).Q(h)| == |k.Q(h)| - 1
  {
    Listx.DeleteShape(k.rings, h, x);
    WithoutMembers(k.rings[h], x);
  }

  /** The running process goes to the tail of the ready queue. */
  lemma YieldKeeps(k: K, me: PcbId)
    requires Inv(k) && k.current == Some(me)
    ensures Inv(k.(current := None).Put(Head(Ready), PList(me)))
  {
    YieldLists(k, me);
    YieldWaits(k, me);
    MovedKeeps(k, k.(current := None).Put(Head(Ready), PList(me)));
  }

  lemma YieldLists(k: K, me: PcbId)
    requires ListsOk(k) && CountsOk(k) && PidsOk(k) && k.current == Some(me)
    ensures var k1 := k.(current := None).Put(Head(Ready), PList(me));
            ListsOk(k1) && CountsOk(k1) && SameProcesses(k, k1) && SameMail(k, k1)
  {
    PutLists(k.(current := None), Head(Ready), PList(me));
    YieldCounts(k, me);
    YieldRest(k, me);
  }

  lemma YieldCounts(k: K, me: PcbId)
    requires CountsOk(k)
    ensures CountsOk(k.(current := None).Put(Head(Ready), PList(me)))
  {
    CountsKept(k, k.(current := None).Put(Head(Ready), PList(me)));
  }

  lemma YieldRest(k: K, me: PcbId)
    requires PidsOk(k)
    ensures var k1 := k.(current := None).Put(Head(Ready), PList(me)); SameProcesses(k, k1) && SameMail(k, k1)
  {
  }

  lemma YieldWaits(k: K, me: PcbId)
    ensures var k1 := k.(current := None).Put(Head(Ready), PList(me));
            forall p: PcbId | k1.AwaitsMessage(p) && k.current == Some(me) :: k.AwaitsMessage(p)
  {
    var k1 := k.(current := None).Put(Head(Ready), PList(me));
    forall p: PcbId | k1.AwaitsMessage(p) && k.current == Some(me) ensures k.AwaitsMessage(p) {
      assert PList(p) !in k1.Q(Head(Ready));
      forall r: Queue ensures PList(p) !in k.Q(Head(r)) {
        assert PList(p) !in k1.Q(Head(r));
      }
    }
  }

  lemma PreemptKeeps(k: K, me: PcbId)
    requires Inv(k) && k.current == Some(me)
    ensures Inv(Preempt(k, me))
  {
    RestoredKeeps(k, me);
    var k1 := Restored(k, me);
    YieldKeeps(k1, me);
    ScheduleKeeps(k1.(current := None).Put(Head(Ready), PList(me)));
  }

  /** The running process is no sleeper. */
  lemma RestoredKeeps(k: K, me: PcbId)
    requires Inv(k) && k.current == Some(me)
    ensures Inv(Restored(k, me))
  {
    RestoredFrame(k, me);
    MovedKeeps(k, Restored(k, me));
  }

  lemma RestoredFrame(k: K, me: PcbId)
    requires ListsOk(k) && CountsOk(k) && PidsOk(k) && k.current == Some(me)
    ensures var k2 := Restored(k, me);
            && ListsOk(k2) && CountsOk(k2) && SameProcesses(k, k2) && SameMail(k, k2)
            && forall p: PcbId | k2.AwaitsMessage(p) :: k.AwaitsMessage(p) && k2.pcbs[p].pending == k.pcbs[p].pending
  {
    CountsKept(k, Restored(k, me));
  }

  // ---------- messages ----------

  /** Taking the first message of the pool. */
  lemma FilledLists(k: K, m: Msg)
    requires ListsOk(k) && k.Q(MsgFree) != []
    ensures var (k1, x) := Filled(k, m);
            ListsOk(k1) && Loose(k1.rings, x) && x.MList? && forall y | Loose(k.rings, y) :: Loose(k1.rings, y)
  {
    PopShape(k.rings, MsgFree);
    Listx.DeleteShape(k.rings, MsgFree, k.Q(MsgFree)[0]);
  }

  /** Writing a pool message changes no inbox: the messages there are others. */
  lemma FilledMail(k: K, m: Msg)
    requires ListsOk(k) && k.Q(MsgFree) != []
    ensures var (k1, x) := Filled(k, m);
            && (forall d: PcbId :: k1.Q(Inbox(d)) == k.Q(Inbox(d)))
            && (forall d: PcbId, y | y in k.Q(Inbox(d)) :: k1.msgs[MsgOf(y)] == k.msgs[MsgOf(y)])
  {
    var x := k.Q(MsgFree)[0];
    assert x in k.rings[MsgFree];
    forall d: PcbId, y | y in k.Q(Inbox(d)) ensures MsgOf(y) != MsgOf(x) {
      assert Fits(Inbox(d), y) && Fits(MsgFree, x);
    }
  }

  ghost predicate MaySend(k: K, me: PcbId, dest: PcbId) {
    && k.current == Some(me) && k.pcbs[me].pending == None && !k.SoftBlocked(dest)
  }

  /** One message x from s is appended to the inbox of d; d does not wait any more. */
  lemma DeliveredOk(k: K, k2: K, d: PcbId, x: Addr, m: Msg)
    requires MessagesOk(k) && WaitsOk(k)
    requires m.sender.Some? && k.pcbs[m.sender.value].pid > 0
    requires forall e: PcbId :: k2.Q(Inbox(e)) == if e == d then k.Q(Inbox(e)) + [x] else k.Q(Inbox(e))
    requires k2.msgs[MsgOf(x)] == m
    requires forall e: PcbId, y | y in k.Q(Inbox(e)) :: k2.msgs[MsgOf(y)] == k.msgs[MsgOf(y)]
    requires forall e: PcbId :: k2.pcbs[e].pid == k.pcbs[e].pid
    requires forall e: PcbId | k2.AwaitsMessage(e) ::
               e != d && k.AwaitsMessage(e) && k2.pcbs[e].pending == k.pcbs[e].pending
    ensures MessagesOk(k2) && WaitsOk(k2)
  {
    forall e: PcbId | k2.AwaitsMessage(e) ensures NothingFor(k2, e, k2.pcbs[e].pending.value) {
      var f := k.pcbs[e].pending.value;
      assert NothingFor(k, e, f);
      forall y | y in k2.Q(Inbox(e)) ensures !Matches(k2.pcbs, k2.msgs, y, f) {
        assert !Matches(k.pcbs, k.msgs, y, f);
      }
    }
  }

  lemma FilledCounts(k: K, m: Msg)
    requires CountsOk(k) && k.Q(MsgFree) != []
    ensures CountsOk(Filled(k, m).0)
  {
  }

  lemma FilledProcesses(k: K, m: Msg)
    requires PidsOk(k) && TreeOk(k) && SsiOk(k) && k.Q(MsgFree) != []
    ensures var k1 := Filled(k, m).0; PidsOk(k1) && TreeOk(k1) && SsiOk(k1)
  {
    ProcessesKept(k, Filled(k, m).0);
  }

  lemma FilledMailOk(k: K, m: Msg)
    requires ListsOk(k) && MessagesOk(k) && WaitsOk(k) && k.Q(MsgFree) != []
    ensures var k1 := Filled(k, m).0; MessagesOk(k1) && WaitsOk(k1)
  {
    FilledMail(k, m);
    FilledWaits(k, Filled(k, m).0);
  }

  /** A message taken from the pool and given to nobody: the rest of the nucleus is as before. */
  lemma FilledKeeps(k: K, m: Msg)
    requires Inv(k) && k.Q(MsgFree) != []
    ensures Inv(Filled(k, m).0)
  {
    FilledLists(k, m);
    FilledCounts(k, m);
    FilledProcesses(k, m);
    FilledMailOk(k, m);
  }

  /** Inboxes with the same messages in them, for a state whose waiting processes waited before. */
  lemma FilledWaits(k: K, k1: K)
    requires MessagesOk(k) && WaitsOk(k) && k1.pcbs == k.pcbs && k1.current == k.current
    requires forall d: PcbId :: k1.Q(Inbox(d)) == k.Q(Inbox(d)) && k1.Live(d) == k.Live(d)
    requires forall q: Queue :: k1.Q(Head(q)) == k.Q(Head(q))
    requires forall d: PcbId, y | y in k.Q(Inbox(d)) :: k1.msgs[MsgOf(y)] == k.msgs[MsgOf(y)]
    ensures MessagesOk(k1) && WaitsOk(k1)
  {
    forall e: PcbId | k1.AwaitsMessage(e) ensures NothingFor(k1, e, k1.pcbs[e].pending.value) {
      assert k.AwaitsMessage(e);
      assert NothingFor(k, e, k.pcbs[e].pending.value);
      forall y | y in k1.Q(Inbox(e)) ensures !Matches(k1.pcbs, k1.msgs, y, k1.pcbs[e].pending.value) {
        assert !Matches(k.pcbs, k.msgs, y, k1.pcbs[e].pending.value);
      }
    }
  }

  lemma SendCounts(k: K, me: PcbId, dest: PcbId, payload: int)
    requires CountsOk(k)
    ensures CountsOk(Send(k, me, dest, payload).0)
  {
    SendFrame(k, me, dest, payload);
    CountsKept(k, Send(k, me, dest, payload).0);
  }

  lemma SendFrame(k: K, me: PcbId, dest: PcbId, payload: int)
    ensures var k2 := Send(k, me, dest, payload).0;
            && k2.processCount == k.processCount && k2.softBlock == k.softBlock && k2.Q(PcbFree) == k.Q(PcbFree)
            && forall q: Queue | q != Ready :: k2.Q(Head(q)) == k.Q(Head(q))
  {
  }

  /** The message and, if it sleeps, the destination move to new lists. */
  lemma SendLists(k: K, me: PcbId, dest: PcbId, payload: int)
    requires ListsOk(k) && k.Q(MsgFree) != [] && k.Live(dest)
    requires k.current == Some(dest) || PList(dest) in k.Q(Head(Ready)) || Loose(k.rings, PList(dest))
    ensures ListsOk(Send(k, me, dest, payload).0)
  {
    var (k1, x) := Filled(k, Msg(Some(me), payload));
    FilledLists(k, Msg(Some(me), payload));
    if k1.current != Some(dest) && PList(dest) !in k1.Q(Head(Ready)) {
      PutLists(k1, Head(Ready), PList(dest));
      PutLists(k1.Put(Head(Ready), PList(dest)), Inbox(dest), x);
    } else {
      PutLists(k1, Inbox(dest), x);
    }
  }

  lemma SendProcesses(k: K, me: PcbId, dest: PcbId, payload: int)
    requires PidsOk(k) && TreeOk(k) && SsiOk(k)
    ensures var k2 := Send(k, me, dest, payload).0; PidsOk(k2) && TreeOk(k2) && SsiOk(k2)
  {
    ProcessesKept(k, Send(k, me, dest, payload).0);
  }

  /** Afterwards the destination does not sleep, and nobody else fell asleep. */
  lemma SendWaits(k: K, me: PcbId, dest: PcbId, payload: int, p: PcbId)
    requires k.Q(MsgFree) != [] && k.Live(dest)
    requires Send(k, me, dest, payload).0.AwaitsMessage(p)
    ensures p != dest && k.AwaitsMessage(p)
  {
    var k2 := Send(k, me, dest, payload).0;
    assert PList(p) !in k2.Q(Head(Ready));
    forall r: Queue ensures PList(p) !in k.Q(Head(r)) {
      assert PList(p) !in k2.Q(Head(r));
    }
  }

  lemma SendMail(k: K, me: PcbId, dest: PcbId, payload: int)
    requires ListsOk(k) && MessagesOk(k) && WaitsOk(k) && k.Q(MsgFree) != [] && k.Live(dest)
    requires k.pcbs[me].pid > 0
    ensures var k2 := Send(k, me, dest, payload).0; MessagesOk(k2) && WaitsOk(k2)
  {
    var m := Msg(Some(me), payload);
    var k2 := Send(k, me, dest, payload).0;
    FilledMail(k, m);
    forall p: PcbId | k2.AwaitsMessage(p) ensures p != dest && k.AwaitsMessage(p) {
      SendWaits(k, me, dest, payload, p);
    }
    DeliveredOk(k, k2, dest, k.Q(MsgFree)[0], m);
  }

  lemma RunnerHasPid(k: K, me: PcbId)
    requires ListsOk(k) && PidsOk(k) && k.current == Some(me)
    ensures k.Live(me) && k.pcbs[me].pid > 0
  {
  }

  lemma SendKeeps(k: K, me: PcbId, dest: PcbId, payload: int)
    requires Inv(k) && MaySend(k, me, dest)
    ensures Inv(Send(k, me, dest, payload).0)
  {
    if k.Q(MsgFree) == [] {
    } else if !k.Live(dest) {
      SendToDeadKeeps(k, me, dest, payload);
    } else {
      SendToLiveKeeps(k, me, dest, payload);
    }
  }

  /** The message is lost, and nothing else happens. */
  lemma SendToDeadKeeps(k: K, me: PcbId, dest: PcbId, payload: int)
    requires Inv(k) && MaySend(k, me, dest) && k.Q(MsgFree) != [] && !k.Live(dest)
    ensures Inv(Send(k, me, dest, payload).0)
  {
    FilledKeeps(k, Msg(Some(me), payload));
    assert Send(k, me, dest, payload).0 == Filled(k, Msg(Some(me), payload)).0;
  }

  lemma SendToLiveKeeps(k: K, me: PcbId, dest: PcbId, payload: int)
    requires Inv(k) && MaySend(k, me, dest) && k.Q(MsgFree) != [] && k.Live(dest)
    ensures Inv(Send(k, me, dest, payload).0)
  {
    RunnerHasPid(k, me);
    NowhereIsLoose(k, dest);
    SendLists(k, me, dest, payload);
    SendCounts(k, me, dest, payload);
    SendProcesses(k, me, dest, payload);
    SendMail(k, me, dest, payload);
  }

  /** The guard is exact: a message to a process that waits for a device or the clock, and nothing else,
      would thread one node on two queues. */
  lemma SendKeepsIff(k: K, me: PcbId, dest: PcbId, payload: int)
    requires Inv(k) && k.current == Some(me) && k.pcbs[me].pending == None
    ensures Inv(Send(k, me, dest, payload).0) <==> k.Q(MsgFree) == [] || !k.SoftBlocked(dest)
  {
    if k.Q(MsgFree) != [] {
      if k.SoftBlocked(dest) { SendToBlocked(k, me, dest, payload); } else { SendKeeps(k, me, dest, payload); }
    }
  }

  lemma SendToBlocked(k: K, me: PcbId, dest: PcbId, payload: int)
    requires ListsOk(k) && k.Q(MsgFree) != [] && k.SoftBlocked(dest)
    ensures !ListsOk(Send(k, me, dest, payload).0)
  {
    var q: Queue :| q != Ready && PList(dest) in k.Q(Head(q));
    BlockedIsAlive(k, q, dest);
    SendFrame(k, me, dest, payload);
    SendReadies(k, me, dest, payload);
    TwiceQueued(Send(k, me, dest, payload).0, dest, q, Ready);
  }

  lemma SendReadies(k: K, me: PcbId, dest: PcbId, payload: int)
    requires k.Q(MsgFree) != [] && k.Live(dest) && k.current != Some(dest) && PList(dest) !in k.Q(Head(Ready))
    ensures Send(k, me, dest, payload).0.Q(Head(Ready)) == k.Q(Head(Ready)) + [PList(dest)]
    ensures PList(dest) in Send(k, me, dest, payload).0.Q(Head(Ready))
  {
    var s := k.Q(Head(Ready)) + [PList(dest)];
    assert s[|s| - 1] == PList(dest);
  }

  lemma TwiceQueued(k2: K, p: PcbId, q: Queue, r: Queue)
    requires q != r && PList(p) in k2.Q(Head(q)) && PList(p) in k2.Q(Head(r))
    ensures !ListsOk(k2)
  {
  }

  /** A live process that is on no queue is on no list at all. */
  lemma NowhereIsLoose(k: K, p: PcbId)
    requires ListsOk(k) && k.Live(p) && !k.SoftBlocked(p)
    ensures PList(p) in k.Q(Head(Ready)) || Loose(k.rings, PList(p))
  {
    if h :| h in k.rings && PList(p) in k.rings[h] {
      assert Fits(h, PList(p));
      assert h.Head?;
      assert PList(p) in k.Q(Head(h.queue));
    }
  }

  // ---------- receive ----------

  ghost predicate MayReceive(k: K, me: PcbId, f: Filter) {
    k.current == Some(me) && (k.pcbs[me].pending == None || k.pcbs[me].pending == Some(f))
  }

  /** The state before scheduler() when nothing was found. */
  function AsleepFor(k: K, me: PcbId, f: Filter): K {
    SaveAt(k, me, f).(current := None)
  }

  lemma AsleepLists(k: K, me: PcbId, f: Filter)
    requires ListsOk(k) && CountsOk(k)
    ensures ListsOk(AsleepFor(k, me, f)) && CountsOk(AsleepFor(k, me, f))
  {
  }

  lemma AsleepProcesses(k: K, me: PcbId, f: Filter)
    requires PidsOk(k) && TreeOk(k) && SsiOk(k)
    ensures var k2 := AsleepFor(k, me, f); PidsOk(k2) && TreeOk(k2) && SsiOk(k2)
  {
    ProcessesKept(k, AsleepFor(k, me, f));
  }

  lemma AsleepMail(k: K, me: PcbId, f: Filter)
    requires MessagesOk(k) && WaitsOk(k) && NothingFor(k, me, f) && k.current == Some(me)
    ensures var k2 := AsleepFor(k, me, f); MessagesOk(k2) && WaitsOk(k2)
  {
    var k2 := AsleepFor(k, me, f);
    forall p: PcbId | k2.AwaitsMessage(p) ensures NothingFor(k2, p, k2.pcbs[p].pending.value) {
      if p != me {
        assert k.AwaitsMessage(p) by {
          forall q: Queue ensures PList(p) !in k.Q(Head(q)) { assert PList(p) !in k2.Q(Head(q)); }
        }
      }
      assert NothingFor(k, p, k2.pcbs[p].pending.value);
      forall x | x in k2.Q(Inbox(p)) ensures !Matches(k2.pcbs, k2.msgs, x, k2.pcbs[p].pending.value) {
        assert !Matches(k.pcbs, k.msgs, x, k2.pcbs[p].pending.value);
      }
    }
  }

  lemma ReceivedLists(k: K, me: PcbId, x: Addr)
    requires ListsOk(k) && x in k.Q(Inbox(me))
    ensures ListsOk(SetPending(k, me, None).Take(Inbox(me), x).Put(MsgFree, x))
  {
    MessageMoves(SetPending(k, me, None), me, x);
  }

  lemma ReceivedCounts(k: K, me: PcbId, x: Addr)
    requires CountsOk(k)
    ensures CountsOk(SetPending(k, me, None).Take(Inbox(me), x).Put(MsgFree, x))
  {
    CountsKept(k, SetPending(k, me, None).Take(Inbox(me), x).Put(MsgFree, x));
  }

  lemma MessageMoves(k: K, me: PcbId, x: Addr)
    requires ListsOk(k) && x in k.Q(Inbox(me))
    ensures ListsOk(k.Take(Inbox(me), x).Put(MsgFree, x))
  {
    TakeLists(k, Inbox(me), x);
    PutLists(k.Take(Inbox(me), x), MsgFree, x);
  }

  lemma ReceivedProcesses(k: K, me: PcbId, x: Addr)
    requires PidsOk(k) && TreeOk(k) && SsiOk(k)
    ensures var k2 := SetPending(k, me, None).Take(Inbox(me), x).Put(MsgFree, x);
            PidsOk(k2) && TreeOk(k2) && SsiOk(k2)
  {
    ProcessesKept(k, SetPending(k, me, None).Take(Inbox(me), x).Put(MsgFree, x));
  }

  /** Who sleeps after a delivery slept before it. */
  lemma ReceivedWaits(k: K, me: PcbId, x: Addr, p: PcbId)
    requires k.current == Some(me)
    requires SetPending(k, me, None).Take(Inbox(me), x).Put(MsgFree, x).AwaitsMessage(p)
    ensures p != me && k.AwaitsMessage(p)
  {
    var k2 := SetPending(k, me, None).Take(Inbox(me), x).Put(MsgFree, x);
    forall q: Queue ensures PList(p) !in k.Q(Head(q)) { assert PList(p) !in k2.Q(Head(q)); }
  }

  lemma ReceivedMail(k: K, me: PcbId, x: Addr)
    requires ListsOk(k) && MessagesOk(k) && WaitsOk(k) && k.current == Some(me) && x in k.Q(Inbox(me))
    ensures var k2 := SetPending(k, me, None).Take(Inbox(me), x).Put(MsgFree, x); MessagesOk(k2) && WaitsOk(k2)
  {
    var k2 := SetPending(k, me, None).Take(Inbox(me), x).Put(MsgFree, x);
    WithoutMembers(k.rings[Inbox(me)], x);
    forall p: PcbId | k2.AwaitsMessage(p) ensures k.AwaitsMessage(p) && k2.pcbs[p].pending == k.pcbs[p].pending {
      ReceivedWaits(k, me, x, p);
    }
    LessMail(k, k2);
  }

  /** Messages leave inboxes, and nobody falls asleep. */
  lemma LessMail(k: K, k2: K)
    requires MessagesOk(k) && WaitsOk(k) && k2.msgs == k.msgs
    requires forall p: PcbId :: k2.pcbs[p].pid == k.pcbs[p].pid
    requires forall p: PcbId, y | y in k2.Q(Inbox(p)) :: y in k.Q(Inbox(p))
    requires forall p: PcbId | k2.AwaitsMessage(p) :: k.AwaitsMessage(p) && k2.pcbs[p].pending == k.pcbs[p].pending
    ensures MessagesOk(k2) && WaitsOk(k2)
  {
    forall p: PcbId | k2.AwaitsMessage(p) ensures NothingFor(k2, p, k2.pcbs[p].pending.value) {
      var f := k.pcbs[p].pending.value;
      assert NothingFor(k, p, f);
      forall y | y in k2.Q(Inbox(p)) ensures !Matches(k2.pcbs, k2.msgs, y, f) {
        assert !Matches(k.pcbs, k.msgs, y, f);
      }
    }
  }

  lemma ReceiveKeeps(k: K, me: PcbId, f: Filter)
    requires Inv(k) && MayReceive(k, me, f)
    ensures Inv(Receive(k, me, f).0)
  {
    FirstMatchIn(k.pcbs, k.msgs, k.Q(Inbox(me)), f);
    match FirstMatch(k.pcbs, k.msgs, k.Q(Inbox(me)), f) {
      case Some(x) =>
        ReceivedLists(k, me, x);
        ReceivedCounts(k, me, x);
        ReceivedProcesses(k, me, x);
        ReceivedMail(k, me, x);
      case None =>
        AsleepLists(k, me, f);
        AsleepProcesses(k, me, f);
        AsleepMail(k, me, f);
        ScheduleKeeps(AsleepFor(k, me, f));
    }
  }

  // ---------- clock and device requests ----------

  ghost predicate MayWaitClock(k: K, p: PcbId) {
    k.current == Some(k.ssi) && k.AwaitsMessage(p)
  }

  lemma WaitClockRest(k: K, p: PcbId)
    requires CountsOk(k) && PidsOk(k)
    ensures var k2 := WaitClock(k, p); CountsOk(k2) && SameProcesses(k, k2) && SameMail(k, k2)
    ensures forall e: PcbId | WaitClock(k, p).AwaitsMessage(e) :: k.AwaitsMessage(e)
  {
    var k2 := WaitClock(k, p);
    forall e: PcbId | k2.AwaitsMessage(e) ensures k.AwaitsMessage(e) {
      forall q: Queue ensures PList(e) !in k.Q(Head(q)) { assert PList(e) !in k2.Q(Head(q)); }
    }
  }

  lemma WaitClockKeeps(k: K, p: PcbId)
    requires Inv(k) && MayWaitClock(k, p)
    ensures Inv(WaitClock(k, p))
  {
    var k2 := WaitClock(k, p);
    NotQueued(k, p);
    PutLists(k, Head(PseudoClock), PList(p));
    WaitClockRest(k, p);
    MovedKeeps(k, k2);
  }

  /** The guard is exact: the clock service goes wrong for every requester that does not wait for its answer. */
  lemma WaitClockKeepsIff(k: K, p: PcbId)
    requires Inv(k) && k.current == Some(k.ssi)
    ensures Inv(WaitClock(k, p)) <==> k.AwaitsMessage(p)
  {
    if k.AwaitsMessage(p) {
      WaitClockKeeps(k, p);
    } else {
      QueuedElsewhere(k, WaitClock(k, p), p, PseudoClock);
    }
  }

  /** A node that is queued although its process was somewhere already. */
  lemma QueuedElsewhere(k: K, k2: K, p: PcbId, r: Queue)
    requires !k.AwaitsMessage(p) && ListsOk(k) && k2.current == k.current
    requires k2.Q(Head(r)) == k.Q(Head(r)) + [PList(p)] && forall h: Addr | h != Head(r) :: k2.Q(h) == k.Q(h)
    ensures !ListsOk(k2)
  {
    assert PList(p) in k2.Q(Head(r));
    if !k.Live(p) {
      OnTwoLists(k2, PcbFree, Head(r), PList(p));
    } else if k.current != Some(p) {
      var q: Queue :| PList(p) in k.Q(Head(q));
      if q == r {
        QueuedTwice(k.Q(Head(r)), PList(p));
      } else {
        OnTwoLists(k2, Head(q), Head(r), PList(p));
      }
    }
  }

  lemma OnTwoLists(k: K, g: Addr, h: Addr, x: Addr)
    requires g != h && x in k.Q(g) && x in k.Q(h)
    ensures !ListsOk(k)
  {
  }

  lemma QueuedTwice(s: seq<Addr>, x: Addr)
    requires x in s
    ensures !NoDup(s + [x])
  {
    var i :| 0 <= i < |s| && s[i] == x;
    assert (s + [x])[i] == x && (s + [x])[|s|] == x;
  }

  lemma NotQueued(k: K, p: PcbId)
    requires ListsOk(k) && k.AwaitsMessage(p)
    ensures Loose(k.rings, PList(p)) && !k.SoftBlocked(p)
  {
    NowhereIsLoose(k, p);
  }

  ghost predicate MayDoIo(k: K, p: PcbId, command: int) {
    && k.current == Some(k.ssi) && k.Live(p) && p != k.ssi && !k.SoftBlocked(p)
    && Devices.Decode(command).Some?
  }

  /** The requester leaves the ready queue if it is there. */
  lemma UnreadyLists(k: K, p: PcbId)
    requires ListsOk(k) && k.Live(p) && !k.SoftBlocked(p)
    ensures ListsOk(k.Take(Head(Ready), PList(p))) && Loose(k.Take(Head(Ready), PList(p)).rings, PList(p))
  {
    NowhereIsLoose(k, p);
    if PList(p) in k.Q(Head(Ready)) {
      TakeLists(k, Head(Ready), PList(p));
    } else {
      WithoutAbsent(k.Q(Head(Ready)), PList(p));
      assert k.Take(Head(Ready), PList(p)).rings == k.rings;
    }
  }

  lemma DoIoLists(k: K, p: PcbId, command: int)
    requires ListsOk(k) && MayDoIo(k, p, command)
    ensures ListsOk(DoIo(k, p, command))
  {
    var r := Devices.Decode(command).value;
    var k1 := k.(pcbs := k.pcbs[p := k.pcbs[p].(dev := r.devNo)], softBlock := k.softBlock + 1);
    UnreadyLists(k, p);
    assert ListsOk(k1.Take(Head(Ready), PList(p)));
    PutLists(k1.Take(Head(Ready), PList(p)), Head(r.queue), PList(p));
  }

  lemma DoIoTotal(k: K, p: PcbId, command: int)
    requires Devices.Decode(command).Some?
    ensures DoIo(k, p, command).BlockedTotal() == k.BlockedTotal() + 1
  {
    var r := Devices.Decode(command).value;
    Devices.DecodeInvertsCommand(command, r);
    TotalMoves(k, DoIo(k, p, command), r.queue, 1);
  }

  lemma DoIoRest(k: K, p: PcbId, command: int)
    requires PidsOk(k) && Devices.Decode(command).Some?
    ensures var k2 := DoIo(k, p, command); SameProcesses(k, k2) && SameMail(k, k2)
  {
    Devices.DecodeInvertsCommand(command, Devices.Decode(command).value);
  }

  lemma DoIoWaits(k: K, p: PcbId, command: int, e: PcbId)
    requires ListsOk(k) && MayDoIo(k, p, command) && DoIo(k, p, command).AwaitsMessage(e)
    ensures k.AwaitsMessage(e) && DoIo(k, p, command).pcbs[e].pending == k.pcbs[e].pending
  {
    Devices.DecodeInvertsCommand(command, Devices.Decode(command).value);
    var r := Devices.Decode(command).value;
    var k2 := DoIo(k, p, command);
    WithoutMembers(k.rings[Head(Ready)], PList(p));
    assert PList(e) !in k2.Q(Head(r.queue));
    forall q: Queue ensures PList(e) !in k.Q(Head(q)) { assert PList(e) !in k2.Q(Head(q)); }
  }

  /** Whatever the address, the request is counted; only a command register makes the count true. */
  lemma DoIoCountsIff(k: K, p: PcbId, command: int)
    requires CountsOk(k)
    ensures CountsOk(DoIo(k, p, command)) <==> Devices.Decode(command).Some?
  {
    var k2 := DoIo(k, p, command);
    match Devices.Decode(command) {
      case None =>
        assert k2.rings == k.rings;
      case Some(r) =>
        DoIoTotal(k, p, command);
        assert k2.softBlock == k.softBlock + 1 && k2.processCount == k.processCount;
        assert k2.Q(PcbFree) == k.Q(PcbFree);
    }
  }

  lemma DoIoKeeps(k: K, p: PcbId, command: int)
    requires Inv(k) && MayDoIo(k, p, command)
    ensures Inv(DoIo(k, p, command))
  {
    DoIoLists(k, p, command);
    DoIoCountsIff(k, p, command);
    DoIoRest(k, p, command);
    forall e: PcbId | DoIo(k, p, command).AwaitsMessage(e)
      ensures k.AwaitsMessage(e) && DoIo(k, p, command).pcbs[e].pending == k.pcbs[e].pending
    {
      DoIoWaits(k, p, command, e);
    }
    MovedKeeps(k, DoIo(k, p, command));
  }

  /** The guard is exact: doio leaves a sound nucleus behind exactly for the command register of a device and a
      requester that lives, is not the SSI and is not blocked yet. */
  lemma DoIoKeepsIff(k: K, p: PcbId, command: int)
    requires Inv(k) && k.current == Some(k.ssi)
    ensures Inv(DoIo(k, p, command)) <==> MayDoIo(k, p, command)
  {
    if MayDoIo(k, p, command) {
      DoIoKeeps(k, p, command);
    } else if Devices.Decode(command) == None {
      DoIoCountsIff(k, p, command);
    } else {
      DoIoElsewhere(k, p, command);
    }
  }

  lemma DoIoElsewhere(k: K, p: PcbId, command: int)
    requires ListsOk(k) && Devices.Decode(command).Some? && (!k.Live(p) || k.current == Some(p) || k.SoftBlocked(p))
    ensures !ListsOk(DoIo(k, p, command))
  {
    var r := Devices.Decode(command).value;
    Devices.DecodeInvertsCommand(command, r);
    if PList(p) in k.Q(Head(Ready)) { BlockedIsAlive(k, Ready, p); }
    WithoutAbsent(k.Q(Head(Ready)), PList(p));
    QueuedElsewhere(k, DoIo(k, p, command), p, r.queue);
  }

  // ---------- interrupts ----------

  /** The process p of queue q gets its answer. */
  function Woken(k: K, q: Queue, p: PcbId, status: int): K
    requires k.Q(MsgFree) != []
  {
    Reply(k.Take(Head(q), PList(p)), p, status)
  }

  ghost predicate MayWake(k: K, q: Queue, p: PcbId) {
    q != Ready && PList(p) in k.Q(Head(q)) && k.Q(MsgFree) != []
  }

  lemma BlockedIsAlive(k: K, q: Queue, p: PcbId)
    requires ListsOk(k) && PList(p) in k.Q(Head(q))
    ensures k.Live(p) && k.current != Some(p)
    ensures forall r: Queue | r != q :: PList(p) !in k.Q(Head(r))
  {
  }

  lemma ReplyLists(k: K, p: PcbId, status: int)
    requires ListsOk(k) && k.Q(MsgFree) != [] && k.Live(p) && Loose(k.rings, PList(p)) && k.current != Some(p)
    ensures ListsOk(Reply(k, p, status))
  {
    var m := Msg(Some(k.ssi), status);
    var (k1, x) := Filled(k, m);
    FilledLists(k, m);
    PutLists(k1, Inbox(p), x);
    PutLists(k1.Put(Inbox(p), x), Head(Ready), PList(p));
  }

  lemma WokenLists(k: K, q: Queue, p: PcbId, status: int)
    requires ListsOk(k) && MayWake(k, q, p)
    ensures ListsOk(Woken(k, q, p, status))
  {
    BlockedIsAlive(k, q, p);
    TakeLists(k, Head(q), PList(p));
    ReplyLists(k.Take(Head(q), PList(p)), p, status);
  }

  lemma WokenTotal(k: K, q: Queue, p: PcbId, status: int)
    requires ListsOk(k) && MayWake(k, q, p)
    ensures Woken(k, q, p, status).BlockedTotal() == k.BlockedTotal() - 1
  {
    WithoutMembers(k.rings[Head(q)], PList(p));
    TotalMoves(k, Woken(k, q, p, status), q, -1);
  }

  lemma WokenCounts(k: K, q: Queue, p: PcbId, status: int)
    requires ListsOk(k) && CountsOk(k) && MayWake(k, q, p)
    ensures CountsOk(Woken(k, q, p, status))
  {
    WokenTotal(k, q, p, status);
    WokenFrame(k, q, p, status);
  }

  lemma WokenFrame(k: K, q: Queue, p: PcbId, status: int)
    requires k.Q(MsgFree) != []
    ensures var k2 := Woken(k, q, p, status);
            k2.Q(PcbFree) == k.Q(PcbFree) && k2.processCount == k.processCount && k2.softBlock == k.softBlock - 1
  {
  }

  lemma WokenProcesses(k: K, q: Queue, p: PcbId, status: int)
    requires PidsOk(k) && TreeOk(k) && SsiOk(k) && MayWake(k, q, p)
    ensures var k2 := Woken(k, q, p, status); PidsOk(k2) && TreeOk(k2) && SsiOk(k2)
  {
    ProcessesKept(k, Woken(k, q, p, status));
  }

  lemma WokenWaits(k: K, q: Queue, p: PcbId, status: int, e: PcbId)
    requires ListsOk(k) && MayWake(k, q, p) && Woken(k, q, p, status).AwaitsMessage(e)
    ensures e != p && k.AwaitsMessage(e)
  {
    var k2 := Woken(k, q, p, status);
    WithoutMembers(k.rings[Head(q)], PList(p));
    assert PList(e) !in k2.Q(Head(Ready));
    forall r: Queue ensures PList(e) !in k.Q(Head(r)) { assert PList(e) !in k2.Q(Head(r)); }
  }

  lemma WokenDelivers(k: K, q: Queue, p: PcbId, status: int)
    requires ListsOk(k) && MayWake(k, q, p)
    ensures var k2, x := Woken(k, q, p, status), k.Q(MsgFree)[0];
            && (forall e: PcbId :: k2.Q(Inbox(e)) == if e == p then k.Q(Inbox(e)) + [x] else k.Q(Inbox(e)))
            && k2.msgs == k.msgs[MsgOf(x) := Msg(Some(k.ssi), status)] && k2.pcbs == k.pcbs
            && (forall e: PcbId | k2.AwaitsMessage(e) :: e != p && k.AwaitsMessage(e))
  {
    forall e: PcbId | Woken(k, q, p, status).AwaitsMessage(e) ensures e != p && k.AwaitsMessage(e) {
      WokenWaits(k, q, p, status, e);
    }
  }

  lemma WokenMail(k: K, q: Queue, p: PcbId, status: int)
    requires ListsOk(k) && MessagesOk(k) && WaitsOk(k) && MayWake(k, q, p) && k.pcbs[k.ssi].pid > 0
    ensures var k2 := Woken(k, q, p, status); MessagesOk(k2) && WaitsOk(k2)
  {
    var k2 := Woken(k, q, p, status);
    FilledMail(k, Msg(Some(k.ssi), status));
    WokenDelivers(k, q, p, status);
    DeliveredOk(k, k2, p, k.Q(MsgFree)[0], Msg(Some(k.ssi), status));
  }

  lemma WokenKeeps(k: K, q: Queue, p: PcbId, status: int)
    requires Inv(k) && MayWake(k, q, p)
    ensures Inv(Woken(k, q, p, status))
  {
    WokenLists(k, q, p, status);
    WokenCounts(k, q, p, status);
    WokenProcesses(k, q, p, status);
    WokenMail(k, q, p, status);
  }

  lemma ExitKeeps(k: K)
    requires Inv(k)
    ensures Inv(ExitInterrupt(k))
  {
    if k.current == None { ScheduleKeeps(k); }
  }

  lemma DeviceDoneKeeps(k: K, q: Queue, devNo: int, status: int)
    requires Inv(k) && q != Ready && MayAnswer(k, q, devNo)
    ensures Inv(DeviceDone(k, q, devNo, status))
  {
    forall x | x in k.Q(Head(q)) ensures x.PList? { assert Fits(Head(q), x); }
    FirstOnDevIn(k.pcbs, k.Q(Head(q)), devNo);
    match FirstOnDev(k.pcbs, k.Q(Head(q)), devNo) {
      case None => ExitKeeps(k);
      case Some(p) =>
        WokenKeeps(k, q, p, status);
        ExitKeeps(Woken(k, q, p, status));
    }
  }

  /** The timer needs one pool message for every process it wakes. */
  ghost predicate MayTick(k: K) {
    |k.Q(MsgFree)| >= |k.Q(Head(PseudoClock))|
  }

  /** The first clock waiter, and who is left. */
  lemma FirstWaiter(k: K, d: PcbId)
    requires ListsOk(k) && k.Q(Head(PseudoClock)) != []
    ensures var q, p := k.Q(Head(PseudoClock)), PcbOf(k.Q(Head(PseudoClock))[0]);
            && q[0] == PList(p) && Without(q, PList(p)) == q[1..]
            && (PList(d) in q[1..] <==> PList(d) in q && d != p)
  {
    var q := k.Q(Head(PseudoClock));
    assert q[0] in q && Fits(Head(PseudoClock), q[0]);
    assert q[0] !in q[1..];
  }

  /** One round of the timer's loop. */
  lemma WakeAllStep(k: K, p: PcbId)
    requires ListsOk(k) && MayTick(k) && k.Q(Head(PseudoClock)) != [] && k.Q(Head(PseudoClock))[0] == PList(p)
    ensures MayWake(k, PseudoClock, p)
    ensures var k1 := Woken(k, PseudoClock, p, 0);
            && k1.Q(Head(PseudoClock)) == k.Q(Head(PseudoClock))[1..] && k1.ssi == k.ssi && k1.current == k.current
            && MayTick(k1) && WakeAll(k) == WakeAll(k1)
  {
    assert k.Q(Head(PseudoClock))[0] in k.Q(Head(PseudoClock));
    assert Woken(k, PseudoClock, p, 0).Q(Head(PseudoClock)) == k.Q(Head(PseudoClock))[1..];
    assert Woken(k, PseudoClock, p, 0).Q(MsgFree) == k.Q(MsgFree)[1..];
  }

  lemma WakeOneKeeps(k: K) returns (k1: K)
    requires Inv(k) && MayTick(k) && k.Q(Head(PseudoClock)) != []
    ensures Inv(k1) && MayTick(k1) && WakeAll(k1) == WakeAll(k) && k1.current == k.current
    ensures |k1.Q(Head(PseudoClock))| < |k.Q(Head(PseudoClock))|
  {
    var p := PcbOf(k.Q(Head(PseudoClock))[0]);
    FirstWaiter(k, p);
    k1 := Woken(k, PseudoClock, p, 0);
    WakeAllStep(k, p);
    WokenKeeps(k, PseudoClock, p, 0);
  }

  lemma WakeAllKeeps(k: K)
    requires Inv(k) && MayTick(k)
    ensures Inv(WakeAll(k)) && WakeAll(k).Q(Head(PseudoClock)) == []
    ensures WakeAll(k).current == k.current
    decreases |k.Q(Head(PseudoClock))|
  {
    if k.Q(Head(PseudoClock)) != [] {
      var k1 := WakeOneKeeps(k);
      WakeAllKeeps(k1);
    }
  }

  lemma TickKeeps(k: K)
    requires Inv(k) && MayTick(k)
    ensures Inv(Tick(k))
  {
    WakeAllKeeps(k);
    ExitKeeps(WakeAll(k));
  }

  // ---------- process creation ----------

  ghost predicate MayCreate(k: K, parent: PcbId) {
    k.current == Some(k.ssi) && k.Live(parent)
  }

  /** The head of the free list is dead, hence nobody's child. */
  lemma FreeIsNobodysChild(k: K)
    requires ListsOk(k) && TreeOk(k) && k.Q(PcbFree) != []
    ensures var c := PcbOf(k.Q(PcbFree)[0]);
            && k.Q(PcbFree)[0] == PList(c) && !k.Live(c) && Loose(k.rings, PSib(c))
  {
    var x := k.Q(PcbFree)[0];
    assert x in k.Q(PcbFree) && Fits(PcbFree, x);
    var c := PcbOf(x);
    if h :| h in k.rings && PSib(c) in k.rings[h] {
      assert Fits(h, PSib(c));
      assert PSib(c) in k.Q(PChild(h.pcb));
    }
  }

  /** The child before it is queued and adopted. */
  function Newborn(k: K, c: PcbId, parent: Option<PcbId>): K
    requires k.Q(PcbFree) != []
  {
    k.(rings := k.rings[PcbFree := k.Q(PcbFree)[1..]][PChild(c) := []][Inbox(c) := []],
       pcbs := k.pcbs[c := Pcb(parent, k.nextPid, k.pcbs[c].dev, None, None)],
       nextPid := k.nextPid + 1, processCount := k.processCount + 1)
  }

  lemma NewbornShape(k: K, c: PcbId, parent: Option<PcbId>)
    requires Shape(k.rings) && PcbFree in k.rings && k.Q(PcbFree) != [] && k.Q(PcbFree)[0] == PList(c)
    ensures var k1 := Newborn(k, c, parent); Shape(k1.rings) && Loose(k1.rings, PList(c))
    ensures var k1 := Newborn(k, c, parent); forall y | Loose(k.rings, y) :: Loose(k1.rings, y)
  {
    PopShape(k.rings, PcbFree);
  }

  lemma NewbornLists(k: K, c: PcbId, parent: Option<PcbId>)
    requires ListsOk(k) && k.Q(PcbFree) != [] && k.Q(PcbFree)[0] == PList(c) && Loose(k.rings, PSib(c))
    ensures var k1 := Newborn(k, c, parent);
            && ListsOk(k1) && Loose(k1.rings, PList(c)) && Loose(k1.rings, PSib(c))
            && (forall p: PcbId :: k1.Live(p) <==> k.Live(p) || p == c)
  {
    NewbornShape(k, c, parent);
    var k1 := Newborn(k, c, parent);
    assert k.Q(PcbFree) == [PList(c)] + k1.Q(PcbFree);
    assert PList(c) in k.Q(PcbFree);
    assert forall p: PcbId :: k1.Live(p) <==> k.Live(p) || p == c;
  }

  lemma CreateLists(k: K, parent: PcbId)
    requires ListsOk(k) && TreeOk(k) && k.Live(parent) && k.Q(PcbFree) != []
    ensures var k2 := Create(k, parent).0;
            ListsOk(k2) && forall p: PcbId :: k2.Live(p) <==> k.Live(p) || p == PcbOf(k.Q(PcbFree)[0])
  {
    FreeIsNobodysChild(k);
    var c := PcbOf(k.Q(PcbFree)[0]);
    NewbornLists(k, c, Some(parent));
    AdoptedLists(Newborn(k, c, Some(parent)), parent, c);
  }

  lemma AdoptedLists(k: K, parent: PcbId, c: PcbId)
    requires ListsOk(k) && k.Live(parent) && k.current != Some(c) && Loose(k.rings, PList(c)) && Loose(k.rings, PSib(c))
    ensures ListsOk(k.Put(Head(Ready), PList(c)).Put(PChild(parent), PSib(c)))
  {
    PutLists(k, Head(Ready), PList(c));
    PutLists(k.Put(Head(Ready), PList(c)), PChild(parent), PSib(c));
  }

  lemma CreateCounts(k: K, parent: PcbId)
    requires CountsOk(k) && k.Q(PcbFree) != []
    ensures CountsOk(Create(k, parent).0)
  {
    CreateFrame(k, parent);
    SameTotal(k, Create(k, parent).0);
  }

  lemma CreateFrame(k: K, parent: PcbId)
    requires k.Q(PcbFree) != []
    ensures var k2 := Create(k, parent).0;
            && |k2.Q(PcbFree)| == |k.Q(PcbFree)| - 1
            && k2.processCount == k.processCount + 1 && k2.softBlock == k.softBlock
            && forall q: Queue | q != Ready :: k2.Q(Head(q)) == k.Q(Head(q))
  {
  }

  lemma CreatePids(k: K, parent: PcbId)
    requires ListsOk(k) && TreeOk(k) && PidsOk(k) && k.Live(parent) && k.Q(PcbFree) != []
    ensures PidsOk(Create(k, parent).0)
  {
    CreateLists(k, parent);
  }

  /** A forest grows by one leaf. */
  lemma TreeGrows(k: K, k2: K, parent: PcbId, c: PcbId)
    requires TreeOk(k) && PidsOk(k) && k.Live(parent) && !k.Live(c)
    requires forall p: PcbId :: k2.Live(p) <==> k.Live(p) || p == c
    requires forall p: PcbId :: k2.Q(PChild(p)) ==
               if p == c then [] else if p == parent then k.Q(PChild(p)) + [PSib(c)] else k.Q(PChild(p))
    requires k2.pcbs[c].parent == Some(parent) && k2.pcbs[c].pid == k.nextPid
    requires forall p: PcbId | p != c :: k2.pcbs[p] == k.pcbs[p]
    ensures TreeOk(k2)
  {
    forall p: PcbId, x: PcbId | PSib(x) in k2.Q(PChild(p))
      ensures k2.Live(p) && k2.Live(x) && k2.pcbs[x].parent == Some(p) && k2.pcbs[p].pid < k2.pcbs[x].pid
    {
      assert (p == parent && x == c) || PSib(x) in k.Q(PChild(p));
    }
    forall x: PcbId | k2.pcbs[x].parent.Some? ensures PSib(x) in k2.Q(PChild(k2.pcbs[x].parent.value)) {
      if x != c { assert PSib(x) in k.Q(PChild(k.pcbs[x].parent.value)); }
    }
  }

  lemma CreateChildren(k: K, parent: PcbId)
    requires k.Live(parent) && k.Q(PcbFree) != [] && !k.Live(PcbOf(k.Q(PcbFree)[0]))
    ensures var c := PcbOf(k.Q(PcbFree)[0]);
            forall p: PcbId :: Create(k, parent).0.Q(PChild(p)) ==
              if p == c then [] else if p == parent then k.Q(PChild(p)) + [PSib(c)] else k.Q(PChild(p))
  {
  }

  lemma CreateTree(k: K, parent: PcbId)
    requires ListsOk(k) && TreeOk(k) && PidsOk(k) && k.Live(parent) && k.Q(PcbFree) != []
    ensures TreeOk(Create(k, parent).0)
  {
    CreateLists(k, parent);
    FreeIsNobodysChild(k);
    CreateChildren(k, parent);
    TreeGrows(k, Create(k, parent).0, parent, PcbOf(k.Q(PcbFree)[0]));
  }

  lemma CreateSsi(k: K, parent: PcbId)
    requires ListsOk(k) && TreeOk(k) && SsiOk(k) && k.Live(parent) && k.Q(PcbFree) != []
    ensures SsiOk(Create(k, parent).0)
  {
    CreateLists(k, parent);
    FreeIsNobodysChild(k);
  }

  lemma CreateMessages(k: K, parent: PcbId)
    requires PidsOk(k) && MessagesOk(k) && k.Q(PcbFree) != []
    ensures MessagesOk(Create(k, parent).0)
  {
    var c := PcbOf(k.Q(PcbFree)[0]);
    var k2 := Create(k, parent).0;
    assert forall d: PcbId :: k2.Q(Inbox(d)) == if d == c then [] else k.Q(Inbox(d));
  }

  /** A reused PCB has a new pid, but that pid is still the pid of no other sender. */
  lemma CreateStillNothing(k: K, k2: K, e: PcbId, f: Filter)
    requires MessagesOk(k2) && PidsOk(k2) && NothingFor(k, e, f)
    requires k2.Q(Inbox(e)) == k.Q(Inbox(e)) && k2.msgs == k.msgs
    ensures NothingFor(k2, e, f)
  {
    forall x | x in k2.Q(Inbox(e)) ensures !Matches(k2.pcbs, k2.msgs, x, f) {
      assert !Matches(k.pcbs, k.msgs, x, f);
      if f.From? {
        MatchIsIdentity(k2, e, x, f.pcb);
      }
    }
  }

  lemma CreateWaits(k: K, parent: PcbId)
    requires ListsOk(k) && WaitsOk(k) && k.Q(PcbFree) != []
    requires var k2 := Create(k, parent).0; PidsOk(k2) && MessagesOk(k2)
    requires forall p: PcbId :: Create(k, parent).0.Live(p) <==> k.Live(p) || p == PcbOf(k.Q(PcbFree)[0])
    ensures WaitsOk(Create(k, parent).0)
  {
    var k2 := Create(k, parent).0;
    forall e: PcbId | k2.AwaitsMessage(e)
      ensures k.AwaitsMessage(e) && k2.pcbs[e].pending == k.pcbs[e].pending && k2.Q(Inbox(e)) == k.Q(Inbox(e))
    {
      CreateSleeper(k, parent, e);
    }
    StillWaiting(k, k2);
  }

  lemma StillWaiting(k: K, k2: K)
    requires WaitsOk(k) && MessagesOk(k2) && PidsOk(k2) && k2.msgs == k.msgs
    requires forall e: PcbId | k2.AwaitsMessage(e) ::
               k.AwaitsMessage(e) && k2.pcbs[e].pending == k.pcbs[e].pending && k2.Q(Inbox(e)) == k.Q(Inbox(e))
    ensures WaitsOk(k2)
  {
    forall e: PcbId | k2.AwaitsMessage(e) ensures NothingFor(k2, e, k2.pcbs[e].pending.value) {
      CreateStillNothing(k, k2, e, k.pcbs[e].pending.value);
    }
  }

  lemma CreateSleeper(k: K, parent: PcbId, e: PcbId)
    requires k.Q(PcbFree) != [] && Create(k, parent).0.AwaitsMessage(e)
    requires Create(k, parent).0.Live(e) <==> k.Live(e) || e == PcbOf(k.Q(PcbFree)[0])
    ensures var k2 := Create(k, parent).0;
            k.AwaitsMessage(e) && k2.pcbs[e].pending == k.pcbs[e].pending && k2.Q(Inbox(e)) == k.Q(Inbox(e))
  {
    var k2 := Create(k, parent).0;
    assert PList(e) !in k2.Q(Head(Ready));
    forall q: Queue ensures PList(e) !in k.Q(Head(q)) { assert PList(e) !in k2.Q(Head(q)); }
  }

  lemma CreateKeeps(k: K, parent: PcbId)
    requires Inv(k) && MayCreate(k, parent)
    ensures Inv(Create(k, parent).0)
  {
    if k.Q(PcbFree) != [] {
      CreateLists(k, parent);
      CreateCounts(k, parent);
      CreatePids(k, parent);
      CreateTree(k, parent);
      CreateSsi(k, parent);
      CreateMessages(k, parent);
      CreateWaits(k, parent);
    }
  }

  /** The condition on the requester is exact: createProcess keeps the invariant exactly if there is no free PCB or the
      process that gets the child is alive. A requester that was killed while its request waited is not. */
  lemma CreateKeepsIff(k: K, parent: PcbId)
    requires Inv(k) && k.current == Some(k.ssi)
    ensures Inv(Create(k, parent).0) <==> k.Q(PcbFree) == [] || k.Live(parent)
  {
    if k.Q(PcbFree) == [] || k.Live(parent) {
      if k.Q(PcbFree) != [] { CreateKeeps(k, parent); }
    } else {
      OrphanIsBorn(k, parent);
    }
  }

  /** The child of a dead process, or of itself if the dead process had the next PCB to be used. */
  lemma OrphanIsBorn(k: K, parent: PcbId)
    requires k.Q(PcbFree) != [] && !k.Live(parent) && ListsOk(k)
    ensures !TreeOk(Create(k, parent).0)
  {
    var c, k2 := PcbOf(k.Q(PcbFree)[0]), Create(k, parent).0;
    assert k.Q(PcbFree)[0] in k.Q(PcbFree) && Fits(PcbFree, k.Q(PcbFree)[0]);
    assert PSib(c) in k2.Q(PChild(parent));
    if c != parent {
      assert k.Q(PcbFree) == [k.Q(PcbFree)[0]] + k.Q(PcbFree)[1..];
      assert !k2.Live(parent);
    }
  }
}
