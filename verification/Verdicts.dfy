/** Where processes are, what the two counters count, and when the scheduler's verdicts are right. */
module Verdicts {
  import opened Layout
  import opened Rings
  import opened PcbPool
  import opened Kernel
  import opened Invariant
  import opened Runs

  // ---------- one place each ----------

  datatype Place = Free | Running | Queued(q: Queue) | Waiting

  ghost predicate IsAt(k: K, p: PcbId, w: Place) {
    match w
    case Free => PList(p) in k.Q(PcbFree)
    case Running => k.current == Some(p)
    case Queued(q) => PList(p) in k.Q(Head(q))
    case Waiting => k.AwaitsMessage(p)
  }

  /** Every PCB is in exactly one place. */
  lemma OnePlace(k: K, p: PcbId)
    requires Reachable(k)
    ensures exists w: Place :: IsAt(k, p, w)
    ensures forall v: Place, w: Place | IsAt(k, p, v) && IsAt(k, p, w) :: v == w
  {
    ReachableInv(k);
    var w := SomePlace(k, p);
    forall v: Place, w: Place | IsAt(k, p, v) && IsAt(k, p, w) ensures v == w {
      TwoPlaces(k, p, v, w);
    }
  }

  lemma SomePlace(k: K, p: PcbId) returns (w: Place)
    ensures IsAt(k, p, w)
  {
    if k.AwaitsMessage(p) {
      w := Waiting;
    } else if k.current == Some(p) {
      w := Running;
    } else if q: Queue :| PList(p) in k.Q(Head(q)) {
      w := Queued(q);
    } else {
      w := Free;
    }
  }

  lemma TwoPlaces(k: K, p: PcbId, v: Place, w: Place)
    requires ListsOk(k) && IsAt(k, p, v) && IsAt(k, p, w)
    ensures v == w
  {
  }

  // ---------- the counters ----------

  function OneIf(b: bool): nat { if b then 1 else 0 }

  /** How many of the first n rows have their process node in s. */
  function Members(s: seq<Addr>, n: nat): nat
    requires n <= MAXPROC
  {
    if n == 0 then 0 else Members(s, n - 1) + OneIf(PList(n - 1) in s)
  }

  /** A list of distinct rows is as long as the number of rows on it. */
  lemma {:induction false} MembersIsLength(s: seq<Addr>, n: nat)
    requires n <= MAXPROC && NoDup(s) && forall x | x in s :: x.PList? && x.pcb < n
    ensures Members(s, n) == |s|
    decreases n
  {
    assert s != [] ==> s[0] in s;
    if n > 0 {
      var t := Without(s, PList(n - 1));
      WithoutMembers(s, PList(n - 1));
      MembersIsLength(t, n - 1);
      MembersAgree(s, t, n - 1);
    }
  }

  lemma {:induction false} MembersAgree(s: seq<Addr>, t: seq<Addr>, n: nat)
    requires n <= MAXPROC && forall p: PcbId | p < n :: PList(p) in s <==> PList(p) in t
    ensures Members(s, n) == Members(t, n)
  {
    if n > 0 { MembersAgree(s, t, n - 1); }
  }

  /** The number of live processes among the first n rows. */
  function LiveCount(k: K, n: nat): nat
    requires n <= MAXPROC
  {
    if n == 0 then 0 else LiveCount(k, n - 1) + OneIf(k.Live(n - 1))
  }

  lemma {:induction false} LiveOrFree(k: K, n: nat)
    requires n <= MAXPROC
    ensures LiveCount(k, n) + Members(k.Q(PcbFree), n) == n
  {
    if n > 0 { LiveOrFree(k, n - 1); }
  }

  /** The number of processes among the first n rows that wait for the clock or a device. */
  ghost function BlockedCount(k: K, n: nat): nat
    requires n <= MAXPROC
  {
    if n == 0 then 0 else BlockedCount(k, n - 1) + OneIf(k.SoftBlocked(n - 1))
  }

  /** The same, queue by queue. */
  function QueuedCount(k: K, n: nat): nat
    requires n <= MAXPROC
  {
    if n == 0 then 0 else QueuedCount(k, n - 1) + HereOnce(k, n - 1)
  }

  function HereOnce(k: K, p: PcbId): nat {
    Here(k, p, Disk) + Here(k, p, Flash) + Here(k, p, Ethernet) + Here(k, p, Printer)
    + Here(k, p, TermTransm) + Here(k, p, TermRecv) + Here(k, p, PseudoClock)
  }

  lemma {:induction false} BlockedIsQueued(k: K, n: nat)
    requires n <= MAXPROC && forall p: PcbId :: OneIf(k.SoftBlocked(p)) == HereOnce(k, p)
    ensures BlockedCount(k, n) == QueuedCount(k, n)
  {
    if n > 0 { BlockedIsQueued(k, n - 1); }
  }

  lemma {:induction false} QueuedIsMembers(k: K, n: nat)
    requires n <= MAXPROC
    ensures QueuedCount(k, n) ==
      Members(k.Q(Head(Disk)), n) + Members(k.Q(Head(Flash)), n) + Members(k.Q(Head(Ethernet)), n)
      + Members(k.Q(Head(Printer)), n) + Members(k.Q(Head(TermTransm)), n) + Members(k.Q(Head(TermRecv)), n)
      + Members(k.Q(Head(PseudoClock)), n)
  {
    if n > 0 { QueuedIsMembers(k, n - 1); }
  }

  /** A process is counted for one queue at most. */
  lemma BlockedOnce(k: K, p: PcbId)
    requires ListsOk(k)
    ensures OneIf(k.SoftBlocked(p)) == HereOnce(k, p)
  {
    if q: Queue :| q != Ready && PList(p) in k.Q(Head(q)) {
      BlockedIsAlive(k, q, p);
      match q { case Ready => case Disk => case Flash => case Ethernet => case Printer =>
                case TermTransm => case TermRecv => case PseudoClock => }
    }
  }

  function Here(k: K, p: PcbId, q: Queue): nat {
    OneIf(PList(p) in k.Q(Head(q)))
  }

  lemma QueueLength(k: K, h: Addr)
    requires ListsOk(k) && IsProcQ(h)
    ensures Members(k.Q(h), MAXPROC) == |k.Q(h)|
  {
    forall x | x in k.Q(h) ensures x.PList? { assert Fits(h, x); }
    MembersIsLength(k.Q(h), MAXPROC);
  }

  /** In every reachable state processCount is the number of live processes and softBlockCount the number
      of those that wait for the clock or for a device. */
  lemma CountersCount(k: K)
    requires Reachable(k)
    ensures k.processCount == LiveCount(k, MAXPROC)
    ensures k.softBlock == BlockedCount(k, MAXPROC)
  {
    ReachableInv(k);
    QueueLength(k, PcbFree);
    LiveOrFree(k, MAXPROC);
    BlockedLengths(k);
  }

  lemma BlockedLengths(k: K)
    requires ListsOk(k)
    ensures BlockedCount(k, MAXPROC) == k.BlockedTotal()
  {
    forall p: PcbId ensures OneIf(k.SoftBlocked(p)) == HereOnce(k, p) { BlockedOnce(k, p); }
    BlockedIsQueued(k, MAXPROC);
    QueuedIsMembers(k, MAXPROC);
    QueueLength(k, Head(Disk));
    QueueLength(k, Head(Flash));
    QueueLength(k, Head(Ethernet));
    QueueLength(k, Head(Printer));
    QueueLength(k, Head(TermTransm));
    QueueLength(k, Head(TermRecv));
    QueueLength(k, Head(PseudoClock));
  }

  // ---------- the verdicts ----------

  lemma {:induction false} LiveAtLeast(k: K, p: PcbId, n: nat)
    requires p < n <= MAXPROC && k.Live(p)
    ensures LiveCount(k, n) >= 1
    ensures forall q: PcbId | q < n && q != p && k.Live(q) :: LiveCount(k, n) >= 2
  {
    if p < n - 1 {
      LiveAtLeast(k, p, n - 1);
    } else {
      forall q: PcbId | q < n && q != p && k.Live(q) ensures LiveCount(k, n) >= 2 {
        LiveAtLeast(k, q, n - 1);
      }
    }
  }

  lemma {:induction false} AloneCount(k: K, p: PcbId, n: nat)
    requires n <= MAXPROC && forall q: PcbId | q < n && q != p :: !k.Live(q)
    ensures LiveCount(k, n) <= 1 && (n <= p ==> LiveCount(k, n) == 0)
  {
    if n > 0 { AloneCount(k, p, n - 1); }
  }

  /** processCount is one exactly when the SSI is the only process. */
  lemma Alone(k: K)
    requires Reachable(k)
    ensures k.processCount >= 1
    ensures k.processCount == 1 <==> forall p: PcbId | k.Live(p) :: p == k.ssi
  {
    ReachableInv(k);
    CountersCount(k);
    LiveAtLeast(k, k.ssi, MAXPROC);
    if forall p: PcbId | k.Live(p) :: p == k.ssi {
      AloneCount(k, k.ssi, MAXPROC);
    }
  }

  /** softBlockCount is zero exactly when nobody waits for the clock or a device. */
  lemma NobodyBlocked(k: K)
    requires ListsOk(k) && CountsOk(k)
    ensures k.softBlock >= 0
    ensures k.softBlock == 0 <==> forall p: PcbId :: !k.SoftBlocked(p)
  {
    if forall p: PcbId :: !k.SoftBlocked(p) {
      forall q: Queue | q != Ready ensures k.Q(Head(q)) == [] {
        if k.Q(Head(q)) != [] {
          var x := k.Q(Head(q))[0];
          assert x in k.Q(Head(q)) && Fits(Head(q), x);
          assert k.SoftBlocked(PcbOf(x));
        }
      }
    }
  }

  /** With an empty processor and an empty ready queue every live process waits for something. */
  lemma AllWait(k: K)
    requires ListsOk(k) && k.current == None && k.Q(Head(Ready)) == []
    ensures (forall p: PcbId :: !k.SoftBlocked(p)) <==> (forall p: PcbId | k.Live(p) :: k.AwaitsMessage(p))
  {
    if forall p: PcbId :: !k.SoftBlocked(p) {
      forall p: PcbId | k.Live(p) ensures k.AwaitsMessage(p) {
        NowhereIsLoose(k, p);
      }
    }
    BlockedAreLive(k);
  }

  lemma BlockedAreLive(k: K)
    requires ListsOk(k)
    ensures forall p: PcbId | k.SoftBlocked(p) :: k.Live(p) && !k.AwaitsMessage(p)
  {
    forall p: PcbId | k.SoftBlocked(p) ensures k.Live(p) && !k.AwaitsMessage(p) {
      var q: Queue :| q != Ready && PList(p) in k.Q(Head(q));
      BlockedIsAlive(k, q, p);
    }
  }

  /** The scheduler has found nobody. */
  lemma Stalled(k: K)
    requires Reachable(k) && k.current == None
    ensures ListsOk(k) && CountsOk(k) && k.Q(Head(Ready)) == [] && k.processCount >= 1
  {
    ReachableInv(k);
    Alone(k);
  }

  lemma DecidedByCounts(k: K)
    requires k.Q(Head(Ready)) == [] && k.processCount >= 1 && k.softBlock >= 0
    ensures Decision(k).Halted? <==> k.processCount == 1
    ensures Decision(k).Panicked? <==> k.processCount != 1 && k.softBlock == 0
    ensures Decision(k).Idle? <==> k.processCount != 1 && k.softBlock != 0
    ensures !Decision(k).NoProcess? && !Decision(k).Dispatched?
  {
  }

  /** What the scheduler decides about a state in which it finds nobody to run:
      HALT exactly when the SSI is alone; PANIC exactly when there are others and each waits for a message;
      WAIT exactly when there are others and somebody waits for the clock or a device; never anything else. */
  lemma VerdictsAreRight(k: K)
    requires Reachable(k) && k.current == None
    ensures Decision(k).Halted? <==> forall p: PcbId | k.Live(p) :: p == k.ssi
    ensures Decision(k).Panicked? <==>
              !(forall p: PcbId | k.Live(p) :: p == k.ssi) && (forall p: PcbId | k.Live(p) :: k.AwaitsMessage(p))
    ensures Decision(k).Idle? <==>
              !(forall p: PcbId | k.Live(p) :: p == k.ssi) && !(forall p: PcbId :: !k.SoftBlocked(p))
    ensures !Decision(k).NoProcess? && !Decision(k).Dispatched?
  {
    Stalled(k);
    Alone(k);
    NobodyBlocked(k);
    AllWait(k);
    DecidedByCounts(k);
  }

  /** PANIC is a real deadlock: each process waits for a message that is not in its inbox, and no event the
      hardware can still produce changes anything. */
  lemma PanicIsDeadlock(k: K)
    requires Reachable(k) && k.current == None && Decision(k).Panicked?
    ensures forall p: PcbId | k.Live(p) :: k.pcbs[p].pending.Some? && NothingFor(k, p, k.pcbs[p].pending.value)
    ensures forall e: Event | Enabled(k, e) :: Apply(k, e) == k
  {
    ReachableInv(k);
    VerdictsAreRight(k);
    NobodyBlocked(k);
    forall p: PcbId | k.Live(p) ensures k.pcbs[p].pending.Some? && NothingFor(k, p, k.pcbs[p].pending.value) {
      assert k.AwaitsMessage(p);
    }
    forall e: Event | Enabled(k, e) ensures Apply(k, e) == k { DeadStep(k, e); }
  }

  lemma DeadStep(k: K, e: Event)
    requires k.current == None && k.Q(Head(Ready)) == [] && k.softBlock == 0 && CountsOk(k) && Enabled(k, e)
    ensures Apply(k, e) == k
  {
    assert forall q: Queue | q != Ready :: k.Q(Head(q)) == [];
  }

  /** WAIT is no deadlock: some interrupt takes a process out of the blocked queues and dispatches one,
      provided the pool has a message for each process it wakes. */
  lemma IdleCanWake(k: K)
    requires Reachable(k) && k.current == None && Decision(k).Idle?
    requires k.Q(MsgFree) != [] && MayTick(k)
    ensures exists e: Event :: Enabled(k, e) && Apply(k, e).current.Some?
  {
    Stalled(k);
    VerdictsAreRight(k);
    var p: PcbId :| k.SoftBlocked(p);
    WaiterCanWake(k, p);
  }

  lemma WaiterCanWake(k: K, p: PcbId)
    requires ListsOk(k) && k.current == None && k.Q(MsgFree) != [] && MayTick(k) && k.SoftBlocked(p)
    ensures exists e: Event :: Enabled(k, e) && Apply(k, e).current.Some?
  {
    var q: Queue :| q != Ready && PList(p) in k.Q(Head(q));
    if q == PseudoClock {
      TickWakes(k);
      assert Enabled(k, Ticks) && Apply(k, Ticks).current.Some?;
    } else {
      DeviceWakes(k, q, p);
      var e := Interrupts(q, k.pcbs[p].dev, 0);
      assert Enabled(k, e) && Apply(k, e).current.Some?;
    }
  }

  lemma WakeAllReadies(k: K)
    requires MayTick(k) && k.Q(Head(PseudoClock)) != []
    ensures WakeAll(k).Q(Head(Ready)) != [] && WakeAll(k).current == k.current
    decreases |k.Q(Head(PseudoClock))|
  {
    var q := k.Q(Head(PseudoClock));
    WakeAllKeepsReady(Reply(k.Take(Head(PseudoClock), q[0]), PcbOf(q[0]), 0));
  }

  lemma WakeAllKeepsReady(k: K)
    requires MayTick(k) && k.Q(Head(Ready)) != []
    ensures WakeAll(k).Q(Head(Ready)) != [] && WakeAll(k).current == k.current
    decreases |k.Q(Head(PseudoClock))|
  {
  }

  lemma TickWakes(k: K)
    requires MayTick(k) && k.current == None && k.Q(Head(PseudoClock)) != []
    ensures Tick(k).current.Some?
  {
    WakeAllReadies(k);
  }

  lemma DeviceWakes(k: K, q: Queue, p: PcbId)
    requires ListsOk(k) && k.current == None && q != Ready && PList(p) in k.Q(Head(q)) && k.Q(MsgFree) != []
    ensures DeviceDone(k, q, k.pcbs[p].dev, 0).current.Some?
  {
    forall x | x in k.Q(Head(q)) ensures x.PList? { assert Fits(Head(q), x); }
    FirstOnDevIn(k.pcbs, k.Q(Head(q)), k.pcbs[p].dev);
    assert PcbOf(PList(p)) == p;
  }
}
