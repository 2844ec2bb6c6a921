/** Whole runs of the nucleus: what holds in every reachable state. */
module Runs {
  import opened Layout
  import opened PcbPool
  import opened MsgPool
  import opened Kernel
  import opened Invariant
  import opened Subtrees
  import opened Boot

  /** A system call, service or trap of the running process, or an interrupt. The time slice of the SSI never ends:
      main() leaves the local timer off in its status word. */
  datatype Event =
    | Sends(dest: PcbId, payload: int)
    | Receives(filter: Filter)
    | Creates(parent: PcbId)
    | Kills(victim: PcbId)
    | Dies
    | WaitsClock(waiter: PcbId)
    | DoesIo(client: PcbId, command: int)
    | Ticks
    | Interrupts(queue: Queue, devNo: int, status: int)
    | Slice

  ghost predicate Enabled(k: K, e: Event) {
    match e
    case Sends(d, _) => k.current.Some? && MaySend(k, k.current.value, d)
    case Receives(f) => k.current.Some? && MayReceive(k, k.current.value, f)
    case Creates(p) => MayCreate(k, p)
    case Kills(p) => k.current == Some(k.ssi) && MayKill(k, p)
    case Dies => k.current.Some? && MayKill(k, k.current.value)
    case WaitsClock(p) => MayWaitClock(k, p)
    case DoesIo(p, a) => MayDoIo(k, p, a)
    case Ticks => MayTick(k)
    case Interrupts(q, n, _) => q != Ready && q != PseudoClock && MayAnswer(k, q, n)
    case Slice => k.current.Some? && k.current != Some(k.ssi)
  }

  /** The state after a process p and its progeny are gone. */
  ghost function Killed(k: K, p: PcbId): K
    requires MayKill(k, p)
  {
    Dropped(Kill(k, p), Progeny(k, p))
  }

  ghost function Apply(k: K, e: Event): K
    requires Enabled(k, e)
  {
    match e
    case Sends(d, v) => Send(k, k.current.value, d, v).0
    case Receives(f) => Receive(k, k.current.value, f).0
    case Creates(p) => Create(k, p).0
    case Kills(p) => Killed(k, p)
    case Dies => Schedule(Killed(k, k.current.value))
    case WaitsClock(p) => WaitClock(k, p)
    case DoesIo(p, a) => DoIo(k, p, a)
    case Ticks => Tick(k)
    case Interrupts(q, n, v) => DeviceDone(k, q, n, v)
    case Slice => Preempt(k, k.current.value)
  }

  /** Between two steps the processor idles only when nobody is ready. */
  ghost predicate Busy(k: K) {
    k.current == None ==> k.Q(Head(Ready)) == []
  }

  lemma DeadRunner(k: K)
    requires k.current.Some? && MayKill(k, k.current.value)
    ensures Killed(k, k.current.value).current == None
  {
    KillGone(k, k.current.value);
  }

  lemma StepKeeps(k: K, e: Event)
    requires Inv(k) && Enabled(k, e)
    ensures Inv(Apply(k, e))
  {
    match e {
      case Sends(d, v) => SendKeeps(k, k.current.value, d, v);
      case Receives(f) => ReceiveKeeps(k, k.current.value, f);
      case Creates(p) => CreateKeeps(k, p);
      case Kills(p) => KillKeeps(k, p);
      case Dies =>
        KillKeeps(k, k.current.value);
        DeadRunner(k);
        ScheduleKeeps(Killed(k, k.current.value));
      case WaitsClock(p) => WaitClockKeeps(k, p);
      case DoesIo(p, a) => DoIoKeeps(k, p, a);
      case Ticks => TickKeeps(k);
      case Interrupts(q, n, v) => DeviceDoneKeeps(k, q, n, v);
      case Slice => PreemptKeeps(k, k.current.value);
    }
  }

  /** The SSI is nobody's child, so only its own trap could stop it. */
  lemma SsiStays(k: K, p: PcbId)
    requires SsiOk(k) && MayKill(k, p)
    ensures k.ssi !in Progeny(k, p)
  {
    BuildAt(k, p);
    if k.ssi in Progeny(k, p) {
      TreeHasParents(k, Build(k, p), k.ssi);
    }
  }

  lemma WakeAllCurrent(k: K)
    requires MayTick(k)
    ensures WakeAll(k).current == k.current && WakeAll(k).ssi == k.ssi
    decreases |k.Q(Head(PseudoClock))|
  {
  }

  lemma ScheduleBusy(k: K)
    ensures Busy(Schedule(k)) && Schedule(k).ssi == k.ssi
  {
  }

  /** After these steps the same process runs on. */
  lemma RunnerStays(k: K, e: Event)
    requires Enabled(k, e) && (e.Sends? || e.Creates? || e.WaitsClock? || e.DoesIo?)
    ensures Apply(k, e).current == k.current && Apply(k, e).ssi == k.ssi && k.current.Some?
  {
  }

  lemma ReceiveBusy(k: K, me: PcbId, f: Filter)
    requires k.current == Some(me)
    ensures Busy(Receive(k, me, f).0) && Receive(k, me, f).0.ssi == k.ssi
  {
  }

  lemma ExitBusy(k: K)
    requires k.current == None || Busy(k)
    ensures Busy(ExitInterrupt(k)) && ExitInterrupt(k).ssi == k.ssi
  {
  }

  lemma DeviceBusy(k: K, q: Queue, n: int, v: int)
    requires Busy(k) && q != Ready && MayAnswer(k, q, n)
    ensures Busy(DeviceDone(k, q, n, v)) && DeviceDone(k, q, n, v).ssi == k.ssi
  {
  }

  lemma SsiKept(k: K, e: Event)
    requires Enabled(k, e)
    ensures Apply(k, e).ssi == k.ssi
  {
    match e {
      case Receives(f) => ReceiveBusy(k, k.current.value, f);
      case Kills(p) => KillRows(k, p, p);
      case Dies => KillRows(k, k.current.value, 0); ScheduleBusy(Killed(k, k.current.value));
      case Ticks => WakeAllCurrent(k); ScheduleBusy(WakeAll(k));
      case Interrupts(_, _, _) =>
      case Slice =>
      case _ => RunnerStays(k, e);
    }
  }

  /** A killing SSI keeps running. */
  lemma KillerRuns(k: K, p: PcbId)
    requires SsiOk(k) && k.current == Some(k.ssi) && MayKill(k, p)
    ensures Killed(k, p).current == k.current
  {
    SsiStays(k, p);
    KillGone(k, p);
  }

  lemma StepBusy(k: K, e: Event)
    requires Inv(k) && Busy(k) && Enabled(k, e)
    ensures Busy(Apply(k, e)) && Apply(k, e).ssi == k.ssi
  {
    SsiKept(k, e);
    match e {
      case Receives(f) => ReceiveBusy(k, k.current.value, f);
      case Kills(p) => KillerRuns(k, p);
      case Dies => ScheduleBusy(Killed(k, k.current.value));
      case Ticks => WakeAllCurrent(k); ExitBusy(WakeAll(k));
      case Interrupts(q, n, v) => DeviceBusy(k, q, n, v);
      case Slice => ScheduleBusy(Restored(k, k.current.value).Put(Head(Ready), PList(k.current.value)));
      case _ => RunnerStays(k, e);
    }
  }

  // ---------- runs ----------

  ghost predicate IsRun(k: K, es: seq<Event>)
    decreases |es|
  {
    es == [] || (Enabled(k, es[0]) && IsRun(Apply(k, es[0]), es[1..]))
  }

  ghost function End(k: K, es: seq<Event>): K
    requires IsRun(k, es)
    decreases |es|
  {
    if es == [] then k else End(Apply(k, es[0]), es[1..])
  }

  lemma {:induction false} RunKeeps(k: K, es: seq<Event>)
    requires Inv(k) && Busy(k) && IsRun(k, es)
    ensures Inv(End(k, es)) && Busy(End(k, es)) && End(k, es).ssi == k.ssi
    decreases |es|
  {
    if es != [] {
      StepKeeps(k, es[0]);
      StepBusy(k, es[0]);
      RunKeeps(Apply(k, es[0]), es[1..]);
    }
  }

  /** States the kernel can be in between two steps, from main() on. */
  ghost predicate Reachable(k: K) {
    exists k0: K, es: seq<Event> :: Initial(k0) && IsRun(Schedule(k0), es) && k == End(Schedule(k0), es)
  }

  lemma FirstDispatch(k0: K)
    requires Initial(k0)
    ensures Inv(Schedule(k0)) && Busy(Schedule(k0)) && Schedule(k0).current == Some(0) && Schedule(k0).ssi == 0
  {
    InitialInv(k0);
    ScheduleKeeps(k0);
  }

  /** The invariant of every reachable state: the SSI is process 0, the lists are rings of the right nodes,
      the counters agree with them, and nobody sleeps on a message it has. */
  lemma ReachableInv(k: K)
    requires Reachable(k)
    ensures Inv(k) && Busy(k) && k.ssi == 0
  {
    var k0: K, es: seq<Event> :| Initial(k0) && IsRun(Schedule(k0), es) && k == End(Schedule(k0), es);
    FirstDispatch(k0);
    RunKeeps(Schedule(k0), es);
  }

  /** The first dispatch leads to such a state, so what is said about all of them is about something. */
  lemma SomethingIsReachable(k: K)
    requires k == Schedule(Spawn(Spawn(Cleared())))
    ensures Reachable(k)
  {
    InitialExists();
    FirstIsReachable(Spawn(Spawn(Cleared())));
  }

  lemma FirstIsReachable(k0: K)
    requires Initial(k0)
    ensures Reachable(Schedule(k0))
  {
    var none: seq<Event> := [];
    assert IsRun(Schedule(k0), none) && Schedule(k0) == End(Schedule(k0), none);
  }

  // ---------- a receive is repeated until it succeeds ----------

  /** The step brings p to life. */
  ghost predicate Bears(k: K, e: Event, p: PcbId)
    requires Enabled(k, e)
  {
    e.Creates? && Create(k, e.parent).1 == Some(p)
  }

  lemma WakeAllPending(k: K)
    requires MayTick(k)
    ensures WakeAll(k).pcbs == k.pcbs
    decreases |k.Q(Head(PseudoClock))|
  {
  }

  /** Where p stands: the receive it issues next, and the one its saved state stands at. */
  ghost predicate Stands(k: K, p: PcbId, pending: Option<Filter>, saved: Option<Filter>) {
    true == (k.pcbs[p].pending == pending && k.pcbs[p].saved == saved)
  }

  /** Nothing but p's own receive and the end of its own time slice changes where p stands: whoever wakes p, p issues
      the same receive again. The end of a time slice sends p back to where its saved state stands. */
  lemma PendingKept(k: K, e: Event, p: PcbId)
    requires Enabled(k, e) && !(e.Receives? && k.current == Some(p)) && !Bears(k, e, p)
    ensures var was := k.pcbs[p];
            Stands(Apply(k, e), p, if e.Slice? && k.current == Some(p) then was.saved else was.pending, was.saved)
  {
    match e {
      case Kills(v) => KillRows(k, v, p);
      case Dies => KillRows(k, k.current.value, p); ScheduleRows(Killed(k, k.current.value));
      case Ticks => WakeAllPending(k); ScheduleRows(WakeAll(k));
      case Receives(f) => ReceiveRows(k, f, p);
      case Interrupts(q, n, v) => DeviceRows(k, q, n, v);
      case Slice => ScheduleRows(Restored(k, k.current.value).Put(Head(Ready), PList(k.current.value)));
      case _ => OtherRows(k, e, p);
    }
  }

  lemma ScheduleRows(k: K)
    ensures Schedule(k).pcbs == k.pcbs
  {
  }

  lemma KillRows(k: K, v: PcbId, p: PcbId)
    requires MayKill(k, v)
    ensures Stands(Killed(k, v), p, k.pcbs[p].pending, k.pcbs[p].saved) && Killed(k, v).ssi == k.ssi
  {
    KillGone(k, v);
  }

  lemma ReceiveRows(k: K, f: Filter, p: PcbId)
    requires Enabled(k, Receives(f)) && k.current != Some(p)
    ensures Stands(Apply(k, Receives(f)), p, k.pcbs[p].pending, k.pcbs[p].saved)
  {
  }

  lemma DeviceRows(k: K, q: Queue, n: int, v: int)
    requires MayAnswer(k, q, n)
    ensures DeviceDone(k, q, n, v).pcbs == k.pcbs
  {
  }

  lemma OtherRows(k: K, e: Event, p: PcbId)
    requires Enabled(k, e) && !Bears(k, e, p)
    requires e.Sends? || e.Creates? || e.WaitsClock? || e.DoesIo?
    ensures Stands(Apply(k, e), p, k.pcbs[p].pending, k.pcbs[p].saved)
  {
  }

  /** Whoever is about to issue a receive again slept in that one last. */
  ghost predicate SleptThere(k: K) { forall p: PcbId :: SleptLast(k.pcbs[p]) }

  predicate SleptLast(row: Pcb) { row.pending.Some? ==> row.saved == row.pending }

  lemma StepSleptThere(k: K, e: Event)
    requires Enabled(k, e) && SleptThere(k)
    ensures SleptThere(Apply(k, e))
  {
    forall p: PcbId ensures SleptLast(Apply(k, e).pcbs[p]) {
      if e.Receives? && k.current == Some(p) {
        OwnReceive(k, p, e.filter);
      } else if !Bears(k, e, p) {
        PendingKept(k, e, p);
      }
    }
  }

  lemma OwnReceive(k: K, me: PcbId, f: Filter)
    requires k.current == Some(me)
    ensures SleptLast(Receive(k, me, f).0.pcbs[me])
  {
  }

  lemma {:induction false} RunSleptThere(k: K, es: seq<Event>)
    requires SleptThere(k) && IsRun(k, es)
    ensures SleptThere(End(k, es))
    decreases |es|
  {
    if es != [] {
      StepSleptThere(k, es[0]);
      RunSleptThere(Apply(k, es[0]), es[1..]);
    }
  }

  lemma ReachableSleptThere(k: K)
    requires Reachable(k)
    ensures SleptThere(k)
  {
    var k0: K, es: seq<Event> :| Initial(k0) && IsRun(Schedule(k0), es) && k == End(Schedule(k0), es);
    RunSleptThere(Schedule(k0), es);
  }

  /** So the end of its time slice leaves a process where it was exactly if it was about to repeat a receive; one
      that has gone on since it slept, and slept at all, is sent back to that receive. */
  lemma SliceSendsBack(k: K, p: PcbId)
    requires Reachable(k) && k.current == Some(p) && Enabled(k, Slice)
    ensures Apply(k, Slice).pcbs[p].pending == k.pcbs[p].saved
    ensures Apply(k, Slice).pcbs[p].pending == k.pcbs[p].pending <==> k.pcbs[p].pending.Some? || k.pcbs[p].saved == None
  {
    ReachableSleptThere(k);
    PendingKept(k, Slice, p);
  }

  /** The receive itself either hands over the oldest message that it accepts and is done, or stays pending
      with the process neither running nor queued, and then nothing in the inbox is accepted. */
  lemma ReceiveSettles(k: K, f: Filter)
    requires Inv(k) && Enabled(k, Receives(f))
    ensures var me, k2 := k.current.value, Apply(k, Receives(f));
            match Receive(k, me, f).1
            case Some(m) =>
              && k2.current == Some(me) && Stands(k2, me, None, k.pcbs[me].saved)
              && (f.From? ==> m.sender == Some(f.pcb))
            case None =>
              && Stands(k2, me, Some(f), Some(f)) && NothingFor(k, me, f) && k2.AwaitsMessage(me)
  {
    var me := k.current.value;
    FirstMatchIn(k.pcbs, k.msgs, k.Q(Inbox(me)), f);
    match FirstMatch(k.pcbs, k.msgs, k.Q(Inbox(me)), f) {
      case Some(x) => if f.From? { MatchIsIdentity(k, me, x, f.pcb); }
      case None => SleeperSleeps(k, me, f);
    }
  }

  lemma SleeperSleeps(k: K, me: PcbId, f: Filter)
    requires ListsOk(k) && k.current == Some(me)
    ensures Schedule(SaveAt(k, me, f)).AwaitsMessage(me)
  {
    var q := k.Q(Head(Ready));
    if q != [] { assert q == [q[0]] + q[1..]; assert q[0] in q; }
  }
}
