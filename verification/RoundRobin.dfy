/** The ready queue is fair: a ready process is dispatched within as many dispatches as there are
    processes before it, whatever else happens. */
module RoundRobin {
  import opened Layout
  import opened Rings
  import opened PcbPool
  import opened MsgPool
  import opened Kernel
  import opened Invariant
  import opened Terminate
  import opened Subtrees
  import opened Runs
  import Devices

  /** p has i processes before it in the ready queue. */
  ghost predicate At(k: K, p: PcbId, i: nat) {
    i < |k.Q(Head(Ready))| && k.Q(Head(Ready))[i] == PList(p)
  }

  /** The step ends in a call of the scheduler. */
  ghost predicate Schedules(k: K, e: Event)
    requires Enabled(k, e)
  {
    match e
    case Receives(f) => FirstMatch(k.pcbs, k.msgs, k.Q(Inbox(k.current.value)), f) == None
    case Dies => true
    case Slice => true
    case Ticks => k.current == None
    case Interrupts(_, _, _) => k.current == None
    case _ => false
  }

  /** p is where it was or closer to the front; after a dispatch it is closer or it is the one dispatched. */
  ghost predicate Advanced(k2: K, p: PcbId, i: nat, dispatched: bool) {
    || (dispatched && k2.current == Some(p))
    || exists j: nat :: j <= i && (dispatched ==> j < i) && At(k2, p, j)
  }

  /** The queue only got longer. */
  lemma GrownAdvances(k: K, k2: K, p: PcbId, i: nat)
    requires At(k, p, i) && k.Q(Head(Ready)) <= k2.Q(Head(Ready))
    ensures Advanced(k2, p, i, false)
  {
    assert k2.Q(Head(Ready))[i] == k.Q(Head(Ready))[i];
    assert At(k2, p, i);
  }

  lemma ScheduleAdvances(k: K, p: PcbId, i: nat)
    requires At(k, p, i)
    ensures Advanced(Schedule(k), p, i, true)
  {
    if i > 0 {
      assert At(Schedule(k), p, i - 1);
    }
  }

  lemma {:induction false} WithoutAdvances<T>(s: seq<T>, x: T, i: nat) returns (j: nat)
    requires i < |s| && s[i] != x
    ensures j <= i && j < |Without(s, x)| && Without(s, x)[j] == s[i]
  {
    if s[0] == x {
      j := i - 1;
    } else if i == 0 {
      j := 0;
    } else {
      j := WithoutAdvances(s[1..], x, i - 1);
      j := j + 1;
    }
  }

  lemma DoIoAdvances(k: K, c: PcbId, a: int, p: PcbId, i: nat)
    requires At(k, p, i) && c != p && Devices.Decode(a).Some?
    ensures Advanced(DoIo(k, c, a), p, i, false)
  {
    var r := Devices.Decode(a).value;
    Devices.DecodeInvertsCommand(a, r);
    var j := WithoutAdvances(k.Q(Head(Ready)), PList(c), i);
    assert At(DoIo(k, c, a), p, j);
  }

  /** terminateProcess takes nobody out of the ready queue. */
  lemma KillLeavesReady(k: K, v: PcbId)
    requires MayKill(k, v)
    ensures Kill(k, v).Q(Head(Ready)) == k.Q(Head(Ready)) == Killed(k, v).Q(Head(Ready))
  {
    KillGone(k, v);
    var q := k.Q(Head(Ready));
    forall d | d in Progeny(k, v) ensures PList(d) !in q { assert Killable(k, d); }
    SurvivorsNone(q, Progeny(k, v));
  }

  lemma WakeAllGrows(k: K)
    requires MayTick(k)
    ensures k.Q(Head(Ready)) <= WakeAll(k).Q(Head(Ready))
    decreases |k.Q(Head(PseudoClock))|
  {
  }

  lemma ReceiveAdvances(k: K, f: Filter, p: PcbId, i: nat)
    requires At(k, p, i) && Enabled(k, Receives(f))
    ensures Advanced(Apply(k, Receives(f)), p, i, Schedules(k, Receives(f)))
  {
    var me := k.current.value;
    match FirstMatch(k.pcbs, k.msgs, k.Q(Inbox(me)), f) {
      case Some(x) => GrownAdvances(k, Receive(k, me, f).0, p, i);
      case None =>
        var k1 := SaveAt(k, me, f);
        assert At(k1, p, i);
        ScheduleAdvances(k1, p, i);
    }
  }

  lemma InterruptAdvances(k: K, e: Event, p: PcbId, i: nat)
    requires At(k, p, i) && Enabled(k, e) && (e.Ticks? || e.Interrupts?) && k.current.Some?
    ensures Advanced(Apply(k, e), p, i, false)
  {
    if e.Ticks? {
      WakeAllGrows(k);
      WakeAllCurrent(k);
    }
    GrownAdvances(k, Apply(k, e), p, i);
  }

  lemma KillAdvances(k: K, e: Event, p: PcbId, i: nat)
    requires At(k, p, i) && Enabled(k, e) && (e.Kills? || e.Dies?)
    ensures Advanced(Apply(k, e), p, i, e.Dies?)
  {
    var v := if e.Dies? then k.current.value else e.victim;
    KillLeavesReady(k, v);
    assert At(Killed(k, v), p, i);
    if e.Dies? { ScheduleAdvances(Killed(k, v), p, i); }
  }

  lemma SliceAdvances(k: K, p: PcbId, i: nat)
    requires At(k, p, i) && Enabled(k, Slice)
    ensures Advanced(Apply(k, Slice), p, i, true)
  {
    var k1 := Restored(k, k.current.value).Put(Head(Ready), PList(k.current.value));
    assert At(k1, p, i);
    ScheduleAdvances(k1, p, i);
  }

  /** No step moves a ready process back; only its own I/O request takes it out of the queue. */
  lemma StepAdvances(k: K, e: Event, p: PcbId, i: nat)
    requires Busy(k) && Enabled(k, e) && At(k, p, i) && !(e.DoesIo? && e.client == p)
    ensures Advanced(Apply(k, e), p, i, Schedules(k, e))
  {
    match e {
      case Sends(_, _) => GrownAdvances(k, Apply(k, e), p, i);
      case Receives(f) => ReceiveAdvances(k, f, p, i);
      case Creates(_) => GrownAdvances(k, Apply(k, e), p, i);
      case Kills(_) => KillAdvances(k, e, p, i);
      case Dies => KillAdvances(k, e, p, i);
      case WaitsClock(_) => GrownAdvances(k, Apply(k, e), p, i);
      case DoesIo(c, a) => DoIoAdvances(k, c, a, p, i);
      case Ticks => InterruptAdvances(k, e, p, i);
      case Interrupts(_, _, _) => InterruptAdvances(k, e, p, i);
      case Slice => SliceAdvances(k, p, i);
    }
  }

  ghost function Dispatches(k: K, es: seq<Event>): nat
    requires IsRun(k, es)
    decreases |es|
  {
    if es == [] then 0 else (if Schedules(k, es[0]) then 1 else 0) + Dispatches(Apply(k, es[0]), es[1..])
  }

  /** A run that starts with e. */
  lemma OneMore(k: K, es: seq<Event>, n: nat)
    requires es != [] && Enabled(k, es[0]) && n < |es| && IsRun(Apply(k, es[0]), es[1..][..n])
    ensures IsRun(k, es[..n+1]) && End(k, es[..n+1]) == End(Apply(k, es[0]), es[1..][..n])
    ensures Dispatches(k, es[..n+1]) ==
      (if Schedules(k, es[0]) then 1 else 0) + Dispatches(Apply(k, es[0]), es[1..][..n])
  {
    assert es[..n+1][1..] == es[1..][..n] && es[..n+1][0] == es[0];
  }

  /** Either the first step dispatches p, or p is at j afterwards. */
  lemma FirstStep(k: K, es: seq<Event>, p: PcbId, i: nat) returns (k2: K, ran: bool, j: nat)
    requires Inv(k) && Busy(k) && IsRun(k, es) && At(k, p, i) && es != []
    requires !(es[0].DoesIo? && es[0].client == p)
    ensures k2 == Apply(k, es[0]) && IsRun(k2, es[1..]) && Inv(k2) && Busy(k2)
    ensures Dispatches(k, es) == (if Schedules(k, es[0]) then 1 else 0) + Dispatches(k2, es[1..])
    ensures if ran then Schedules(k, es[0]) && k2.current == Some(p)
            else j <= i && (Schedules(k, es[0]) ==> j < i) && At(k2, p, j)
  {
    k2 := Apply(k, es[0]);
    StepKeeps(k, es[0]);
    StepBusy(k, es[0]);
    StepAdvances(k, es[0], p, i);
    ran, j := Schedules(k, es[0]) && k2.current == Some(p), 0;
    if !ran {
      j :| j <= i && (Schedules(k, es[0]) ==> j < i) && At(k2, p, j);
    }
  }

  lemma {:induction false} DispatchedInTurn(k: K, es: seq<Event>, p: PcbId, i: nat) returns (n: nat)
    requires Inv(k) && Busy(k) && IsRun(k, es) && At(k, p, i)
    requires forall e | e in es :: !(e.DoesIo? && e.client == p)
    requires Dispatches(k, es) > i
    ensures RunsAfter(k, es, n, p, i + 1)
    decreases |es|
  {
    var k2, ran, j := FirstStep(k, es, p, i);
    if ran {
      RunsNow(k2, es[1..], p);
      Before(k, es, k2, 0, p, 0, i + 1);
      n := 1;
    } else {
      n := DispatchedInTurn(k2, es[1..], p, j);
      Before(k, es, k2, n, p, j + 1, i + 1);
      n := n + 1;
    }
  }

  /** After the first n events p runs, and the scheduler has been called at most so often. */
  ghost predicate RunsAfter(k: K, es: seq<Event>, n: nat, p: PcbId, calls: nat) {
    true == (n <= |es| && IsRun(k, es[..n]) && End(k, es[..n]).current == Some(p) && Dispatches(k, es[..n]) <= calls)
  }

  lemma RunsNow(k: K, es: seq<Event>, p: PcbId)
    requires k.current == Some(p)
    ensures RunsAfter(k, es, 0, p, 0)
  {
    assert es[..0] == [];
  }

  lemma Before(k: K, es: seq<Event>, k2: K, n: nat, p: PcbId, calls: nat, bound: nat)
    requires es != [] && Enabled(k, es[0]) && k2 == Apply(k, es[0]) && RunsAfter(k2, es[1..], n, p, calls)
    requires calls + (if Schedules(k, es[0]) then 1 else 0) <= bound
    ensures RunsAfter(k, es, n + 1, p, bound)
  {
    OneMore(k, es, n);
  }

  /** A process with i others before it in the ready queue runs after at most i + 1 calls of the scheduler,
      fewer than there are rows in the table, unless an I/O request of its own takes it out of the queue. */
  lemma RoundRobinBound(k: K, es: seq<Event>, p: PcbId, i: nat)
    requires Reachable(k) && IsRun(k, es) && At(k, p, i)
    requires forall e | e in es :: !(e.DoesIo? && e.client == p)
    requires Dispatches(k, es) > i
    ensures exists n: nat :: n <= |es| && IsRun(k, es[..n]) && End(k, es[..n]).current == Some(p)
              && Dispatches(k, es[..n]) <= i + 1
    ensures i + 1 < MAXPROC
  {
    ReachableInv(k);
    var n := DispatchedInTurn(k, es, p, i);
    ReadyIsShort(k);
  }

  /** The running process is not ready, so the ready queue is shorter than the table. */
  lemma ReadyIsShort(k: K)
    requires ListsOk(k) && Busy(k)
    ensures |k.Q(Head(Ready))| < MAXPROC
  {
    if k.current.Some? {
      var s := k.Q(Head(Ready)) + [PList(k.current.value)];
      forall x | x in s ensures x.PList? && x.pcb < MAXPROC {
        if x in k.Q(Head(Ready)) { assert Fits(Head(Ready), x); }
      }
      AtMostTheTable(s, MAXPROC);
    }
  }
}
