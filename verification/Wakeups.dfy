/** Blocked processes: for which interrupt the requester of a device and that of the clock wait, that it wakes them
    with its status, and that nothing else does. */
module Wakeups {
  import opened Layout
  import opened Rings
  import opened PcbPool
  import opened Kernel
  import opened Invariant
  import opened Terminate
  import opened Subtrees
  import opened Mail
  import opened Runs
  import Devices
  import Order
  import Replies

  // ---------- what each step does to a queue of blocked processes ----------

  ghost function Moved(k: K, e: Event, q: Queue): seq<Addr>
    requires Enabled(k, e)
  {
    var s := k.Q(Head(q));
    match e
    case WaitsClock(c) => if q == PseudoClock then s + [PList(c)] else s
    case DoesIo(c, a) => if Devices.Decode(a).value.queue == q then s + [PList(c)] else s
    case Ticks => if q == PseudoClock then [] else s
    case Interrupts(r, n, _) =>
      var first := FirstOnDev(k.pcbs, s, n);
      if r == q && first.Some? then Without(s, PList(first.value)) else s
    case Kills(v) => Survivors(s, Progeny(k, v))
    case Dies => Survivors(s, Progeny(k, k.current.value))
    case _ => s
  }

  lemma QueueMoves(k: K, e: Event, q: Queue)
    requires Enabled(k, e) && q != Ready
    ensures Apply(k, e).Q(Head(q)) == Moved(k, e, q)
  {
    if e.Kills? || e.Dies? { KillMoves(k, e, q); }
    else if e.Ticks? { WakeAllMoves(k, q); }
    else if e.DoesIo? { IoMoves(k, e.client, e.command, q); }
    else if e.Interrupts? { DeviceMoves(k, e, q); }
    else { OthersMove(k, e, q); }
  }

  lemma KillMoves(k: K, e: Event, q: Queue)
    requires Enabled(k, e) && q != Ready && (e.Kills? || e.Dies?)
    ensures Apply(k, e).Q(Head(q)) == Moved(k, e, q)
  {
    KilledQueues(k, if e.Kills? then e.victim else k.current.value, q);
  }

  lemma KilledQueues(k: K, v: PcbId, q: Queue)
    requires MayKill(k, v)
    ensures Killed(k, v).Q(Head(q)) == Survivors(k.Q(Head(q)), Progeny(k, v))
  {
    KillGone(k, v);
  }

  lemma DeviceMoves(k: K, e: Event, q: Queue)
    requires Enabled(k, e) && q != Ready && e.Interrupts?
    ensures Apply(k, e).Q(Head(q)) == Moved(k, e, q)
  {
  }

  lemma IoMoves(k: K, c: PcbId, a: int, q: Queue)
    requires Enabled(k, DoesIo(c, a)) && q != Ready
    ensures Apply(k, DoesIo(c, a)).Q(Head(q)) == Moved(k, DoesIo(c, a), q)
  {
    Devices.DecodeInvertsCommand(a, Devices.Decode(a).value);
  }

  lemma OthersMove(k: K, e: Event, q: Queue)
    requires Enabled(k, e) && q != Ready && !e.Kills? && !e.Dies? && !e.Ticks? && !e.DoesIo? && !e.Interrupts?
    ensures Apply(k, e).Q(Head(q)) == Moved(k, e, q)
  {
  }

  /** The timer empties the queue of the clock, and no other. */
  lemma {:induction false} WakeAllMoves(k: K, q: Queue)
    requires MayTick(k) && q != Ready
    ensures WakeAll(k).Q(Head(q)) == if q == PseudoClock then [] else k.Q(Head(q))
    ensures Tick(k).Q(Head(q)) == WakeAll(k).Q(Head(q))
    decreases |k.Q(Head(PseudoClock))|
  {
    var s := k.Q(Head(PseudoClock));
    if s != [] {
      WakeAllMoves(Reply(k.Take(Head(PseudoClock), s[0]), PcbOf(s[0]), 0), q);
    }
  }

  /** p is blocked on q, and this interrupt takes it off. */
  ghost predicate Wakes(k: K, e: Event, p: PcbId, q: Queue) {
    || (e.Ticks? && q == PseudoClock)
    || (e.Interrupts? && e.queue == q && FirstOnDev(k.pcbs, k.Q(Head(q)), e.devNo) == Some(p))
  }

  /** p is on queue q, and has these messages of the SSI in its inbox. */
  ghost predicate BlockedOn(k: K, p: PcbId, q: Queue, mail: seq<int>) {
    true == (q != Ready && PList(p) in k.Q(Head(q)) && InFlight(k, k.ssi, p) == mail)
  }

  /** No blocked queue has p; it runs or is ready, and has these messages of the SSI. */
  ghost predicate Up(k: K, p: PcbId, mail: seq<int>) {
    true == (
      && (forall q: Queue | q != Ready :: PList(p) !in k.Q(Head(q)))
      && (k.current == Some(p) || PList(p) in k.Q(Head(Ready)))
      && InFlight(k, k.ssi, p) == mail)
  }

  /** No other step takes a living process off its queue, or gives it a message of the SSI. */
  lemma StaysBlocked(k: K, e: Event, p: PcbId, q: Queue, mail: seq<int>)
    requires ListsOk(k) && PidsOk(k) && MessagesOk(k) && Enabled(k, e) && Replies.Survives(k, e, p)
    requires BlockedOn(k, p, q, mail) && !Wakes(k, e, p, q)
    ensures BlockedOn(Apply(k, e), p, q, mail)
  {
    StaysQueued(k, e, p, q);
    HearsNothing(k, e, p, q);
    SsiKept(k, e);
  }

  lemma StaysQueued(k: K, e: Event, p: PcbId, q: Queue)
    requires Enabled(k, e) && Replies.Survives(k, e, p)
    requires q != Ready && PList(p) in k.Q(Head(q)) && !Wakes(k, e, p, q)
    ensures PList(p) in Apply(k, e).Q(Head(q))
  {
    QueueMoves(k, e, q);
    match e {
      case Kills(v) => SurvivorsMembers(k.Q(Head(q)), Progeny(k, v));
      case Dies => SurvivorsMembers(k.Q(Head(q)), Progeny(k, k.current.value));
      case Interrupts(_, n, _) =>
        var first := FirstOnDev(k.pcbs, k.Q(Head(q)), n);
        if first.Some? && first != Some(p) { WithoutOther(k.Q(Head(q)), PList(first.value), PList(p)); }
      case _ =>
    }
  }

  lemma {:induction false} WithoutOther<T>(s: seq<T>, x: T, y: T)
    requires y in s && y != x
    ensures y in Without(s, x)
  {
    if s[0] != x && s[0] != y { WithoutOther(s[1..], x, y); }
  }

  lemma HearsNothing(k: K, e: Event, p: PcbId, q: Queue)
    requires ListsOk(k) && PidsOk(k) && MessagesOk(k) && Enabled(k, e) && Replies.Survives(k, e, p)
    requires q != Ready && PList(p) in k.Q(Head(q)) && !Wakes(k, e, p, q)
    ensures InFlight(Apply(k, e), k.ssi, p) == InFlight(k, k.ssi, p)
  {
    BlockedIsAlive(k, q, p);
    if e.Sends? || e.Receives? { OthersTalk(k, e, p); }
    else if e.Creates? { NotTheChild(k, e.parent, p); }
    else if e.Kills? || e.Dies? { OthersDie(k, e, p); }
    else if e.Ticks? { OthersTick(k, p); }
    else if e.Interrupts? { OtherInterrupt(k, e, p, q); }
    else { NobodyTalks(k, e, p); }
  }

  lemma OthersTalk(k: K, e: Event, p: PcbId)
    requires ListsOk(k) && PidsOk(k) && MessagesOk(k) && Enabled(k, e) && (e.Sends? || e.Receives?)
    requires k.SoftBlocked(p) && k.current != Some(p)
    ensures InFlight(Apply(k, e), k.ssi, p) == InFlight(k, k.ssi, p)
  {
    if e.Sends? {
      SendInFlight(k, k.current.value, e.dest, e.payload, k.ssi, p);
    } else {
      ReceiveInFlight(k, k.current.value, e.filter, k.ssi, p);
    }
  }

  lemma OthersDie(k: K, e: Event, p: PcbId)
    requires Enabled(k, e) && (e.Kills? || e.Dies?)
    ensures InFlight(Apply(k, e), k.ssi, p) == InFlight(k, k.ssi, p)
  {
    KillInFlight(k, if e.Kills? then e.victim else k.current.value, k.ssi, p);
  }

  lemma OthersTick(k: K, p: PcbId)
    requires ListsOk(k) && MayTick(k) && PList(p) !in k.Q(Head(PseudoClock))
    ensures InFlight(Tick(k), k.ssi, p) == InFlight(k, k.ssi, p)
  {
    WakeAllInFlight(k, k.ssi, p);
    ScheduleInFlight(WakeAll(k), k.ssi, p);
  }

  lemma NobodyTalks(k: K, e: Event, p: PcbId)
    requires Enabled(k, e) && (e.WaitsClock? || e.DoesIo? || e.Slice?)
    ensures InFlight(Apply(k, e), k.ssi, p) == InFlight(k, k.ssi, p)
  {
    if e.DoesIo? { DoIoInFlight(k, e.client, e.command, k.ssi, p); }
  }

  lemma NotTheChild(k: K, parent: PcbId, p: PcbId)
    requires ListsOk(k) && k.Live(p)
    ensures InFlight(Create(k, parent).0, k.ssi, p) == InFlight(k, k.ssi, p)
  {
    CreateInFlight(k, parent, k.ssi, p);
    if k.Q(PcbFree) != [] {
      assert k.Q(PcbFree)[0] in k.Q(PcbFree) && Fits(PcbFree, k.Q(PcbFree)[0]);
    }
  }

  lemma OtherInterrupt(k: K, e: Event, p: PcbId, q: Queue)
    requires ListsOk(k) && Enabled(k, e) && e.Interrupts?
    requires q != Ready && PList(p) in k.Q(Head(q)) && !Wakes(k, e, p, q)
    ensures InFlight(Apply(k, e), k.ssi, p) == InFlight(k, k.ssi, p)
  {
    Order.DeviceInFlight(k, e.queue, e.devNo, e.status, k.ssi, p);
    FirstIsQueued(k, e.queue, e.devNo);
    BlockedIsAlive(k, q, p);
  }

  lemma FirstIsQueued(k: K, q: Queue, n: int)
    requires ListsOk(k)
    ensures var first := FirstOnDev(k.pcbs, k.Q(Head(q)), n); first.Some? ==> PList(first.value) in k.Q(Head(q))
  {
    forall x | x in k.Q(Head(q)) ensures x.PList? { assert Fits(Head(q), x); }
    FirstOnDevIn(k.pcbs, k.Q(Head(q)), n);
  }

  // ---------- what wakes it ----------

  /** The timer puts all that wait for the clock on the ready queue, in their order. */
  lemma {:induction false} ClockReadies(k: K)
    requires ListsOk(k) && MayTick(k)
    ensures WakeAll(k).Q(Head(Ready)) == k.Q(Head(Ready)) + k.Q(Head(PseudoClock))
    decreases |k.Q(Head(PseudoClock))|
  {
    if k.Q(Head(PseudoClock)) != [] {
      var k1 := FirstReadies(k);
      ClockReadies(k1);
    }
  }

  lemma FirstReadies(k: K) returns (k1: K)
    requires ListsOk(k) && MayTick(k) && k.Q(Head(PseudoClock)) != []
    ensures ListsOk(k1) && MayTick(k1) && WakeAll(k1) == WakeAll(k)
    ensures k1.Q(Head(PseudoClock)) == k.Q(Head(PseudoClock))[1..]
    ensures k1.Q(Head(Ready)) + k1.Q(Head(PseudoClock)) == k.Q(Head(Ready)) + k.Q(Head(PseudoClock))
  {
    var s, p := k.Q(Head(PseudoClock)), PcbOf(k.Q(Head(PseudoClock))[0]);
    FirstWaiter(k, 0);
    WakeAllStep(k, p);
    WokenLists(k, PseudoClock, p, 0);
    WokenQueues(k, p);
    Regroup(k.Q(Head(Ready)), s);
    k1 := Woken(k, PseudoClock, p, 0);
  }

  lemma WokenQueues(k: K, p: PcbId)
    requires MayWake(k, PseudoClock, p)
    ensures var k1 := Woken(k, PseudoClock, p, 0);
            && k1.Q(Head(Ready)) == k.Q(Head(Ready)) + [PList(p)]
            && k1.Q(Head(PseudoClock)) == Without(k.Q(Head(PseudoClock)), PList(p))
  {
  }

  lemma Regroup<T>(s: seq<T>, t: seq<T>)
    requires t != []
    ensures (s + [t[0]]) + t[1..] == s + t
  {
  }

  lemma TickWakes(k: K, p: PcbId, mail: seq<int>)
    requires ListsOk(k) && MayTick(k) && BlockedOn(k, p, PseudoClock, mail)
    ensures Up(Tick(k), p, mail + [0])
  {
    BlockedIsAlive(k, PseudoClock, p);
    forall q: Queue | q != Ready ensures PList(p) !in Tick(k).Q(Head(q)) { WakeAllMoves(k, q); }
    ClockReadies(k);
    WakeAllInFlight(k, k.ssi, p);
    ScheduleInFlight(WakeAll(k), k.ssi, p);
    WakeAllCurrent(k);
    ReadyRuns(WakeAll(k), p);
  }

  /** Who is ready before an interrupt handler returns runs or is ready after it. */
  lemma ReadyRuns(k: K, p: PcbId)
    requires PList(p) in k.Q(Head(Ready))
    ensures ExitInterrupt(k).current == Some(p) || PList(p) in ExitInterrupt(k).Q(Head(Ready))
  {
    var s := k.Q(Head(Ready));
    assert s == [s[0]] + s[1..];
  }

  lemma InterruptWakes(k: K, p: PcbId, q: Queue, n: int, v: int, mail: seq<int>)
    requires ListsOk(k) && Enabled(k, Interrupts(q, n, v)) && BlockedOn(k, p, q, mail)
    requires FirstOnDev(k.pcbs, k.Q(Head(q)), n) == Some(p)
    ensures Up(DeviceDone(k, q, n, v), p, mail + [v])
  {
    BlockedIsAlive(k, q, p);
    WithoutMembers(k.rings[Head(q)], PList(p));
    forall r: Queue | r != Ready ensures PList(p) !in DeviceDone(k, q, n, v).Q(Head(r)) {
      DeviceMoves(k, Interrupts(q, n, v), r);
    }
    Order.DeviceInFlight(k, q, n, v, k.ssi, p);
    ReadyRuns(Woken(k, q, p, v), p);
  }
}
