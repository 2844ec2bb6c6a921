/** Messages between two processes are received in the order in which they were sent. */
module Order {
  import opened Layout
  import opened PcbPool
  import opened Kernel
  import opened Invariant
  import opened Boot
  import opened Mail
  import opened Runs

  /** What s successfully sent to d and what d received from s, since d's PCB was last allocated. */
  datatype Log = Log(sent: seq<int>, got: seq<int>)

  function WithSent(l: Log, b: bool, payload: int): Log {
    if b then l.(sent := l.sent + [payload]) else l
  }

  /** The timer and the devices send in the name of the SSI. */
  ghost function Logged(k: K, e: Event, s: PcbId, d: PcbId, l: Log): Log
    requires Enabled(k, e)
  {
    match e
    case Sends(dest, v) =>
      WithSent(l, dest == d && k.current == Some(s) && Send(k, k.current.value, dest, v).1 == Sent, v)
    case Receives(f) =>
      var r := Receive(k, k.current.value, f).1;
      if k.current == Some(d) && r.Some? && r.value.sender == Some(s) then l.(got := l.got + [r.value.payload]) else l
    case Creates(p) => if Create(k, p).1 == Some(d) then Log([], []) else l
    case Ticks => WithSent(l, s == k.ssi && PList(d) in k.Q(Head(PseudoClock)), 0)
    case Interrupts(q, n, v) => WithSent(l, s == k.ssi && FirstOnDev(k.pcbs, k.Q(Head(q)), n) == Some(d), v)
    case _ => l
  }

  /** What was sent is what was received followed by what is still queued. */
  ghost predicate InOrder(k: K, s: PcbId, d: PcbId, l: Log) {
    l.sent == l.got + InFlight(k, s, d)
  }

  lemma AppendedInOrder(k: K, k2: K, s: PcbId, d: PcbId, l: Log, b: bool, payload: int)
    requires InOrder(k, s, d, l) && InFlight(k2, s, d) == InFlight(k, s, d) + (if b then [payload] else [])
    ensures InOrder(k2, s, d, WithSent(l, b, payload))
  {
    if b {
      assert l.got + (InFlight(k, s, d) + [payload]) == (l.got + InFlight(k, s, d)) + [payload];
    } else {
      assert InFlight(k, s, d) + [] == InFlight(k, s, d);
    }
  }

  lemma SendInOrder(k: K, me: PcbId, dest: PcbId, v: int, s: PcbId, d: PcbId, l: Log)
    requires ListsOk(k) && InOrder(k, s, d, l)
    ensures InOrder(Send(k, me, dest, v).0, s, d,
              WithSent(l, dest == d && me == s && Send(k, me, dest, v).1 == Sent, v))
  {
    SendInFlight(k, me, dest, v, s, d);
    AppendedInOrder(k, Send(k, me, dest, v).0, s, d, l, dest == d && me == s && Send(k, me, dest, v).1 == Sent, v);
  }

  lemma ReceiveInOrder(k: K, f: Filter, s: PcbId, d: PcbId, l: Log)
    requires PidsOk(k) && MessagesOk(k) && InOrder(k, s, d, l) && Enabled(k, Receives(f))
    ensures InOrder(Receive(k, k.current.value, f).0, s, d, Logged(k, Receives(f), s, d, l))
  {
    var me := k.current.value;
    var (k2, r) := Receive(k, me, f);
    ReceiveInFlight(k, me, f, s, d);
    if d == me && r.Some? && r.value.sender == Some(s) {
      assert l.got + ([r.value.payload] + InFlight(k2, s, d)) == (l.got + [r.value.payload]) + InFlight(k2, s, d);
    } else {
      assert [] + InFlight(k2, s, d) == InFlight(k2, s, d);
    }
  }

  lemma TickInOrder(k: K, s: PcbId, d: PcbId, l: Log)
    requires ListsOk(k) && MayTick(k) && InOrder(k, s, d, l)
    ensures InOrder(Tick(k), s, d, WithSent(l, s == k.ssi && PList(d) in k.Q(Head(PseudoClock)), 0))
  {
    WakeAllInFlight(k, s, d);
    ScheduleInFlight(WakeAll(k), s, d);
    AppendedInOrder(k, Tick(k), s, d, l, s == k.ssi && PList(d) in k.Q(Head(PseudoClock)), 0);
  }

  lemma DeviceInOrder(k: K, q: Queue, n: int, v: int, s: PcbId, d: PcbId, l: Log)
    requires ListsOk(k) && q != Ready && MayAnswer(k, q, n) && InOrder(k, s, d, l)
    ensures InOrder(DeviceDone(k, q, n, v), s, d,
              WithSent(l, s == k.ssi && FirstOnDev(k.pcbs, k.Q(Head(q)), n) == Some(d), v))
  {
    DeviceInFlight(k, q, n, v, s, d);
    var sent := s == k.ssi && FirstOnDev(k.pcbs, k.Q(Head(q)), n) == Some(d);
    AppendedInOrder(k, DeviceDone(k, q, n, v), s, d, l, sent, v);
  }

  lemma DeviceInFlight(k: K, q: Queue, n: int, v: int, s: PcbId, d: PcbId)
    requires ListsOk(k) && q != Ready && MayAnswer(k, q, n)
    ensures InFlight(DeviceDone(k, q, n, v), s, d) == InFlight(k, s, d) +
              (if s == k.ssi && FirstOnDev(k.pcbs, k.Q(Head(q)), n) == Some(d) then [v] else [])
  {
    forall x | x in k.Q(Head(q)) ensures x.PList? { assert Fits(Head(q), x); }
    FirstOnDevIn(k.pcbs, k.Q(Head(q)), n);
    match FirstOnDev(k.pcbs, k.Q(Head(q)), n) {
      case None => ScheduleInFlight(k, s, d);
      case Some(p) =>
        WokenInFlight(k, q, p, v, s, d);
        ScheduleInFlight(Woken(k, q, p, v), s, d);
    }
  }

  /** These steps neither send nor receive. */
  lemma QuietInOrder(k: K, e: Event, s: PcbId, d: PcbId, l: Log)
    requires Enabled(k, e) && InOrder(k, s, d, l)
    requires e.Creates? || e.Kills? || e.Dies? || e.WaitsClock? || e.DoesIo? || e.Slice?
    ensures InOrder(Apply(k, e), s, d, Logged(k, e, s, d, l))
  {
    match e {
      case Creates(p) => CreateInFlight(k, p, s, d);
      case Kills(p) => KillInFlight(k, p, s, d);
      case Dies => KillInFlight(k, k.current.value, s, d);
      case WaitsClock(p) =>
      case DoesIo(p, a) => DoIoInFlight(k, p, a, s, d);
      case Slice =>
    }
  }

  lemma StepInOrder(k: K, e: Event, s: PcbId, d: PcbId, l: Log)
    requires ListsOk(k) && PidsOk(k) && MessagesOk(k) && Enabled(k, e) && InOrder(k, s, d, l)
    ensures InOrder(Apply(k, e), s, d, Logged(k, e, s, d, l))
  {
    match e {
      case Sends(dest, v) => SendInOrder(k, k.current.value, dest, v, s, d, l);
      case Receives(f) => ReceiveInOrder(k, f, s, d, l);
      case Ticks => TickInOrder(k, s, d, l);
      case Interrupts(q, n, v) => DeviceInOrder(k, q, n, v, s, d, l);
      case _ => QuietInOrder(k, e, s, d, l);
    }
  }

  /** The log of a whole run. */
  ghost function RunLog(k: K, es: seq<Event>, s: PcbId, d: PcbId, l: Log): Log
    requires IsRun(k, es)
    decreases |es|
  {
    if es == [] then l else RunLog(Apply(k, es[0]), es[1..], s, d, Logged(k, es[0], s, d, l))
  }

  lemma {:induction false} RunInOrder(k: K, es: seq<Event>, s: PcbId, d: PcbId, l: Log)
    requires Inv(k) && IsRun(k, es) && InOrder(k, s, d, l)
    ensures InOrder(End(k, es), s, d, RunLog(k, es, s, d, l))
    decreases |es|
  {
    if es != [] {
      StepKeeps(k, es[0]);
      StepInOrder(k, es[0], s, d, l);
      RunInOrder(Apply(k, es[0]), es[1..], s, d, Logged(k, es[0], s, d, l));
    }
  }

  /** In every run from main() on, whatever mix of receives is used: what d received from s is a prefix of
      what s sent to d, and what is missing from it is in d's inbox, in order. */
  lemma SenderOrder(k0: K, es: seq<Event>, s: PcbId, d: PcbId)
    requires Initial(k0) && IsRun(Schedule(k0), es)
    ensures var l := RunLog(Schedule(k0), es, s, d, Log([], []));
            l.got <= l.sent && l.sent[|l.got|..] == InFlight(End(Schedule(k0), es), s, d)
  {
    FirstDispatch(k0);
    assert InFlight(k0, s, d) == [];
    ScheduleInFlight(k0, s, d);
    RunInOrder(Schedule(k0), es, s, d, Log([], []));
  }
}
