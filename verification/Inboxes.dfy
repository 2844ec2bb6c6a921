/** Who has messages in an inbox, and how each step changes that. */
module Inboxes {
  import opened Layout
  import opened Rings
  import opened PcbPool
  import opened MsgPool
  import opened Kernel
  import opened Invariant
  import opened Subtrees
  import opened Mail
  import opened Runs
  import Order
  import Replies

  /** The senders of the messages in a queue. */
  function SendersOf(msgs: MsgRows, q: seq<Addr>): seq<Option<PcbId>> {
    if q == [] then [] else [msgs[MsgOf(q[0])].sender] + SendersOf(msgs, q[1..])
  }

  function Senders(k: K, d: PcbId): seq<Option<PcbId>> { SendersOf(k.msgs, k.Q(Inbox(d))) }

  lemma {:induction false} SendersAppend(msgs: MsgRows, q: seq<Addr>, x: Addr)
    ensures SendersOf(msgs, q + [x]) == SendersOf(msgs, q) + [msgs[MsgOf(x)].sender]
  {
    if q != [] {
      assert (q + [x])[1..] == q[1..] + [x];
      SendersAppend(msgs, q[1..], x);
    } else {
      assert q + [x] == [x] && [x][1..] == [];
    }
  }

  lemma {:induction false} SendersFrame(msgs: MsgRows, msgs2: MsgRows, q: seq<Addr>)
    requires forall x | x in q :: msgs2[MsgOf(x)] == msgs[MsgOf(x)]
    ensures SendersOf(msgs2, q) == SendersOf(msgs, q)
  {
    if q != [] {
      assert q[0] in q;
      SendersFrame(msgs, msgs2, q[1..]);
    }
  }

  /** A receive takes the first message of all, or the first of its sender. */
  lemma {:induction false} SendersTake(pcbs: PcbRows, msgs: MsgRows, q: seq<Addr>, f: Filter, x: Addr)
    requires FirstMatch(pcbs, msgs, q, f) == Some(x)
    requires f.From? ==> forall y | y in q :: Matches(pcbs, msgs, y, f) <==> msgs[MsgOf(y)].sender == Some(f.pcb)
    ensures SendersOf(msgs, Without(q, x)) == Without(SendersOf(msgs, q), msgs[MsgOf(x)].sender)
    ensures f == Any ==> x == q[0]
    ensures f.From? ==> msgs[MsgOf(x)].sender == Some(f.pcb)
    ensures msgs[MsgOf(x)].sender in SendersOf(msgs, q)
  {
    assert q[0] in q;
    FirstMatchIn(pcbs, msgs, q, f);
    if q[0] != x {
      SendersTake(pcbs, msgs, q[1..], f, x);
      assert msgs[MsgOf(q[0])].sender != Some(f.pcb);
    } else {
      assert SendersOf(msgs, q)[1..] == SendersOf(msgs, q[1..]);
    }
  }

  /** One message x is appended to the inbox of d0, and no other queued message is written. */
  lemma AppendedSenders(k: K, k2: K, d0: PcbId, x: Addr, m: Msg, d: PcbId)
    requires forall e: PcbId :: k2.Q(Inbox(e)) == if e == d0 then k.Q(Inbox(e)) + [x] else k.Q(Inbox(e))
    requires k2.msgs[MsgOf(x)] == m
    requires forall e: PcbId, y | y in k.Q(Inbox(e)) :: k2.msgs[MsgOf(y)] == k.msgs[MsgOf(y)]
    ensures Senders(k2, d) == Senders(k, d) + (if d == d0 then [m.sender] else [])
  {
    SendersFrame(k.msgs, k2.msgs, k.Q(Inbox(d)));
    SendersAppend(k2.msgs, k.Q(Inbox(d)), x);
  }

  lemma SendSenders(k: K, me: PcbId, dest: PcbId, v: int, d: PcbId)
    requires ListsOk(k)
    ensures var (k2, r) := Send(k, me, dest, v);
            Senders(k2, d) == Senders(k, d) + (if r == Sent && d == dest then [Some(me)] else [])
  {
    if k.Q(MsgFree) != [] {
      var m := Msg(Some(me), v);
      FilledMail(k, m);
      if k.Live(dest) {
        AppendedSenders(k, Send(k, me, dest, v).0, dest, k.Q(MsgFree)[0], m, d);
      } else {
        SendersFrame(k.msgs, Filled(k, m).0.msgs, k.Q(Inbox(d)));
      }
    }
  }

  lemma ReceiveSenders(k: K, me: PcbId, f: Filter, d: PcbId)
    requires PidsOk(k) && MessagesOk(k)
    ensures var (k2, r) := Receive(k, me, f);
            && (d != me || r == None ==> Senders(k2, d) == Senders(k, d))
            && (r.Some? ==>
                  && r.value.sender.Some? && r.value.sender in Senders(k, me)
                  && Senders(k2, me) == Without(Senders(k, me), r.value.sender)
                  && (f == Any ==> Senders(k, me) == [r.value.sender] + Senders(k2, me))
                  && (f.From? ==> r.value.sender == Some(f.pcb)))
  {
    var q := k.Q(Inbox(me));
    match FirstMatch(k.pcbs, k.msgs, q, f) {
      case Some(x) => TakenSenders(k, me, f, x);
      case None =>
    }
  }

  lemma TakenSenders(k: K, me: PcbId, f: Filter, x: Addr)
    requires PidsOk(k) && MessagesOk(k) && FirstMatch(k.pcbs, k.msgs, k.Q(Inbox(me)), f) == Some(x)
    ensures var s, t := k.msgs[MsgOf(x)].sender, SendersOf(k.msgs, Without(k.Q(Inbox(me)), x));
            && s.Some? && s in Senders(k, me) && t == Without(Senders(k, me), s)
            && (f == Any ==> Senders(k, me) == [s] + t) && (f.From? ==> s == Some(f.pcb))
  {
    var q := k.Q(Inbox(me));
    if f.From? {
      forall y | y in q ensures Matches(k.pcbs, k.msgs, y, f) <==> k.msgs[MsgOf(y)].sender == Some(f.pcb) {
        MatchIsIdentity(k, me, y, f.pcb);
      }
    }
    FirstMatchIn(k.pcbs, k.msgs, q, f);
    SendersTake(k.pcbs, k.msgs, q, f, x);
  }

  lemma WokenSenders(k: K, q: Queue, p: PcbId, v: int, d: PcbId)
    requires ListsOk(k) && MayWake(k, q, p) && p != d
    ensures Senders(Woken(k, q, p, v), d) == Senders(k, d)
  {
    var m := Msg(Some(k.ssi), v);
    FilledMail(k, m);
    AppendedSenders(k, Woken(k, q, p, v), p, k.Q(MsgFree)[0], m, d);
  }

  lemma {:induction false} WakeAllSenders(k: K, d: PcbId)
    requires ListsOk(k) && MayTick(k) && !k.SoftBlocked(d)
    ensures Senders(WakeAll(k), d) == Senders(k, d)
    decreases |k.Q(Head(PseudoClock))|
  {
    if k.Q(Head(PseudoClock)) != [] {
      var k1 := WakeOneSenders(k, d);
      WakeAllSenders(k1, d);
    }
  }

  lemma WakeOneSenders(k: K, d: PcbId) returns (k1: K)
    requires ListsOk(k) && MayTick(k) && k.Q(Head(PseudoClock)) != [] && !k.SoftBlocked(d)
    ensures ListsOk(k1) && MayTick(k1) && WakeAll(k1) == WakeAll(k) && !k1.SoftBlocked(d)
    ensures |k1.Q(Head(PseudoClock))| < |k.Q(Head(PseudoClock))|
    ensures Senders(k1, d) == Senders(k, d)
  {
    FirstWaiter(k, d);
    var p := PcbOf(k.Q(Head(PseudoClock))[0]);
    assert PList(p) in k.Q(Head(PseudoClock));
    k1 := Woken(k, PseudoClock, p, 0);
    WakeAllStep(k, p);
    WokenLists(k, PseudoClock, p, 0);
    WokenSenders(k, PseudoClock, p, 0, d);
    Replies.WokenBlocked(k, PseudoClock, p, 0, d);
  }

  lemma DeviceSenders(k: K, q: Queue, n: int, v: int, d: PcbId)
    requires ListsOk(k) && q != Ready && MayAnswer(k, q, n) && !k.SoftBlocked(d)
    ensures Senders(DeviceDone(k, q, n, v), d) == Senders(k, d)
  {
    forall x | x in k.Q(Head(q)) ensures x.PList? { assert Fits(Head(q), x); }
    FirstOnDevIn(k.pcbs, k.Q(Head(q)), n);
    match FirstOnDev(k.pcbs, k.Q(Head(q)), n) {
      case None =>
      case Some(p) => WokenSenders(k, q, p, v, d);
    }
  }

  /** Steps that neither send nor receive leave d's inbox alone, as long as d waits for no device and no clock. */
  lemma QuietSenders(k: K, e: Event, d: PcbId)
    requires ListsOk(k) && Enabled(k, e) && k.Live(d) && !k.SoftBlocked(d) && !e.Sends? && !e.Receives?
    ensures Senders(Apply(k, e), d) == Senders(k, d)
  {
    match e {
      case Creates(p) => CreateSenders(k, p, d);
      case Kills(v) => KillSenders(k, v, d);
      case Dies => KillSenders(k, k.current.value, d); ScheduleSenders(Killed(k, k.current.value), d);
      case Ticks => WakeAllSenders(k, d); ScheduleSenders(WakeAll(k), d);
      case Interrupts(q, n, v) => DeviceSenders(k, q, n, v, d);
      case _ => MoveSenders(k, e, d);
    }
  }

  lemma ScheduleSenders(k: K, d: PcbId)
    ensures Senders(Schedule(k), d) == Senders(k, d)
  {
  }

  lemma KillSenders(k: K, v: PcbId, d: PcbId)
    requires MayKill(k, v)
    ensures Senders(Killed(k, v), d) == Senders(k, d)
  {
    KillGone(k, v);
  }

  lemma MoveSenders(k: K, e: Event, d: PcbId)
    requires Enabled(k, e) && (e.WaitsClock? || e.DoesIo? || e.Slice?)
    ensures Senders(Apply(k, e), d) == Senders(k, d)
  {
  }

  lemma CreateSenders(k: K, parent: PcbId, d: PcbId)
    requires ListsOk(k) && k.Live(d)
    ensures Senders(Create(k, parent).0, d) == Senders(k, d)
  {
    if k.Q(PcbFree) != [] {
      assert k.Q(PcbFree)[0] in k.Q(PcbFree) && Fits(PcbFree, k.Q(PcbFree)[0]);
    }
  }

  lemma ChildWasFree(k: K, parent: PcbId)
    requires ListsOk(k)
    ensures var r := Create(k, parent).1; r.Some? ==> !k.Live(r.value)
  {
    if k.Q(PcbFree) != [] {
      assert k.Q(PcbFree)[0] in k.Q(PcbFree) && Fits(PcbFree, k.Q(PcbFree)[0]);
    }
  }

  lemma TickInFlight(k: K, s: PcbId, d: PcbId)
    requires ListsOk(k) && Enabled(k, Ticks) && s != k.ssi
    ensures InFlight(Apply(k, Ticks), s, d) == InFlight(k, s, d)
  {
    WakeAllInFlight(k, s, d);
    ScheduleInFlight(WakeAll(k), s, d);
  }

  /** They send nothing in the name of anybody but the SSI; a PCB that is reused gets an empty inbox. */
  lemma QuietInFlight(k: K, e: Event, s: PcbId, d: PcbId)
    requires ListsOk(k) && Enabled(k, e) && s != k.ssi && !e.Sends? && !e.Receives?
    ensures InFlight(Apply(k, e), s, d) == InFlight(k, s, d) || (!k.Live(d) && InFlight(Apply(k, e), s, d) == [])
  {
    match e {
      case Creates(p) => CreateInFlight(k, p, s, d); ChildWasFree(k, p);
      case Kills(v) => KillInFlight(k, v, s, d);
      case Dies => KillInFlight(k, k.current.value, s, d);
      case WaitsClock(_) =>
      case DoesIo(c, a) => DoIoInFlight(k, c, a, s, d);
      case Ticks => TickInFlight(k, s, d);
      case Interrupts(q, n, v) => Order.DeviceInFlight(k, q, n, v, s, d);
      case Slice =>
    }
  }

  /** A process that asks for no device and no clock is never blocked on one. */
  lemma StaysUnblocked(k: K, e: Event, d: PcbId)
    requires Inv(k) && Enabled(k, e) && d != k.ssi && k.Live(d) && !k.SoftBlocked(d) && Replies.Survives(k, e, d)
    requires !(e.WaitsClock? && e.waiter == d) && !(e.DoesIo? && e.client == d)
    ensures !Apply(k, e).SoftBlocked(d)
  {
    assert Replies.Blocked(k, d) == 0;
    match e {
      case Sends(_, _) => Replies.SendShifts(k, e, d);
      case Receives(_) => Replies.ReceiveShifts(k, e, d);
      case Creates(p) => Replies.CreateShifts(k, p, d);
      case Kills(v) => Replies.KillShifts(k, v, d);
      case Dies => Replies.KillShifts(k, k.current.value, d); Replies.ScheduleShifts(Killed(k, k.current.value), d);
      case WaitsClock(c) => Replies.ClockShifts(k, c, d);
      case DoesIo(c, a) => Replies.DoIoShifts(k, c, a, d);
      case _ => Replies.InterruptTrades(k, e, d);
    }
    assert Replies.Blocked(Apply(k, e), d) == 0;
  }
}
