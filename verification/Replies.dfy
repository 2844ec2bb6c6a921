/** The SSI loop and its clients: every request is answered exactly once. */
module Replies {
  import opened Layout
  import opened Rings
  import opened PcbPool
  import opened MsgPool
  import opened Kernel
  import opened Invariant
  import opened Terminate
  import opened Subtrees
  import opened Mail
  import opened Runs
  import Devices

  const NOPROC := -1
  const MSGNOGOOD := -1

  /** What a client asks for. Value stands for the three services that only read a field. */
  datatype Request =
    | CreateProcess
    | TermProcess(target: Option<PcbId>)
    | DoIO(command: int)
    | ClockWait
    | Value(value: int)
    | Unknown

  /** What serving it does. */
  function Effect(r: Request, client: PcbId): Option<Event> {
    match r
    case CreateProcess => Some(Creates(client))
    case TermProcess(t) => Some(Kills(if t == None then client else t.value))
    case DoIO(a) => Some(DoesIo(client, a))
    case ClockWait => Some(WaitsClock(client))
    case Value(_) => None
    case Unknown => Some(Kills(client))
  }

  /** What SSIRequest returns; a process is named by its row, which is never NOPROC. */
  function Result(k: K, r: Request, client: PcbId): int {
    match r
    case CreateProcess => (match Create(k, client).1 case Some(c) => c case None => NOPROC)
    case TermProcess(_) => 0
    case DoIO(_) => NOPROC
    case ClockWait => NOPROC
    case Value(v) => v
    case Unknown => MSGNOGOOD
  }

  /** Where the SSI is in its loop. */
  datatype Phase = Listening | Serving(client: PcbId) | Replying(client: PcbId, result: int)

  /** Serves is the call of SSIRequest; everything else is a step of the nucleus. */
  datatype Step = Plain(event: Event) | Serves(request: Request)

  /** The nucleus, the loop, and what one process p has asked, got, and will never get. */
  datatype Talk = Talk(k: K, phase: Phase, asked: nat, answered: nat, failed: nat)

  predicate IsInterrupt(e: Event) {
    e.Ticks? || e.Interrupts? || e.Slice?
  }

  /** What the SSI does when it runs, apart from serving. */
  ghost predicate SsiMay(ph: Phase, e: Event) {
    match ph
    case Listening => IsInterrupt(e) || e == Receives(Any)
    case Serving(_) => IsInterrupt(e)
    case Replying(c, v) => IsInterrupt(e) || e == Sends(c, v)
  }

  ghost predicate Survives(k: K, e: Event, p: PcbId)
    requires Enabled(k, e)
  {
    match e
    case Kills(v) => p !in Progeny(k, v)
    case Dies => p !in Progeny(k, k.current.value)
    case _ => true
  }

  /** p lives on, and asks the SSI for something only when it owes no receive. */
  ghost predicate Allowed(t: Talk, st: Step, p: PcbId) {
    match st
    case Plain(e) =>
      && Enabled(t.k, e) && Survives(t.k, e, p)
      && (t.k.current == Some(t.k.ssi) ==> SsiMay(t.phase, e))
      && (t.k.current == Some(p) && e.Sends? && e.dest == t.k.ssi ==> t.asked == t.answered)
    case Serves(r) =>
      && t.k.current == Some(t.k.ssi) && t.phase.Serving?
      && var e := Effect(r, t.phase.client); e.Some? ==> Enabled(t.k, e.value) && Survives(t.k, e.value, p)
  }

  ghost function Received(k: K, e: Event): Option<Msg>
    requires Enabled(k, e)
  {
    if e.Receives? then Receive(k, k.current.value, e.filter).1 else None
  }

  ghost function SentBy(k: K, e: Event, s: PcbId, d: PcbId): Option<SendResult>
    requires Enabled(k, e)
  {
    if e.Sends? && e.dest == d && k.current == Some(s) then Some(Send(k, s, d, e.payload).1) else None
  }

  ghost function NextPhase(t: Talk, e: Event): Phase
    requires Enabled(t.k, e)
  {
    if t.k.current != Some(t.k.ssi) then t.phase
    else if e.Receives? then
      (match Received(t.k, e)
       case Some(m) => Serving(if m.sender.Some? then m.sender.value else t.k.ssi)
       case None => Listening)
    else if e.Sends? then Listening
    else t.phase
  }

  ghost function PlainStep(t: Talk, e: Event, p: PcbId): Talk
    requires Enabled(t.k, e)
  {
    var k := t.k;
    Talk(Apply(k, e), NextPhase(t, e),
         t.asked + (if SentBy(k, e, p, k.ssi) == Some(Sent) then 1 else 0),
         t.answered + (var r := Received(k, e);
                       if k.current == Some(p) && r.Some? && r.value.sender == Some(k.ssi) then 1 else 0),
         t.failed + (if SentBy(k, e, k.ssi, p) == Some(NoMessage) then 1 else 0))
  }

  ghost function ServeStep(t: Talk, r: Request, p: PcbId): Talk
    requires t.phase.Serving? && var e := Effect(r, t.phase.client); e.Some? ==> Enabled(t.k, e.value)
  {
    var c := t.phase.client;
    var e, v := Effect(r, c), Result(t.k, r, c);
    Talk(if e.Some? then Apply(t.k, e.value) else t.k,
         if v != NOPROC then Replying(c, v) else Listening,
         t.asked, t.answered,
         t.failed + (if c == p && v == NOPROC && !r.DoIO? && !r.ClockWait? then 1 else 0))
  }

  ghost function Next(t: Talk, st: Step, p: PcbId): Talk
    requires Allowed(t, st, p)
  {
    match st
    case Plain(e) => PlainStep(t, e, p)
    case Serves(r) => ServeStep(t, r, p)
  }

  // ---------- one token for each request ----------

  ghost function Blocked(k: K, p: PcbId): nat {
    if k.SoftBlocked(p) then 1 else 0
  }

  function InService(ph: Phase, p: PcbId): nat {
    if !ph.Listening? && ph.client == p then 1 else 0
  }

  /** The places where an unanswered request of p can be: in the SSI's inbox, in its loop, in a blocked queue,
      or, as a reply, in p's inbox. */
  ghost function Outstanding(t: Talk, p: PcbId): nat {
    |InFlight(t.k, p, t.k.ssi)| + InService(t.phase, p) + Blocked(t.k, p) + |InFlight(t.k, t.k.ssi, p)|
  }

  /** Requests are answered once, outstanding once, or failed. */
  ghost predicate Balanced(t: Talk, p: PcbId) {
    t.asked == t.answered + t.failed + Outstanding(t, p) && t.asked <= t.answered + 1
  }

  ghost predicate TalkInv(t: Talk, p: PcbId) {
    Inv(t.k) && Busy(t.k) && t.k.Live(p) && p != t.k.ssi && Balanced(t, p)
  }

  /** How a step changes the four terms. */
  ghost predicate Shifts(k: K, k2: K, p: PcbId, requests: int, blocked: int, replies: int) {
    && k2.ssi == k.ssi
    && |InFlight(k2, p, k.ssi)| == |InFlight(k, p, k.ssi)| + requests
    && Blocked(k2, p) == Blocked(k, p) + blocked
    && |InFlight(k2, k.ssi, p)| == |InFlight(k, k.ssi, p)| + replies
  }

  lemma SameQueuesShift(k: K, k2: K, p: PcbId)
    requires forall q: Queue | q != Ready :: k2.Q(Head(q)) == k.Q(Head(q))
    ensures Blocked(k2, p) == Blocked(k, p)
  {
    if q: Queue :| q != Ready && PList(p) in k.Q(Head(q)) {
      assert PList(p) in k2.Q(Head(q));
    }
  }

  lemma SendShifts(k: K, e: Event, p: PcbId)
    requires ListsOk(k) && p != k.ssi && e.Sends? && Enabled(k, e)
    ensures Shifts(k, Apply(k, e), p, if SentBy(k, e, p, k.ssi) == Some(Sent) then 1 else 0, 0,
                   if SentBy(k, e, k.ssi, p) == Some(Sent) then 1 else 0)
  {
    var me := k.current.value;
    SendInFlight(k, me, e.dest, e.payload, p, k.ssi);
    SendInFlight(k, me, e.dest, e.payload, k.ssi, p);
    SendFrame(k, me, e.dest, e.payload);
    SameQueuesShift(k, Send(k, me, e.dest, e.payload).0, p);
  }

  lemma ReceiveShifts(k: K, e: Event, p: PcbId)
    requires PidsOk(k) && MessagesOk(k) && p != k.ssi && e.Receives? && Enabled(k, e)
    ensures var r := Received(k, e);
            Shifts(k, Apply(k, e), p,
                   if k.current == Some(k.ssi) && r.Some? && r.value.sender == Some(p) then -1 else 0, 0,
                   if k.current == Some(p) && r.Some? && r.value.sender == Some(k.ssi) then -1 else 0)
  {
    var me := k.current.value;
    ReceiveInFlight(k, me, e.filter, p, k.ssi);
    ReceiveInFlight(k, me, e.filter, k.ssi, p);
    ReceiveBlocked(k, me, e.filter, p);
  }

  lemma ReceiveBlocked(k: K, me: PcbId, f: Filter, p: PcbId)
    ensures Blocked(Receive(k, me, f).0, p) == Blocked(k, p) && Receive(k, me, f).0.ssi == k.ssi
  {
    SameQueuesShift(k, Receive(k, me, f).0, p);
  }

  lemma CreateBlocked(k: K, parent: PcbId, p: PcbId)
    requires ListsOk(k) && k.Q(PcbFree) != []
    ensures Blocked(Create(k, parent).0, p) == Blocked(k, p) && !k.Live(PcbOf(k.Q(PcbFree)[0]))
  {
    var x := k.Q(PcbFree)[0];
    assert x in k.Q(PcbFree) && Fits(PcbFree, x);
    SameQueuesShift(k, Create(k, parent).0, p);
  }

  lemma CreateShifts(k: K, parent: PcbId, p: PcbId)
    requires ListsOk(k) && k.Live(p) && k.Live(k.ssi)
    ensures Shifts(k, Create(k, parent).0, p, 0, 0, 0)
  {
    if k.Q(PcbFree) != [] {
      CreateInFlight(k, parent, p, k.ssi);
      CreateInFlight(k, parent, k.ssi, p);
      CreateBlocked(k, parent, p);
    }
  }

  lemma KillShifts(k: K, v: PcbId, p: PcbId)
    requires ListsOk(k) && MayKill(k, v) && p !in Progeny(k, v)
    ensures Shifts(k, Killed(k, v), p, 0, 0, 0)
  {
    KillInFlight(k, v, p, k.ssi);
    KillInFlight(k, v, k.ssi, p);
    KillBlocked(k, v, p);
  }

  lemma KillBlocked(k: K, v: PcbId, p: PcbId)
    requires MayKill(k, v) && p !in Progeny(k, v)
    ensures Blocked(Killed(k, v), p) == Blocked(k, p) && Killed(k, v).ssi == k.ssi
  {
    KillGone(k, v);
    forall q: Queue ensures PList(p) in Killed(k, v).Q(Head(q)) <==> PList(p) in k.Q(Head(q)) {
      SurvivorsMembers(k.Q(Head(q)), Progeny(k, v));
    }
  }

  lemma ScheduleShifts(k: K, p: PcbId)
    ensures Shifts(k, Schedule(k), p, 0, 0, 0)
  {
    SameQueuesShift(k, Schedule(k), p);
  }

  lemma ClockShifts(k: K, c: PcbId, p: PcbId)
    requires ListsOk(k) && MayWaitClock(k, c)
    ensures Shifts(k, WaitClock(k, c), p, 0, if c == p then 1 else 0, 0)
  {
    var k2 := WaitClock(k, c);
    NotQueued(k, c);
    if c == p {
      assert PList(p) in k2.Q(Head(PseudoClock));
    } else {
      assert forall q: Queue :: PList(p) in k2.Q(Head(q)) <==> PList(p) in k.Q(Head(q));
    }
  }

  lemma DoIoShifts(k: K, c: PcbId, a: int, p: PcbId)
    requires ListsOk(k) && MayDoIo(k, c, a)
    ensures Shifts(k, DoIo(k, c, a), p, 0, if c == p then 1 else 0, 0)
  {
    DoIoInFlight(k, c, a, p, k.ssi);
    DoIoInFlight(k, c, a, k.ssi, p);
    DoIoBlocked(k, c, a, p);
  }

  lemma DoIoBlocked(k: K, c: PcbId, a: int, p: PcbId)
    requires ListsOk(k) && MayDoIo(k, c, a)
    ensures Blocked(DoIo(k, c, a), p) == Blocked(k, p) + (if c == p then 1 else 0)
  {
    var k2, r := DoIo(k, c, a), Devices.Decode(a).value;
    Devices.DecodeInvertsCommand(a, r);
    if c == p {
      assert PList(p) in k2.Q(Head(r.queue));
    } else {
      forall q: Queue | q != Ready ensures PList(p) in k2.Q(Head(q)) <==> PList(p) in k.Q(Head(q)) { }
    }
  }

  lemma WokenBlocked(k: K, q: Queue, c: PcbId, v: int, p: PcbId)
    requires ListsOk(k) && MayWake(k, q, c)
    ensures Blocked(Woken(k, q, c, v), p) == if c == p then 0 else Blocked(k, p)
    ensures Blocked(k, c) == 1
  {
    WithoutMembers(k.rings[Head(q)], PList(c));
    BlockedIsAlive(k, q, c);
    var k2 := Woken(k, q, c, v);
    forall r: Queue | r != Ready
      ensures PList(p) in k2.Q(Head(r)) <==> PList(p) in k.Q(Head(r)) && p != c
    {
    }
  }

  lemma WokenShifts(k: K, q: Queue, c: PcbId, v: int, p: PcbId)
    requires ListsOk(k) && MayWake(k, q, c) && p != k.ssi
    ensures Shifts(k, Woken(k, q, c, v), p, 0, if c == p then -1 else 0, if c == p then 1 else 0)
  {
    WokenInFlight(k, q, c, v, p, k.ssi);
    WokenInFlight(k, q, c, v, k.ssi, p);
    WokenBlocked(k, q, c, v, p);
  }

  /** A wake-up trades the blocked process for its reply. */
  ghost predicate Trades(k: K, k2: K, p: PcbId) {
    Shifts(k, k2, p, 0, 0, 0) || Shifts(k, k2, p, 0, -1, 1)
  }

  lemma DeviceTrades(k: K, q: Queue, n: int, v: int, p: PcbId)
    requires ListsOk(k) && q != Ready && MayAnswer(k, q, n) && p != k.ssi
    ensures Trades(k, DeviceDone(k, q, n, v), p)
  {
    forall x | x in k.Q(Head(q)) ensures x.PList? { assert Fits(Head(q), x); }
    FirstOnDevIn(k.pcbs, k.Q(Head(q)), n);
    match FirstOnDev(k.pcbs, k.Q(Head(q)), n) {
      case None => ScheduleShifts(k, p);
      case Some(c) =>
        WokenShifts(k, q, c, v, p);
        ScheduleShifts(Woken(k, q, c, v), p);
    }
  }

  lemma TradesTwice(k: K, k1: K, k2: K, p: PcbId)
    requires Trades(k, k1, p) && Trades(k1, k2, p)
    ensures Trades(k, k2, p)
  {
  }

  lemma {:induction false} WakeAllTrades(k: K, p: PcbId)
    requires ListsOk(k) && MayTick(k) && p != k.ssi
    ensures Trades(k, WakeAll(k), p)
    decreases |k.Q(Head(PseudoClock))|
  {
    if k.Q(Head(PseudoClock)) != [] {
      var k1 := WakeOneTrades(k, p);
      WakeAllTrades(k1, p);
      TradesTwice(k, k1, WakeAll(k), p);
    }
  }

  lemma WakeOneTrades(k: K, p: PcbId) returns (k1: K)
    requires ListsOk(k) && MayTick(k) && p != k.ssi && k.Q(Head(PseudoClock)) != []
    ensures ListsOk(k1) && MayTick(k1) && WakeAll(k1) == WakeAll(k) && k1.ssi == k.ssi && Trades(k, k1, p)
    ensures |k1.Q(Head(PseudoClock))| < |k.Q(Head(PseudoClock))|
  {
    FirstWaiter(k, p);
    var c := PcbOf(k.Q(Head(PseudoClock))[0]);
    k1 := Woken(k, PseudoClock, c, 0);
    WakeAllStep(k, c);
    WokenLists(k, PseudoClock, c, 0);
    WokenShifts(k, PseudoClock, c, 0, p);
  }

  lemma InterruptTrades(k: K, e: Event, p: PcbId)
    requires ListsOk(k) && Enabled(k, e) && IsInterrupt(e) && p != k.ssi
    ensures Trades(k, Apply(k, e), p)
  {
    match e {
      case Ticks => WakeAllTrades(k, p); ScheduleShifts(WakeAll(k), p); TradesTwice(k, WakeAll(k), Tick(k), p);
      case Interrupts(q, n, v) => DeviceTrades(k, q, n, v, p);
      case Slice => SameQueuesShift(k, Apply(k, Slice), p);
    }
  }

  // ---------- steps and runs ----------

  lemma StaysAlive(k: K, e: Event, p: PcbId)
    requires Enabled(k, e) && k.Live(p) && Survives(k, e, p)
    ensures Apply(k, e).Live(p)
  {
    match e {
      case Creates(c) => CreateStaysAlive(k, c, p);
      case Kills(v) => KillStaysAlive(k, v, p);
      case Dies => DeathLeavesAlive(k, p);
      case Ticks => TickStaysAlive(k, p);
      case _ => LiveFrame(k, e, p);
    }
  }

  lemma TickStaysAlive(k: K, p: PcbId)
    requires MayTick(k)
    ensures Schedule(WakeAll(k)).Live(p) == k.Live(p)
  {
    WakeAllFree(k);
  }

  lemma LiveFrame(k: K, e: Event, p: PcbId)
    requires Enabled(k, e) && !e.Creates? && !e.Kills? && !e.Dies? && !e.Ticks?
    ensures Apply(k, e).Live(p) == k.Live(p)
  {
  }

  lemma CreateStaysAlive(k: K, c: PcbId, p: PcbId)
    requires k.Live(p)
    ensures Create(k, c).0.Live(p)
  {
    if k.Q(PcbFree) != [] {
      assert forall x | x in k.Q(PcbFree)[1..] :: x in k.Q(PcbFree);
    }
  }

  lemma KillStaysAlive(k: K, v: PcbId, p: PcbId)
    requires MayKill(k, v) && k.Live(p) && p !in Progeny(k, v)
    ensures Killed(k, v).Live(p)
  {
    KillGone(k, v);
    GoneLive(k, Kill(k, v), Progeny(k, v), k.pcbs[v].parent, p);
  }

  lemma DeathLeavesAlive(k: K, p: PcbId)
    requires Enabled(k, Dies) && k.Live(p) && p !in Progeny(k, k.current.value)
    ensures Apply(k, Dies).Live(p)
  {
    KillStaysAlive(k, k.current.value, p);
  }

  lemma WakeAllFree(k: K)
    requires MayTick(k)
    ensures WakeAll(k).Q(PcbFree) == k.Q(PcbFree)
    decreases |k.Q(Head(PseudoClock))|
  {
  }

  lemma SendBalanced(t: Talk, e: Event, p: PcbId)
    requires ListsOk(t.k) && Balanced(t, p) && p != t.k.ssi && t.k.Live(p)
    requires Allowed(t, Plain(e), p) && e.Sends?
    ensures Balanced(Next(t, Plain(e), p), p)
  {
    SendShifts(t.k, e, p);
  }

  lemma ReceiveBalanced(t: Talk, e: Event, p: PcbId)
    requires PidsOk(t.k) && MessagesOk(t.k) && Balanced(t, p) && p != t.k.ssi
    requires Allowed(t, Plain(e), p) && e.Receives?
    ensures Balanced(Next(t, Plain(e), p), p)
  {
    ReceiveShifts(t.k, e, p);
    FirstMatchIn(t.k.pcbs, t.k.msgs, t.k.Q(Inbox(t.k.current.value)), e.filter);
  }

  lemma InterruptBalanced(t: Talk, e: Event, p: PcbId)
    requires ListsOk(t.k) && Balanced(t, p) && p != t.k.ssi
    requires Allowed(t, Plain(e), p) && IsInterrupt(e)
    ensures Balanced(Next(t, Plain(e), p), p)
  {
    InterruptTrades(t.k, e, p);
  }

  lemma DeathBalanced(t: Talk, p: PcbId)
    requires ListsOk(t.k) && Balanced(t, p) && Allowed(t, Plain(Dies), p)
    ensures Balanced(Next(t, Plain(Dies), p), p)
  {
    KillShifts(t.k, t.k.current.value, p);
    ScheduleShifts(Killed(t.k, t.k.current.value), p);
  }

  /** Of all services only the two with a handler move the requester, and none moves a message. */
  lemma ServeShifts(t: Talk, r: Request, p: PcbId)
    requires ListsOk(t.k) && SsiOk(t.k) && t.k.Live(p) && Allowed(t, Serves(r), p)
    ensures Shifts(t.k, Next(t, Serves(r), p).k, p, 0,
                   if t.phase.client == p && (r.DoIO? || r.ClockWait?) then 1 else 0, 0)
  {
    var k, c := t.k, t.phase.client;
    match r {
      case CreateProcess => CreateShifts(k, c, p);
      case TermProcess(v) => KillShifts(k, if v == None then c else v.value, p);
      case DoIO(a) => DoIoShifts(k, c, a, p);
      case ClockWait => ClockShifts(k, c, p);
      case Value(_) =>
      case Unknown => KillShifts(k, c, p);
    }
  }

  lemma ServeBalanced(t: Talk, r: Request, p: PcbId)
    requires ListsOk(t.k) && SsiOk(t.k) && Balanced(t, p) && t.k.Live(p) && Allowed(t, Serves(r), p)
    ensures Balanced(Next(t, Serves(r), p), p)
  {
    ServeShifts(t, r, p);
    ServedBalance(t, Next(t, Serves(r), p), r, p, Result(t.k, r, t.phase.client));
  }

  /** The loop's part: the request in service turns into a reply under way, a blocked requester, or nothing. */
  lemma ServedBalance(t: Talk, t2: Talk, r: Request, p: PcbId, v: int)
    requires t.phase.Serving? && Balanced(t, p)
    requires Shifts(t.k, t2.k, p, 0, if t.phase.client == p && (r.DoIO? || r.ClockWait?) then 1 else 0, 0)
    requires t2 == Talk(t2.k, if v != NOPROC then Replying(t.phase.client, v) else Listening, t.asked, t.answered,
                        t.failed + (if t.phase.client == p && v == NOPROC && !r.DoIO? && !r.ClockWait? then 1 else 0))
    requires r.DoIO? || r.ClockWait? ==> v == NOPROC
    ensures Balanced(t2, p)
  {
  }

  lemma StepBalanced(t: Talk, st: Step, p: PcbId)
    requires TalkInv(t, p) && Allowed(t, st, p)
    ensures Balanced(Next(t, st, p), p)
  {
    match st {
      case Serves(r) => ServeBalanced(t, r, p);
      case Plain(e) =>
        if e.Sends? { SendBalanced(t, e, p); }
        else if e.Receives? { ReceiveBalanced(t, e, p); }
        else if IsInterrupt(e) { InterruptBalanced(t, e, p); }
        else { DeathBalanced(t, p); }
    }
  }

  lemma StepTalks(t: Talk, st: Step, p: PcbId)
    requires TalkInv(t, p) && Allowed(t, st, p)
    ensures TalkInv(Next(t, st, p), p)
  {
    StepBalanced(t, st, p);
    var e := if st.Plain? then Some(st.event) else Effect(st.request, t.phase.client);
    if e.Some? {
      StepKeeps(t.k, e.value);
      StepBusy(t.k, e.value);
      StaysAlive(t.k, e.value, p);
    }
  }

  ghost predicate IsTalk(t: Talk, sts: seq<Step>, p: PcbId)
    decreases |sts|
  {
    sts == [] || (Allowed(t, sts[0], p) && IsTalk(Next(t, sts[0], p), sts[1..], p))
  }

  ghost function TalkEnd(t: Talk, sts: seq<Step>, p: PcbId): Talk
    requires IsTalk(t, sts, p)
    decreases |sts|
  {
    if sts == [] then t else TalkEnd(Next(t, sts[0], p), sts[1..], p)
  }

  lemma {:induction false} TalksOn(t: Talk, sts: seq<Step>, p: PcbId)
    requires TalkInv(t, p) && IsTalk(t, sts, p)
    ensures TalkInv(TalkEnd(t, sts, p), p)
    decreases |sts|
  {
    if sts != [] {
      StepTalks(t, sts[0], p);
      TalksOn(Next(t, sts[0], p), sts[1..], p);
    }
  }

  /** Exactly-once replies. Start anywhere in a run with a process p that has nothing outstanding, and let
      everybody do anything, as long as p lives and asks again only after its last answer. Then at any time
      p has an unanswered request exactly when that request is in one and only one place: queued at the SSI,
      in its loop, with p blocked, or answered in p's inbox; or it is one that the SSI does not answer. */
  lemma ExactlyOnce(k: K, ph: Phase, sts: seq<Step>, p: PcbId)
    requires Reachable(k) && k.Live(p) && p != k.ssi && Outstanding(Talk(k, ph, 0, 0, 0), p) == 0
    requires IsTalk(Talk(k, ph, 0, 0, 0), sts, p)
    ensures var t := TalkEnd(Talk(k, ph, 0, 0, 0), sts, p);
            && t.answered <= t.asked <= t.answered + 1
            && Outstanding(t, p) + t.failed == t.asked - t.answered
  {
    ReachableInv(k);
    TalksOn(Talk(k, ph, 0, 0, 0), sts, p);
  }

  /** Serving one of the two requests that a handler answers blocks the requester and sends it nothing; the loop
      goes back to listening. */
  lemma HandlersAnswer(t: Talk, r: Request, p: PcbId)
    requires ListsOk(t.k) && SsiOk(t.k) && Balanced(t, p) && t.k.Live(p)
    requires Allowed(t, Serves(r), p) && t.phase.client == p && (r.DoIO? || r.ClockWait?)
    ensures var t2 := Next(t, Serves(r), p);
            && t2.phase == Listening && t2.failed == t.failed && Blocked(t2.k, p) == 1
            && |InFlight(t2.k, t2.k.ssi, p)| == |InFlight(t.k, t.k.ssi, p)| == 0
  {
    ServeShifts(t, r, p);
  }

  /** From then on no step but an interrupt of the timer or a device gives it a message of the SSI, and the one
      that does unblocks it. */
  lemma OnlyHandlersUnblock(t: Talk, st: Step, p: PcbId)
    requires TalkInv(t, p) && Allowed(t, st, p) && Blocked(t.k, p) == 1
    ensures var t2 := Next(t, st, p);
            || Shifts(t.k, t2.k, p, 0, 0, 0)
            || (st.Plain? && (st.event.Ticks? || st.event.Interrupts?) && Shifts(t.k, t2.k, p, 0, -1, 1))
  {
    BlockedIsNotRunning(t.k, p);
    match st {
      case Serves(r) => ServeShifts(t, r, p);
      case Plain(e) => PlainWhileBlocked(t, e, p);
    }
  }

  lemma BlockedIsNotRunning(k: K, p: PcbId)
    requires ListsOk(k) && Blocked(k, p) == 1
    ensures k.current != Some(p)
  {
    var q: Queue :| q != Ready && PList(p) in k.Q(Head(q));
    BlockedIsAlive(k, q, p);
  }

  lemma PlainWhileBlocked(t: Talk, e: Event, p: PcbId)
    requires ListsOk(t.k) && PidsOk(t.k) && MessagesOk(t.k) && Balanced(t, p) && p != t.k.ssi
    requires Allowed(t, Plain(e), p) && Blocked(t.k, p) == 1 && t.k.current != Some(p)
    ensures var t2 := Next(t, Plain(e), p);
            || Shifts(t.k, t2.k, p, 0, 0, 0)
            || ((e.Ticks? || e.Interrupts?) && Shifts(t.k, t2.k, p, 0, -1, 1))
  {
    if e.Sends? { SendShifts(t.k, e, p); }
    else if e.Receives? { ReceiveWhileBlocked(t, e, p); }
    else if e == Slice { SliceShifts(t.k, p); }
    else if IsInterrupt(e) { InterruptTrades(t.k, e, p); }
    else { DeathShifts(t, p); }
  }

  lemma ReceiveWhileBlocked(t: Talk, e: Event, p: PcbId)
    requires PidsOk(t.k) && MessagesOk(t.k) && Balanced(t, p) && p != t.k.ssi && e.Receives?
    requires Allowed(t, Plain(e), p) && Blocked(t.k, p) == 1 && t.k.current != Some(p)
    ensures Shifts(t.k, Next(t, Plain(e), p).k, p, 0, 0, 0)
  {
    ReceiveShifts(t.k, e, p);
  }

  lemma SliceShifts(k: K, p: PcbId)
    requires Enabled(k, Slice)
    ensures Shifts(k, Apply(k, Slice), p, 0, 0, 0)
  {
    SameQueuesShift(k, Apply(k, Slice), p);
  }

  lemma DeathShifts(t: Talk, p: PcbId)
    requires ListsOk(t.k) && Allowed(t, Plain(Dies), p)
    ensures Shifts(t.k, Next(t, Plain(Dies), p).k, p, 0, 0, 0)
  {
    KillShifts(t.k, t.k.current.value, p);
    ScheduleShifts(Killed(t.k, t.k.current.value), p);
  }

  /** An answer is lost exactly when the pool is empty at the reply, or when the service returned NOPROC, by which
      the loop cannot tell a full process table, or a value that happens to equal it, from a service with a
      handler. (A client that names an unknown service is killed, and gets none either.) */
  lemma WhatFails(t: Talk, st: Step, p: PcbId)
    requires Forest(t.k) && t.k.Live(p) && Allowed(t, st, p)
    ensures match st
            case Plain(e) =>
              Next(t, st, p).failed > t.failed <==>
                t.k.current == Some(t.k.ssi) && t.k.Q(MsgFree) == [] && t.phase.Replying? && t.phase.client == p
                  && e.Sends?
            case Serves(r) =>
              Next(t, st, p).failed > t.failed <==>
                t.phase.client == p && ((r.CreateProcess? && t.k.Q(PcbFree) == []) || r == Value(NOPROC))
  {
    match st {
      case Serves(r) => ServeFails(t, r, p);
      case Plain(e) =>
    }
  }

  lemma ServeFails(t: Talk, r: Request, p: PcbId)
    requires Forest(t.k) && t.k.Live(p) && Allowed(t, Serves(r), p)
    ensures Next(t, Serves(r), p).failed > t.failed <==>
              t.phase.client == p && ((r.CreateProcess? && t.k.Q(PcbFree) == []) || r == Value(NOPROC))
  {
    assert p in Progeny(t.k, p);
  }
}
