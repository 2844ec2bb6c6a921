/** A request for a device is answered by that device, in the order of the requests; one for the clock by the timer. */
module Answers {
  import opened Layout
  import opened Rings
  import opened PcbPool
  import opened Kernel
  import opened Invariant
  import opened Terminate
  import opened Subtrees
  import opened Mail
  import opened Runs
  import opened Wakeups
  import Devices
  import Replies

  // ---------- who waits for a device ----------

  /** Those of a queue that wait for device n. */
  function OnDev(rows: PcbRows, s: seq<Addr>, n: int): seq<Addr> {
    if s == [] then []
    else (if rows[PcbOf(s[0])].dev == n then [s[0]] else []) + OnDev(rows, s[1..], n)
  }

  function Waiters(k: K, q: Queue, n: int): seq<Addr> { OnDev(k.pcbs, k.Q(Head(q)), n) }

  lemma {:induction false} OnDevFrame(rows: PcbRows, rows2: PcbRows, s: seq<Addr>, n: int)
    requires forall x | x in s :: rows2[PcbOf(x)].dev == rows[PcbOf(x)].dev
    ensures OnDev(rows2, s, n) == OnDev(rows, s, n)
  {
    if s != [] {
      assert s[0] in s;
      OnDevFrame(rows, rows2, s[1..], n);
    }
  }

  lemma {:induction false} OnDevAppend(rows: PcbRows, s: seq<Addr>, x: Addr, n: int)
    ensures OnDev(rows, s + [x], n) == OnDev(rows, s, n) + (if rows[PcbOf(x)].dev == n then [x] else [])
  {
    if s != [] {
      assert (s + [x])[1..] == s[1..] + [x];
      OnDevAppend(rows, s[1..], x, n);
    } else {
      assert s + [x] == [x] && [x][1..] == [];
    }
  }

  lemma {:induction false} OnDevMembers(rows: PcbRows, s: seq<Addr>, n: int)
    ensures forall x :: x in OnDev(rows, s, n) <==> x in s && rows[PcbOf(x)].dev == n
    ensures NoDup(s) ==> NoDup(OnDev(rows, s, n))
  {
    if s != [] {
      OnDevMembers(rows, s[1..], n);
      assert s == [s[0]] + s[1..];
      if NoDup(s) { assert s[0] !in s[1..]; }
    }
  }

  /** FirstOnDev names the first of them. */
  lemma {:induction false} FirstIsHead(rows: PcbRows, s: seq<Addr>, n: int)
    ensures FirstOnDev(rows, s, n) == if OnDev(rows, s, n) == [] then None else Some(PcbOf(OnDev(rows, s, n)[0]))
  {
    if s != [] { FirstIsHead(rows, s[1..], n); }
  }

  /** Without it, the others on its device wait in the same order, and those on other devices as well. */
  lemma {:induction false} OnDevWithout(rows: PcbRows, s: seq<Addr>, n: int, m: int)
    requires OnDev(rows, s, m) != []
    ensures var x := OnDev(rows, s, m)[0];
            OnDev(rows, Without(s, x), n) == if n == m then OnDev(rows, s, n)[1..] else OnDev(rows, s, n)
  {
    var x := OnDev(rows, s, m)[0];
    if rows[PcbOf(s[0])].dev != m {
      OnDevWithout(rows, s[1..], n, m);
      OnDevMembers(rows, s[1..], m);
      assert OnDev(rows, s, m) == OnDev(rows, s[1..], m) && s[0] != x;
      var r := Without(s[1..], x);
      assert Without(s, x) == [s[0]] + r && ([s[0]] + r)[0] == s[0] && ([s[0]] + r)[1..] == r;
      if n == m { assert OnDev(rows, s, n) == OnDev(rows, s[1..], n); }
    } else {
      assert s[0] == x && Without(s, x) == s[1..];
      assert ([x] + OnDev(rows, s[1..], n))[1..] == OnDev(rows, s[1..], n);
    }
  }

  lemma {:induction false} OnDevSurvivors(rows: PcbRows, s: seq<Addr>, dead: seq<PcbId>, n: int)
    ensures OnDev(rows, Survivors(s, dead), n) == Survivors(OnDev(rows, s, n), dead)
  {
    if s != [] {
      OnDevSurvivors(rows, s[1..], dead, n);
      var r, w := Survivors(s[1..], dead), OnDev(rows, s[1..], n);
      assert ([s[0]] + r)[0] == s[0] && ([s[0]] + r)[1..] == r;
      assert OnDev(rows, s, n) == if rows[PcbOf(s[0])].dev == n then [s[0]] + w else w;
      assert ([s[0]] + w)[0] == s[0] && ([s[0]] + w)[1..] == w;
    }
  }

  // ---------- each step ----------

  /** Only a request for a device changes the device number of its client. */
  lemma DevKept(k: K, e: Event, p: PcbId)
    requires Enabled(k, e)
    ensures Apply(k, e).pcbs[p].dev ==
              if e.DoesIo? && e.client == p then Devices.Decode(e.command).value.devNo else k.pcbs[p].dev
  {
    if e.Kills? || e.Dies? { KillKeepsDev(k, if e.Kills? then e.victim else k.current.value, p); }
    else if e.Ticks? { WakeAllPending(k); }
    else { DevFrame(k, e, p); }
  }

  lemma KillKeepsDev(k: K, v: PcbId, p: PcbId)
    requires MayKill(k, v)
    ensures Killed(k, v).pcbs[p].dev == k.pcbs[p].dev
  {
    KillGone(k, v);
  }

  lemma DevFrame(k: K, e: Event, p: PcbId)
    requires Enabled(k, e) && !e.Kills? && !e.Dies? && !e.Ticks?
    ensures Apply(k, e).pcbs[p].dev ==
              if e.DoesIo? && e.client == p then Devices.Decode(e.command).value.devNo else k.pcbs[p].dev
  {
  }

  /** First come, first served, for each device: a request for it goes to the end, its interrupt takes the first, a
      kill takes the killed, and nothing else changes who waits for it, or their order. */
  lemma WaitersMove(k: K, e: Event, q: Queue, n: int)
    requires ListsOk(k) && Enabled(k, e) && q != Ready && q != PseudoClock
    ensures var w, w2 := Waiters(k, q, n), Waiters(Apply(k, e), q, n);
            match e
            case DoesIo(c, a) =>
              var r := Devices.Decode(a).value; w2 == w + (if r.queue == q && r.devNo == n then [PList(c)] else [])
            case Interrupts(r, m, _) => w2 == if r == q && m == n && w != [] then w[1..] else w
            case Kills(v) => w2 == Survivors(w, Progeny(k, v))
            case Dies => w2 == Survivors(w, Progeny(k, k.current.value))
            case _ => w2 == w
  {
    var s, k2 := k.Q(Head(q)), Apply(k, e);
    QueueMoves(k, e, q);
    MembersKeepDevs(k, e, q);
    match e {
      case DoesIo(c, a) => RequestQueues(k, c, a, q, n);
      case Interrupts(r, m, _) => InterruptTakes(k, e, q, n);
      case Kills(v) => SurvivorsWait(k, e, Progeny(k, v), q, n);
      case Dies => SurvivorsWait(k, e, Progeny(k, k.current.value), q, n);
      case _ => OnDevFrame(k.pcbs, k2.pcbs, s, n);
    }
  }

  lemma MembersKeepDevs(k: K, e: Event, q: Queue)
    requires ListsOk(k) && Enabled(k, e) && q != Ready
    ensures forall x | x in k.Q(Head(q)) :: Apply(k, e).pcbs[PcbOf(x)].dev == k.pcbs[PcbOf(x)].dev
  {
    forall x | x in k.Q(Head(q)) ensures Apply(k, e).pcbs[PcbOf(x)].dev == k.pcbs[PcbOf(x)].dev {
      assert Fits(Head(q), x);
      DevKept(k, e, PcbOf(x));
    }
  }

  lemma RequestQueues(k: K, c: PcbId, a: int, q: Queue, n: int)
    requires Enabled(k, DoesIo(c, a))
    requires forall x | x in k.Q(Head(q)) :: Apply(k, DoesIo(c, a)).pcbs[PcbOf(x)].dev == k.pcbs[PcbOf(x)].dev
    requires Apply(k, DoesIo(c, a)).Q(Head(q)) == Moved(k, DoesIo(c, a), q)
    ensures var r := Devices.Decode(a).value;
            Waiters(Apply(k, DoesIo(c, a)), q, n) ==
              Waiters(k, q, n) + (if r.queue == q && r.devNo == n then [PList(c)] else [])
  {
    var s, k2 := k.Q(Head(q)), Apply(k, DoesIo(c, a));
    DevKept(k, DoesIo(c, a), c);
    OnDevFrame(k.pcbs, k2.pcbs, s, n);
    OnDevAppend(k2.pcbs, s, PList(c), n);
  }

  lemma InterruptTakes(k: K, e: Event, q: Queue, n: int)
    requires ListsOk(k) && Enabled(k, e) && e.Interrupts?
    requires Apply(k, e).Q(Head(q)) == Moved(k, e, q)
    ensures var w := Waiters(k, q, n);
            Waiters(Apply(k, e), q, n) == if e.queue == q && e.devNo == n && w != [] then w[1..] else w
  {
    var s := k.Q(Head(q));
    DeviceRows(k, e.queue, e.devNo, e.status);
    FirstIsHead(k.pcbs, s, e.devNo);
    var w := OnDev(k.pcbs, s, e.devNo);
    if e.queue == q && w != [] {
      OnDevMembers(k.pcbs, s, e.devNo);
      assert w[0] in w && Fits(Head(q), w[0]);
      OnDevWithout(k.pcbs, s, n, e.devNo);
    }
  }

  lemma SurvivorsWait(k: K, e: Event, dead: seq<PcbId>, q: Queue, n: int)
    requires Enabled(k, e) && Apply(k, e).Q(Head(q)) == Survivors(k.Q(Head(q)), dead)
    requires forall x | x in k.Q(Head(q)) :: Apply(k, e).pcbs[PcbOf(x)].dev == k.pcbs[PcbOf(x)].dev
    ensures Waiters(Apply(k, e), q, n) == Survivors(Waiters(k, q, n), dead)
  {
    SurvivorsMembers(k.Q(Head(q)), dead);
    OnDevFrame(k.pcbs, Apply(k, e).pcbs, Survivors(k.Q(Head(q)), dead), n);
    OnDevSurvivors(k.pcbs, k.Q(Head(q)), dead, n);
  }

  // ---------- runs ----------

  /** p waits on q for device n, with i others before it, and has these messages of the SSI. */
  ghost predicate InLine(k: K, p: PcbId, q: Queue, n: int, i: nat, mail: seq<int>) {
    true == (
      && q != Ready && q != PseudoClock && i < |Waiters(k, q, n)| && Waiters(k, q, n)[i] == PList(p)
      && InFlight(k, k.ssi, p) == mail)
  }

  predicate Fires(e: Event, q: Queue, n: int) { e.Interrupts? && e.queue == q && e.devNo == n }

  function Count(es: seq<Event>, q: Queue, n: int): nat {
    if es == [] then 0 else (if Fires(es[0], q, n) then 1 else 0) + Count(es[1..], q, n)
  }

  ghost predicate Lives(k: K, es: seq<Event>, p: PcbId)
    requires IsRun(k, es)
    decreases |es|
  {
    es == [] || (Replies.Survives(k, es[0], p) && Lives(Apply(k, es[0]), es[1..], p))
  }

  /** It is woken exactly by the interrupt of its device when it is the first in line. */
  lemma WokenFirst(k: K, e: Event, p: PcbId, q: Queue, n: int, i: nat, mail: seq<int>)
    requires ListsOk(k) && Enabled(k, e) && InLine(k, p, q, n, i, mail)
    ensures BlockedOn(k, p, q, mail) && (Wakes(k, e, p, q) <==> Fires(e, q, n) && i == 0)
  {
    var s, w := k.Q(Head(q)), Waiters(k, q, n);
    OnDevMembers(k.pcbs, s, n);
    assert w[i] in w && w[0] in w && Fits(Head(q), w[0]);
    if e.Interrupts? {
      FirstIsHead(k.pcbs, s, e.devNo);
      OnDevMembers(k.pcbs, s, e.devNo);
    }
  }

  lemma {:induction false} SurvivorsBefore(s: seq<Addr>, dead: seq<PcbId>, i: nat) returns (j: nat)
    requires i < |s| && !(s[i].PList? && s[i].pcb in dead)
    ensures j <= i && j < |Survivors(s, dead)| && Survivors(s, dead)[j] == s[i]
  {
    if i == 0 {
      j := 0;
    } else {
      j := SurvivorsBefore(s[1..], dead, i - 1);
      if !(s[0].PList? && s[0].pcb in dead) { j := j + 1; }
    }
  }

  /** No step moves it back, and each interrupt of its device moves it up. */
  lemma MovesUp(k: K, e: Event, p: PcbId, q: Queue, n: int, i: nat, mail: seq<int>) returns (j: nat)
    requires Inv(k) && Enabled(k, e) && Replies.Survives(k, e, p)
    requires InLine(k, p, q, n, i, mail) && !(Fires(e, q, n) && i == 0)
    ensures j <= i && (Fires(e, q, n) ==> j < i) && InLine(Apply(k, e), p, q, n, j, mail)
  {
    WokenFirst(k, e, p, q, n, i, mail);
    StaysBlocked(k, e, p, q, mail);
    WaitersMove(k, e, q, n);
    if e.Kills? || e.Dies? {
      j := SurvivorsBefore(Waiters(k, q, n), Progeny(k, if e.Kills? then e.victim else k.current.value), i);
    } else {
      j := if Fires(e, q, n) then i - 1 else i;
    }
  }

  lemma {:induction false} WaitsOn(k: K, es: seq<Event>, p: PcbId, q: Queue, n: int, i: nat, mail: seq<int>)
      returns (j: nat)
    requires Inv(k) && IsRun(k, es) && Lives(k, es, p) && InLine(k, p, q, n, i, mail) && Count(es, q, n) == 0
    ensures j <= i && InLine(End(k, es), p, q, n, j, mail)
    decreases |es|
  {
    j := i;
    if es != [] {
      var k2;
      k2, j := FirstMove(k, es, p, q, n, i, mail);
      j := WaitsOn(k2, es[1..], p, q, n, j, mail);
    }
  }

  lemma FirstMove(k: K, es: seq<Event>, p: PcbId, q: Queue, n: int, i: nat, mail: seq<int>) returns (k2: K, j: nat)
    requires Inv(k) && IsRun(k, es) && Lives(k, es, p) && InLine(k, p, q, n, i, mail)
    requires es != [] && !(Fires(es[0], q, n) && i == 0)
    ensures k2 == Apply(k, es[0]) && Inv(k2) && IsRun(k2, es[1..]) && Lives(k2, es[1..], p)
    ensures End(k2, es[1..]) == End(k, es)
    ensures InLine(k2, p, q, n, j, mail)
    ensures j + (if Fires(es[0], q, n) then 1 else 0) <= i && (Count(es, q, n) > i ==> Count(es[1..], q, n) > j)
  {
    j := MovesUp(k, es[0], p, q, n, i, mail);
    StepKeeps(k, es[0]);
    k2 := Apply(k, es[0]);
  }

  /** The event es[m] is an interrupt of the device, at most the given number have been by then, and it answers p. */
  ghost predicate AnsweredAt(k: K, es: seq<Event>, m: nat, p: PcbId, q: Queue, n: int, mail: seq<int>, most: nat) {
    true == (
      && m < |es| && Fires(es[m], q, n) && Count(es[..m+1], q, n) <= most
      && IsRun(k, es[..m]) && InLine(End(k, es[..m]), p, q, n, 0, mail)
      && IsRun(k, es[..m+1]) && Up(End(k, es[..m+1]), p, mail + [es[m].status]))
  }

  lemma AnsweredNow(k: K, es: seq<Event>, p: PcbId, q: Queue, n: int, mail: seq<int>)
    requires Inv(k) && IsRun(k, es) && es != [] && Fires(es[0], q, n) && InLine(k, p, q, n, 0, mail)
    ensures AnsweredAt(k, es, 0, p, q, n, mail, 1)
  {
    FirstIsAnswered(k, es[0], p, q, n, mail);
    OneEvent(k, es, q, n);
  }

  /** The first in line is answered by an interrupt of its device. */
  lemma FirstIsAnswered(k: K, e: Event, p: PcbId, q: Queue, n: int, mail: seq<int>)
    requires ListsOk(k) && Enabled(k, e) && Fires(e, q, n) && InLine(k, p, q, n, 0, mail)
    ensures Up(Apply(k, e), p, mail + [e.status])
  {
    WokenFirst(k, e, p, q, n, 0, mail);
    InterruptWakes(k, p, q, n, e.status, mail);
  }

  lemma OneEvent(k: K, es: seq<Event>, q: Queue, n: int)
    requires es != [] && Enabled(k, es[0])
    ensures IsRun(k, es[..0]) && End(k, es[..0]) == k
    ensures IsRun(k, es[..1]) && End(k, es[..1]) == Apply(k, es[0]) && Count(es[..1], q, n) <= 1
  {
    assert es[..1][1..] == [];
  }

  lemma AnsweredLater(k: K, es: seq<Event>, k2: K, m: nat, p: PcbId, q: Queue, n: int, mail: seq<int>, most: nat,
                      all: nat)
    requires es != [] && Enabled(k, es[0]) && k2 == Apply(k, es[0]) && AnsweredAt(k2, es[1..], m, p, q, n, mail, most)
    requires most + (if Fires(es[0], q, n) then 1 else 0) <= all
    ensures AnsweredAt(k, es, m + 1, p, q, n, mail, all)
  {
    assert es[..m+1][1..] == es[1..][..m] && es[..m+1][0] == es[0];
    assert es[..m+2][1..] == es[1..][..m+1] && es[..m+2][0] == es[0];
  }

  /** With i others before it, p is answered by one of the next i + 1 interrupts of its device, with the status of
      that one, and hears nothing until then. */
  lemma {:induction false} AnsweredInTurn(k: K, es: seq<Event>, p: PcbId, q: Queue, n: int, i: nat, mail: seq<int>)
      returns (m: nat)
    requires Inv(k) && IsRun(k, es) && Lives(k, es, p) && InLine(k, p, q, n, i, mail) && Count(es, q, n) > i
    ensures AnsweredAt(k, es, m, p, q, n, mail, i + 1)
    decreases |es|
  {
    var now, k2, j := NowOrLater(k, es, p, q, n, i, mail);
    m := 0;
    if !now {
      m := AnsweredInTurn(k2, es[1..], p, q, n, j, mail);
      AnsweredLater(k, es, k2, m, p, q, n, mail, j + 1, i + 1);
      m := m + 1;
    }
  }

  lemma NowOrLater(k: K, es: seq<Event>, p: PcbId, q: Queue, n: int, i: nat, mail: seq<int>)
      returns (now: bool, k2: K, j: nat)
    requires Inv(k) && IsRun(k, es) && Lives(k, es, p) && InLine(k, p, q, n, i, mail) && Count(es, q, n) > i
    ensures es != [] && (now ==> AnsweredAt(k, es, 0, p, q, n, mail, i + 1))
    ensures !now ==>
              && k2 == Apply(k, es[0]) && Inv(k2) && IsRun(k2, es[1..]) && Lives(k2, es[1..], p)
              && InLine(k2, p, q, n, j, mail) && Count(es[1..], q, n) > j
              && j + 1 + (if Fires(es[0], q, n) then 1 else 0) <= i + 1
  {
    now, k2, j := Fires(es[0], q, n) && i == 0, k, i;
    if now {
      AnsweredNow(k, es, p, q, n, mail);
    } else {
      k2, j := FirstMove(k, es, p, q, n, i, mail);
    }
  }

  // ---------- in the terms of doio and deviceHandler ----------

  /** The queue of a device; a terminal has one for its transmitter and one for its receiver. */
  function DeviceQueue(line: int, sending: bool): Queue
    requires 3 <= line <= 7
  {
    if line < 7 then Devices.LineQueue(line) else if sending then TermTransm else TermRecv
  }

  /** The address that a request names it by: the registers of a device are 16 bytes, those of a line 128. */
  predicate Names(a: int, line: int, devNo: nat, sending: bool) {
    && 3 <= line <= 7 && devNo < 8 && (sending ==> line == 7)
    && a == 0x10000054 + 0x80 * (line - 3) + 0x10 * devNo + (if sending then 12 else 4)
  }

  /** deviceHandler, with what it reads from the registers of the line. */
  function Raised(line: int, bitmap: bv32, recv: nat, transm: nat, status: nat): Event
    requires 3 <= line <= 7
  {
    Interrupts(Devices.InterruptQueue(line, recv), Devices.GetDeviceNo(bitmap),
               Devices.InterruptStatus(line, recv, transm, status))
  }

  /** That device is the highest in the bitmap, and of a terminal that half has succeeded. */
  predicate Signals(line: int, bitmap: bv32, recv: nat, devNo: nat, sending: bool)
    requires devNo < 8
  {
    (bitmap & 0xFF) >> devNo == 1 && (line == 7 ==> (sending <==> recv % 256 != 5))
  }

  /** An interrupt concerns exactly the device that signals. */
  lemma RaisedFiresIff(line: int, bitmap: bv32, recv: nat, transm: nat, status: nat, of: int, devNo: nat, sending: bool)
    requires 3 <= line <= 7 && 3 <= of <= 7 && devNo < 8 && (sending ==> of == 7)
    ensures Fires(Raised(line, bitmap, recv, transm, status), DeviceQueue(of, sending), devNo) <==>
              line == of && Signals(line, bitmap, recv, devNo, sending)
  {
    Devices.HighestDevice(bitmap, devNo);
  }

  lemma NamesRegister(a: int, line: int, devNo: nat, sending: bool)
    requires Names(a, line, devNo, sending)
    ensures Devices.Decode(a) == Some(Devices.Register(DeviceQueue(line, sending), devNo))
  {
    Devices.DecodeInvertsCommand(a, Devices.Register(DeviceQueue(line, sending), devNo));
  }

  /** A request for a device goes to the end of the line for it. */
  lemma RequestInLine(k: K, p: PcbId, a: int, line: int, devNo: nat, sending: bool)
    requires ListsOk(k) && Enabled(k, DoesIo(p, a)) && Names(a, line, devNo, sending)
    ensures var q := DeviceQueue(line, sending);
            InLine(Apply(k, DoesIo(p, a)), p, q, devNo, |Waiters(k, q, devNo)|, InFlight(k, k.ssi, p))
  {
    var q := DeviceQueue(line, sending);
    NamesRegister(a, line, devNo, sending);
    WaitersMove(k, DoesIo(p, a), q, devNo);
    DoIoInFlight(k, p, a, k.ssi, p);
    SsiKept(k, DoesIo(p, a));
  }

  /** A request for a device that nobody waits for: through any run without an interrupt of that device, whatever
      other devices, the other half of the terminal and the timer do, the client stays blocked and hears nothing. The
      interrupt of that device makes it ready and gives it the status of that device, and nothing else. */
  lemma IoAnswered(k: K, p: PcbId, a: int, line: int, devNo: nat, sending: bool, es: seq<Event>,
                   bitmap: bv32, recv: nat, transm: nat, status: nat)
    requires Inv(k) && Enabled(k, DoesIo(p, a)) && Names(a, line, devNo, sending)
    requires Waiters(k, DeviceQueue(line, sending), devNo) == []
    requires var k1 := Apply(k, DoesIo(p, a)); IsRun(k1, es) && Lives(k1, es, p)
    requires Count(es, DeviceQueue(line, sending), devNo) == 0
    ensures var k2, mail := End(Apply(k, DoesIo(p, a)), es), InFlight(k, k.ssi, p);
            var e := Raised(line, bitmap, recv, transm, status);
            && BlockedOn(k2, p, DeviceQueue(line, sending), mail)
            && (Signals(line, bitmap, recv, devNo, sending) && Enabled(k2, e) ==>
                  Up(Apply(k2, e), p, mail + [if line < 7 then status else if sending then transm else recv]))
  {
    var k2 := LeftWaiting(k, p, a, line, devNo, sending, es);
    var q, mail, e := DeviceQueue(line, sending), InFlight(k, k.ssi, p), Raised(line, bitmap, recv, transm, status);
    RaisedFiresIff(line, bitmap, recv, transm, status, line, devNo, sending);
    StillBlocked(k2, p, q, devNo, mail);
    if Signals(line, bitmap, recv, devNo, sending) && Enabled(k2, e) {
      FirstIsAnswered(k2, e, p, q, devNo, mail);
    }
  }

  lemma LeftWaiting(k: K, p: PcbId, a: int, line: int, devNo: nat, sending: bool, es: seq<Event>) returns (k2: K)
    requires Inv(k) && Enabled(k, DoesIo(p, a)) && Names(a, line, devNo, sending)
    requires Waiters(k, DeviceQueue(line, sending), devNo) == []
    requires var k1 := Apply(k, DoesIo(p, a)); IsRun(k1, es) && Lives(k1, es, p)
    requires Count(es, DeviceQueue(line, sending), devNo) == 0
    ensures k2 == End(Apply(k, DoesIo(p, a)), es) && ListsOk(k2)
    ensures InLine(k2, p, DeviceQueue(line, sending), devNo, 0, InFlight(k, k.ssi, p))
  {
    var k1, q := Requested(k, p, a, line, devNo, sending);
    var j := WaitsOn(k1, es, p, q, devNo, 0, InFlight(k, k.ssi, p));
    assert j == 0;
    EndKeeps(k1, es);
    k2 := End(k1, es);
  }

  lemma Requested(k: K, p: PcbId, a: int, line: int, devNo: nat, sending: bool) returns (k1: K, q: Queue)
    requires Inv(k) && Enabled(k, DoesIo(p, a)) && Names(a, line, devNo, sending)
    ensures k1 == Apply(k, DoesIo(p, a)) && Inv(k1) && q == DeviceQueue(line, sending)
    ensures InLine(k1, p, q, devNo, |Waiters(k, q, devNo)|, InFlight(k, k.ssi, p))
  {
    RequestInLine(k, p, a, line, devNo, sending);
    StepKeeps(k, DoesIo(p, a));
    k1, q := Apply(k, DoesIo(p, a)), DeviceQueue(line, sending);
  }

  lemma StillBlocked(k: K, p: PcbId, q: Queue, n: int, mail: seq<int>)
    requires InLine(k, p, q, n, 0, mail)
    ensures BlockedOn(k, p, q, mail)
  {
    OnDevMembers(k.pcbs, k.Q(Head(q)), n);
  }

  lemma {:induction false} EndKeeps(k: K, es: seq<Event>)
    requires Inv(k) && IsRun(k, es)
    ensures Inv(End(k, es))
    decreases |es|
  {
    if es != [] {
      StepKeeps(k, es[0]);
      EndKeeps(Apply(k, es[0]), es[1..]);
    }
  }

  /** If others wait for the device already, each of its interrupts answers one of them, in the order of their
      requests, and then the client. */
  lemma IoAnsweredInTurn(k: K, p: PcbId, a: int, line: int, devNo: nat, sending: bool, es: seq<Event>)
      returns (m: nat)
    requires Inv(k) && Enabled(k, DoesIo(p, a)) && Names(a, line, devNo, sending)
    requires var k1 := Apply(k, DoesIo(p, a)); IsRun(k1, es) && Lives(k1, es, p)
    requires Count(es, DeviceQueue(line, sending), devNo) > |Waiters(k, DeviceQueue(line, sending), devNo)|
    ensures var q := DeviceQueue(line, sending);
            AnsweredAt(Apply(k, DoesIo(p, a)), es, m, p, q, devNo, InFlight(k, k.ssi, p), |Waiters(k, q, devNo)| + 1)
  {
    var k1, q := Requested(k, p, a, line, devNo, sending);
    m := AnsweredInTurn(k1, es, p, q, devNo, |Waiters(k, q, devNo)|, InFlight(k, k.ssi, p));
  }

  /** A client of the clock stays blocked and hears nothing until the next tick, whatever the devices do; that tick
      makes it ready and gives it 0. */
  lemma ClockAnswered(k: K, p: PcbId, es: seq<Event>)
    requires Inv(k) && Enabled(k, WaitsClock(p))
    requires var k1 := Apply(k, WaitsClock(p)); IsRun(k1, es) && Lives(k1, es, p)
    requires forall e | e in es :: !e.Ticks?
    ensures var k2, mail := End(Apply(k, WaitsClock(p)), es), InFlight(k, k.ssi, p);
            BlockedOn(k2, p, PseudoClock, mail) && (Enabled(k2, Ticks) ==> Up(Apply(k2, Ticks), p, mail + [0]))
  {
    var k1 := ClockRequested(k, p);
    SleepsOn(k1, es, p, InFlight(k, k.ssi, p));
    EndKeeps(k1, es);
    TickAnswers(End(k1, es), p, InFlight(k, k.ssi, p));
  }

  lemma ClockRequested(k: K, p: PcbId) returns (k1: K)
    requires Inv(k) && Enabled(k, WaitsClock(p))
    ensures k1 == Apply(k, WaitsClock(p)) && Inv(k1) && BlockedOn(k1, p, PseudoClock, InFlight(k, k.ssi, p))
  {
    k1 := Apply(k, WaitsClock(p));
    StepKeeps(k, WaitsClock(p));
    NobodyTalks(k, WaitsClock(p), p);
    QueueMoves(k, WaitsClock(p), PseudoClock);
    SsiKept(k, WaitsClock(p));
  }

  lemma TickAnswers(k: K, p: PcbId, mail: seq<int>)
    requires Inv(k) && BlockedOn(k, p, PseudoClock, mail)
    ensures Enabled(k, Ticks) ==> Up(Apply(k, Ticks), p, mail + [0])
  {
    if Enabled(k, Ticks) {
      TickWakes(k, p, mail);
      TickIsTick(k);
    }
  }

  lemma TickIsTick(k: K)
    requires Enabled(k, Ticks)
    ensures Apply(k, Ticks) == Tick(k)
  {
  }

  lemma {:induction false} SleepsOn(k: K, es: seq<Event>, p: PcbId, mail: seq<int>)
    requires Inv(k) && IsRun(k, es) && Lives(k, es, p) && BlockedOn(k, p, PseudoClock, mail)
    requires forall e | e in es :: !e.Ticks?
    ensures BlockedOn(End(k, es), p, PseudoClock, mail)
    decreases |es|
  {
    if es != [] {
      assert es[0] in es;
      NoDeviceWakes(k, es[0], p);
      StaysBlocked(k, es[0], p, PseudoClock, mail);
      StepKeeps(k, es[0]);
      SleepsOn(Apply(k, es[0]), es[1..], p, mail);
    }
  }

  lemma NoDeviceWakes(k: K, e: Event, p: PcbId)
    requires Enabled(k, e) && !e.Ticks?
    ensures !Wakes(k, e, p, PseudoClock)
  {
  }
}
