/** The nucleus as values: the state that the kernel's globals and tables denote, and what each
    service, system call and interrupt does to it. */
module Kernel {
  import opened Layout
  import opened Rings
  import opened PcbPool
  import opened MsgPool
  import Devices

  datatype K = K(rings: Heads, pcbs: PcbRows, msgs: MsgRows, nextPid: int,
                 current: Option<PcbId>, processCount: int, softBlock: int, ssi: PcbId)
  {
    function Q(h: Addr): seq<Addr> { On(rings, h) }

    predicate Live(p: PcbId) { PList(p) !in Q(PcbFree) }

    /** In one of the six device queues or waiting for the pseudo-clock. */
    ghost predicate SoftBlocked(p: PcbId) {
      exists q: Queue :: q != Ready && PList(p) in Q(Head(q))
    }

    /** Alive, not running and on no queue: only a message can wake it. */
    ghost predicate AwaitsMessage(p: PcbId) {
      Live(p) && current != Some(p) && forall q: Queue :: PList(p) !in Q(Head(q))
    }

    function BlockedTotal(): int {
      |Q(Head(Disk))| + |Q(Head(Flash))| + |Q(Head(Ethernet))| + |Q(Head(Printer))|
      + |Q(Head(TermTransm))| + |Q(Head(TermRecv))| + |Q(Head(PseudoClock))|
    }

    function Put(h: Addr, x: Addr): K { this.(rings := rings[h := Q(h) + [x]]) }

    function Take(h: Addr, x: Addr): K { this.(rings := rings[h := Without(Q(h), x)]) }
  }

  // ---------- scheduler.c ----------

  datatype Verdict = Dispatched(p: PcbId) | Halted | Panicked | Idle | NoProcess

  function Schedule(k: K): K {
    var q := k.Q(Head(Ready));
    if q == [] then k.(current := None)
    else k.(current := Some(PcbOf(q[0])), rings := k.rings[Head(Ready) := q[1..]])
  }

  function Decision(k: K): Verdict {
    var q := k.Q(Head(Ready));
    if q != [] then Dispatched(PcbOf(q[0]))
    else if k.processCount == 1 then Halted
    else if k.processCount > 1 && k.softBlock == 0 then Panicked
    else if k.processCount > 1 && k.softBlock > 0 then Idle
    else NoProcess
  }

  // ---------- exceptions.c ----------

  datatype SendResult = Sent | NoMessage | NoDestination

  /** A pool message is filled in; k must have one. */
  function Filled(k: K, m: Msg): (K, Addr)
    requires k.Q(MsgFree) != []
  {
    var x := k.Q(MsgFree)[0];
    (k.(rings := k.rings[MsgFree := k.Q(MsgFree)[1..]], msgs := k.msgs[MsgOf(x) := m]), x)
  }

  function Send(k: K, sender: PcbId, dest: PcbId, payload: int): (K, SendResult) {
    if k.Q(MsgFree) == [] then (k, NoMessage)
    else
      var (k1, x) := Filled(k, Msg(Some(sender), payload));
      if !k1.Live(dest) then (k1, NoDestination)
      else
        var k2 := if k1.current != Some(dest) && PList(dest) !in k1.Q(Head(Ready))
                  then k1.Put(Head(Ready), PList(dest)) else k1;
        (k2.Put(Inbox(dest), x), Sent)
  }

  function SetPending(k: K, p: PcbId, f: Option<Filter>): K {
    k.(pcbs := k.pcbs[p := k.pcbs[p].(pending := f)])
  }

  /** The state of p is saved with its program counter at the receive. */
  function SaveAt(k: K, p: PcbId, f: Filter): K {
    k.(pcbs := k.pcbs[p := k.pcbs[p].(pending := Some(f), saved := Some(f))])
  }

  /** p goes on from its saved state, whatever it has done since. */
  function Restored(k: K, p: PcbId): K { SetPending(k, p, k.pcbs[p].saved) }

  /** Receive by the running process me. A process that finds nothing keeps the receive pending. */
  function Receive(k: K, me: PcbId, f: Filter): (K, Option<Msg>) {
    match FirstMatch(k.pcbs, k.msgs, k.Q(Inbox(me)), f)
    case Some(x) =>
      (SetPending(k, me, None).Take(Inbox(me), x).Put(MsgFree, x), Some(k.msgs[MsgOf(x)]))
    case None =>
      (Schedule(SaveAt(k, me, f)), None)
  }

  // ---------- ssi.c ----------

  function Create(k: K, parent: PcbId): (K, Option<PcbId>) {
    if k.Q(PcbFree) == [] then (k, None)
    else
      var c := PcbOf(k.Q(PcbFree)[0]);
      var k1 := k.(rings := k.rings[PcbFree := k.Q(PcbFree)[1..]][PChild(c) := []][Inbox(c) := []],
                   pcbs := k.pcbs[c := Pcb(Some(parent), k.nextPid, k.pcbs[c].dev, None, None)],
                   nextPid := k.nextPid + 1, processCount := k.processCount + 1);
      (k1.Put(Head(Ready), PList(c)).Put(PChild(parent), PSib(c)), Some(c))
  }

  function WaitClock(k: K, p: PcbId): K {
    k.Put(Head(PseudoClock), PList(p)).(softBlock := k.softBlock + 1)
  }

  function DoIo(k: K, p: PcbId, command: int): K {
    var k1 := k.(softBlock := k.softBlock + 1);
    match Devices.Decode(command)
    case None => k1
    case Some(r) =>
      k1.(pcbs := k.pcbs[p := k.pcbs[p].(dev := r.devNo)])
        .Take(Head(Ready), PList(p)).Put(Head(r.queue), PList(p))
  }

  // ---------- interrupts.c ----------

  function ExitInterrupt(k: K): K {
    if k.current == None then Schedule(k) else k
  }

  /** What both handlers do for a process they took off its queue. */
  function Reply(k: K, p: PcbId, status: int): K
    requires k.Q(MsgFree) != []
  {
    var (k1, x) := Filled(k, Msg(Some(k.ssi), status));
    k1.Put(Inbox(p), x).Put(Head(Ready), PList(p)).(softBlock := k.softBlock - 1)
  }

  function WakeAll(k: K): K
    requires |k.Q(MsgFree)| >= |k.Q(Head(PseudoClock))|
    decreases |k.Q(Head(PseudoClock))|
  {
    var q := k.Q(Head(PseudoClock));
    if q == [] then k
    else
      WakeAll(Reply(k.Take(Head(PseudoClock), q[0]), PcbOf(q[0]), 0))
  }

  function Tick(k: K): K
    requires |k.Q(MsgFree)| >= |k.Q(Head(PseudoClock))|
  {
    ExitInterrupt(WakeAll(k))
  }

  /** A device interrupt needs a pool message if a process waits for it. */
  predicate MayAnswer(k: K, q: Queue, devNo: int) {
    FirstOnDev(k.pcbs, k.Q(Head(q)), devNo).Some? ==> k.Q(MsgFree) != []
  }

  function DeviceDone(k: K, q: Queue, devNo: int, status: int): K
    requires MayAnswer(k, q, devNo)
  {
    match FirstOnDev(k.pcbs, k.Q(Head(q)), devNo)
    case None => ExitInterrupt(k)
    case Some(p) => ExitInterrupt(Reply(k.Take(Head(q), PList(p)), p, status))
  }

  /** PLTHandler copies p_s over the exception state, and not the exception state to p_s: the process will go on
      from where it slept last. */
  function Preempt(k: K, me: PcbId): K {
    Schedule(Restored(k, me).Put(Head(Ready), PList(me)))
  }
}
