/** What each step does to the messages on their way from one process to another. */
module Mail {
  import opened Layout
  import opened Rings
  import opened PcbPool
  import opened MsgPool
  import opened Kernel
  import opened Invariant
  import opened Subtrees

  /** The payloads from s in a queue, in queue order. */
  function Payloads(msgs: MsgRows, q: seq<Addr>, s: PcbId): seq<int> {
    if q == [] then []
    else (if msgs[MsgOf(q[0])].sender == Some(s) then [msgs[MsgOf(q[0])].payload] else []) + Payloads(msgs, q[1..], s)
  }

  /** Messages from s waiting in the inbox of d. */
  function InFlight(k: K, s: PcbId, d: PcbId): seq<int> {
    Payloads(k.msgs, k.Q(Inbox(d)), s)
  }

  lemma {:induction false} PayloadsAppend(msgs: MsgRows, q: seq<Addr>, x: Addr, s: PcbId)
    ensures Payloads(msgs, q + [x], s) ==
      Payloads(msgs, q, s) + (if msgs[MsgOf(x)].sender == Some(s) then [msgs[MsgOf(x)].payload] else [])
  {
    if q != [] {
      assert (q + [x])[1..] == q[1..] + [x];
      PayloadsAppend(msgs, q[1..], x, s);
    } else {
      assert q + [x] == [x] && [x][1..] == [];
    }
  }

  lemma {:induction false} PayloadsFrame(msgs: MsgRows, msgs2: MsgRows, q: seq<Addr>, s: PcbId)
    requires forall x | x in q :: msgs2[MsgOf(x)] == msgs[MsgOf(x)]
    ensures Payloads(msgs2, q, s) == Payloads(msgs, q, s)
  {
    if q != [] {
      assert q[0] in q;
      PayloadsFrame(msgs, msgs2, q[1..], s);
    }
  }

  /** Taking the first message that f accepts takes the oldest message of its sender. */
  lemma {:induction false} PayloadsTake(pcbs: PcbRows, msgs: MsgRows, q: seq<Addr>, f: Filter, x: Addr, s: PcbId)
    requires FirstMatch(pcbs, msgs, q, f) == Some(x)
    requires f.From? ==> forall y | y in q :: Matches(pcbs, msgs, y, f) <==> msgs[MsgOf(y)].sender == Some(f.pcb)
    ensures Payloads(msgs, q, s) ==
      (if msgs[MsgOf(x)].sender == Some(s) then [msgs[MsgOf(x)].payload] else []) + Payloads(msgs, Without(q, x), s)
  {
    if q[0] != x {
      var r := q[1..];
      assert q == [q[0]] + r && Without(q, x) == [q[0]] + Without(r, x)
             && ([q[0]] + Without(r, x))[1..] == Without(r, x);
      FirstMatchIn(pcbs, msgs, q, f);
      PayloadsTake(pcbs, msgs, r, f, x, s);
    }
  }

  // ---------- the steps ----------

  /** One message x is appended to the inbox of d0, and no other queued message is written. */
  lemma AppendedInFlight(k: K, k2: K, d0: PcbId, x: Addr, m: Msg, s: PcbId, d: PcbId)
    requires forall e: PcbId :: k2.Q(Inbox(e)) == if e == d0 then k.Q(Inbox(e)) + [x] else k.Q(Inbox(e))
    requires k2.msgs[MsgOf(x)] == m
    requires forall e: PcbId, y | y in k.Q(Inbox(e)) :: k2.msgs[MsgOf(y)] == k.msgs[MsgOf(y)]
    ensures InFlight(k2, s, d) == InFlight(k, s, d) + (if d == d0 && m.sender == Some(s) then [m.payload] else [])
  {
    PayloadsFrame(k.msgs, k2.msgs, k.Q(Inbox(d)), s);
    PayloadsAppend(k2.msgs, k.Q(Inbox(d)), x, s);
  }

  lemma SendInFlight(k: K, me: PcbId, dest: PcbId, payload: int, s: PcbId, d: PcbId)
    requires ListsOk(k)
    ensures var (k2, r) := Send(k, me, dest, payload);
            InFlight(k2, s, d) == InFlight(k, s, d) + (if r == Sent && s == me && d == dest then [payload] else [])
  {
    if k.Q(MsgFree) != [] {
      var m := Msg(Some(me), payload);
      FilledMail(k, m);
      if k.Live(dest) {
        AppendedInFlight(k, Send(k, me, dest, payload).0, dest, k.Q(MsgFree)[0], m, s, d);
      } else {
        PayloadsFrame(k.msgs, Filled(k, m).0.msgs, k.Q(Inbox(d)), s);
      }
    }
  }

  lemma ReceiveInFlight(k: K, me: PcbId, f: Filter, s: PcbId, d: PcbId)
    requires PidsOk(k) && MessagesOk(k)
    ensures var (k2, r) := Receive(k, me, f);
            InFlight(k, s, d) ==
              (if r.Some? && d == me && r.value.sender == Some(s) then [r.value.payload] else []) + InFlight(k2, s, d)
  {
    var q := k.Q(Inbox(me));
    match FirstMatch(k.pcbs, k.msgs, q, f) {
      case Some(x) =>
        ReceivedInFlight(k, me, f, x, s);
      case None =>
    }
  }

  lemma ReceivedInFlight(k: K, me: PcbId, f: Filter, x: Addr, s: PcbId)
    requires PidsOk(k) && MessagesOk(k) && FirstMatch(k.pcbs, k.msgs, k.Q(Inbox(me)), f) == Some(x)
    ensures InFlight(k, s, me) ==
      (if k.msgs[MsgOf(x)].sender == Some(s) then [k.msgs[MsgOf(x)].payload] else []) +
      Payloads(k.msgs, Without(k.Q(Inbox(me)), x), s)
  {
    if f.From? {
      forall y | y in k.Q(Inbox(me)) ensures Matches(k.pcbs, k.msgs, y, f) <==> k.msgs[MsgOf(y)].sender == Some(f.pcb) {
        MatchIsIdentity(k, me, y, f.pcb);
      }
    }
    PayloadsTake(k.pcbs, k.msgs, k.Q(Inbox(me)), f, x, s);
  }

  lemma WokenInFlight(k: K, q: Queue, p: PcbId, status: int, s: PcbId, d: PcbId)
    requires ListsOk(k) && MayWake(k, q, p)
    ensures InFlight(Woken(k, q, p, status), s, d) ==
      InFlight(k, s, d) + (if s == k.ssi && d == p then [status] else [])
  {
    var m := Msg(Some(k.ssi), status);
    FilledMail(k, m);
    AppendedInFlight(k, Woken(k, q, p, status), p, k.Q(MsgFree)[0], m, s, d);
  }

  lemma WakeAllRound(k: K, s: PcbId, d: PcbId) returns (k1: K)
    requires ListsOk(k) && MayTick(k) && k.Q(Head(PseudoClock)) != []
    ensures ListsOk(k1) && MayTick(k1) && WakeAll(k1) == WakeAll(k) && k1.ssi == k.ssi
    ensures k1.Q(Head(PseudoClock)) == k.Q(Head(PseudoClock))[1..]
    ensures var q := k.Q(Head(PseudoClock)); PList(d) in q[1..] <==> PList(d) in q && PList(d) != q[0]
    ensures InFlight(k1, s, d) ==
      InFlight(k, s, d) + (if s == k.ssi && PList(d) == k.Q(Head(PseudoClock))[0] then [0] else [])
  {
    FirstWaiter(k, d);
    var p := PcbOf(k.Q(Head(PseudoClock))[0]);
    k1 := Woken(k, PseudoClock, p, 0);
    WakeAllStep(k, p);
    WokenLists(k, PseudoClock, p, 0);
    WokenInFlight(k, PseudoClock, p, 0, s, d);
  }

  /** The timer answers every clock waiter exactly once. */
  lemma {:induction false} WakeAllInFlight(k: K, s: PcbId, d: PcbId)
    requires ListsOk(k) && MayTick(k)
    ensures InFlight(WakeAll(k), s, d) ==
      InFlight(k, s, d) + (if s == k.ssi && PList(d) in k.Q(Head(PseudoClock)) then [0] else [])
    decreases |k.Q(Head(PseudoClock))|
  {
    if k.Q(Head(PseudoClock)) != [] {
      var k1 := WakeAllRound(k, s, d);
      WakeAllInFlight(k1, s, d);
    }
  }

  lemma ScheduleInFlight(k: K, s: PcbId, d: PcbId)
    ensures InFlight(Schedule(k), s, d) == InFlight(k, s, d)
  {
  }

  /** A new process starts with an empty inbox; nobody else's changes. */
  lemma CreateInFlight(k: K, parent: PcbId, s: PcbId, d: PcbId)
    ensures var (k2, r) := Create(k, parent);
            InFlight(k2, s, d) == if r == Some(d) then [] else InFlight(k, s, d)
  {
  }

  lemma KillInFlight(k: K, p: PcbId, s: PcbId, d: PcbId)
    requires MayKill(k, p)
    ensures InFlight(Kill(k, p), s, d) == InFlight(k, s, d)
  {
    KillGone(k, p);
  }

  lemma DoIoInFlight(k: K, p: PcbId, command: int, s: PcbId, d: PcbId)
    ensures InFlight(DoIo(k, p, command), s, d) == InFlight(k, s, d)
  {
  }
}
