/** No message disappears unnoticed: free, queued at a live process, or lost for one of two reasons. */
module Accounting {
  import opened Layout
  import opened Rings
  import opened PcbPool
  import opened MsgPool
  import opened Kernel
  import opened Invariant
  import opened Subtrees
  import opened Boot
  import opened Runs

  /** Message m is in the pool or in the inbox of a live process. */
  ghost predicate Held(k: K, m: MsgId) {
    MList(m) in k.Q(MsgFree) || exists d: PcbId :: k.Live(d) && MList(m) in k.Q(Inbox(d))
  }

  ghost function Lost(k: K): set<nat> {
    set m: nat | m < MAXMESSAGES && !Held(k, m)
  }

  // ---------- conservation ----------

  /** The messages threaded on a list. */
  ghost function Ids(s: seq<Addr>): set<nat> {
    set m: nat | m < MAXMESSAGES && MList(m) in s
  }

  lemma {:induction false} IdsLength(s: seq<Addr>)
    requires NoDup(s) && forall x | x in s :: x.MList?
    ensures |Ids(s)| == |s|
  {
    if s != [] {
      assert s[0] in s && s[0] !in s[1..];
      IdsLength(s[1..]);
      assert Ids(s) == Ids(s[1..]) + {s[0].msg};
    } else {
      assert Ids(s) == {};
    }
  }

  /** The messages queued at the processes ps. */
  ghost function MailOf(k: K, ps: seq<PcbId>): set<nat> {
    if ps == [] then {} else Ids(k.Q(Inbox(ps[0]))) + MailOf(k, ps[1..])
  }

  function MailTotal(k: K, ps: seq<PcbId>): nat {
    if ps == [] then 0 else |k.Q(Inbox(ps[0]))| + MailTotal(k, ps[1..])
  }

  lemma {:induction false} MailOfMember(k: K, ps: seq<PcbId>, m: nat)
    ensures m in MailOf(k, ps) <==> m < MAXMESSAGES && exists d | d in ps :: MList(m) in k.Q(Inbox(d))
  {
    if ps != [] {
      MailOfMember(k, ps[1..], m);
      assert forall d :: d in ps <==> d == ps[0] || d in ps[1..];
    }
  }

  lemma InboxIds(k: K, h: Addr)
    requires Shape(k.rings) && IsMsgQ(h)
    ensures |Ids(k.Q(h))| == |k.Q(h)|
  {
    forall x | x in k.Q(h) ensures x.MList? { assert Fits(h, x); }
    IdsLength(k.Q(h));
  }

  lemma {:induction false} MailOfSize(k: K, ps: seq<PcbId>)
    requires Shape(k.rings) && NoDup(ps)
    ensures |MailOf(k, ps)| == MailTotal(k, ps)
  {
    if ps != [] {
      InboxIds(k, Inbox(ps[0]));
      MailOfSize(k, ps[1..]);
      assert ps[0] !in ps[1..];
      forall m | m in Ids(k.Q(Inbox(ps[0]))) ensures m !in MailOf(k, ps[1..]) {
        MailOfMember(k, ps[1..], m);
      }
      assert Ids(k.Q(Inbox(ps[0]))) !! MailOf(k, ps[1..]);
    }
  }

  /** The live rows among the first n. */
  function LiveRows(k: K, n: nat): seq<PcbId>
    requires n <= MAXPROC
  {
    if n == 0 then [] else LiveRows(k, n - 1) + (if k.Live(n - 1) then [n - 1] else [])
  }

  lemma {:induction false} LiveRowsAre(k: K, n: nat)
    requires n <= MAXPROC
    ensures NoDup(LiveRows(k, n)) && forall p: PcbId :: p in LiveRows(k, n) <==> p < n && k.Live(p)
  {
    if n > 0 { LiveRowsAre(k, n - 1); }
  }

  function AllMessages(n: nat): (r: set<nat>)
    ensures forall m :: m in r <==> 0 <= m < n
    ensures |r| == n
  {
    if n == 0 then {} else AllMessages(n - 1) + {n - 1}
  }

  /** In every reachable state every message of the table is free, queued at one live process, or lost. */
  lemma EveryMessageIsSomewhere(k: K)
    requires Reachable(k)
    ensures |k.Q(MsgFree)| + MailTotal(k, LiveRows(k, MAXPROC)) + |Lost(k)| == MAXMESSAGES
  {
    ReachableInv(k);
    MessagesAddUp(k);
  }

  lemma MessagesAddUp(k: K)
    requires Shape(k.rings)
    ensures |k.Q(MsgFree)| + MailTotal(k, LiveRows(k, MAXPROC)) + |Lost(k)| == MAXMESSAGES
  {
    LiveRowsAre(k, MAXPROC);
    MessagesAddUpOver(k, LiveRows(k, MAXPROC), MAXMESSAGES);
  }

  lemma MessagesAddUpOver(k: K, live: seq<PcbId>, all: nat)
    requires Shape(k.rings) && NoDup(live) && (forall p: PcbId :: p in live <==> k.Live(p)) && all == MAXMESSAGES
    ensures |k.Q(MsgFree)| + MailTotal(k, live) + |Lost(k)| == all
  {
    InboxIds(k, MsgFree);
    MailOfSize(k, live);
    MailIsHeld(k, live);
    NothingElse(k, live, all);
    SizesAdd(Ids(k.Q(MsgFree)), MailOf(k, live), Lost(k), AllMessages(all));
  }

  lemma NothingElse(k: K, live: seq<PcbId>, all: nat)
    requires (forall p: PcbId | k.Live(p) :: p in live) && all == MAXMESSAGES
    requires forall m | m in MailOf(k, live) :: m < MAXMESSAGES
    ensures forall m | m in AllMessages(all) :: m in Ids(k.Q(MsgFree)) + MailOf(k, live) + Lost(k)
    ensures Ids(k.Q(MsgFree)) + MailOf(k, live) + Lost(k) <= AllMessages(all)
  {
    NothingBeyond(Ids(k.Q(MsgFree)), MailOf(k, live), Lost(k), all);
    forall m | m in AllMessages(all) ensures m in Ids(k.Q(MsgFree)) + MailOf(k, live) + Lost(k) {
      SomewhereOrLost(k, live, m);
    }
  }

  lemma NothingBeyond(a: set<nat>, b: set<nat>, c: set<nat>, n: nat)
    requires forall m | m in a || m in b || m in c :: m < n
    ensures a + b + c <= AllMessages(n)
  {
  }

  /** No message is counted twice. */
  lemma MailIsHeld(k: K, live: seq<PcbId>)
    requires Shape(k.rings) && forall d | d in live :: k.Live(d)
    ensures Ids(k.Q(MsgFree)) !! MailOf(k, live) && Ids(k.Q(MsgFree)) !! Lost(k) && MailOf(k, live) !! Lost(k)
    ensures forall m | m in MailOf(k, live) :: m < MAXMESSAGES
  {
    forall m | m in MailOf(k, live) ensures m < MAXMESSAGES && MList(m) !in k.Q(MsgFree) && Held(k, m) {
      MailOfMember(k, live, m);
      QueuedOnce(k, live, m);
    }
  }

  lemma QueuedOnce(k: K, live: seq<PcbId>, m: MsgId)
    requires Shape(k.rings) && (exists d | d in live :: MList(m) in k.Q(Inbox(d))) && forall d | d in live :: k.Live(d)
    ensures MList(m) !in k.Q(MsgFree) && Held(k, m)
  {
    var d :| d in live && MList(m) in k.Q(Inbox(d));
    assert k.Live(d);
  }

  lemma SomewhereOrLost(k: K, live: seq<PcbId>, m: MsgId)
    requires forall d: PcbId | k.Live(d) :: d in live
    ensures m in Ids(k.Q(MsgFree)) + MailOf(k, live) + Lost(k)
  {
    MailOfMember(k, live, m);
    if d: PcbId :| k.Live(d) && MList(m) in k.Q(Inbox(d)) {
      assert d in live;
    }
  }

  lemma SizesAdd(a: set<nat>, b: set<nat>, c: set<nat>, all: set<nat>)
    requires a !! b && a !! c && b !! c && a + b + c <= all && forall m | m in all :: m in a + b + c
    ensures |a| + |b| + |c| == |all|
  {
    assert a + b + c == all;
    assert |a + b| == |a| + |b|;
    assert |(a + b) + c| == |a + b| + |c|;
  }

  // ---------- what a step loses ----------

  /** Messages that the step takes out of circulation: the message of a send to a dead process, and
      the inboxes of the killed. */
  ghost function NewlyLost(k: K, e: Event): set<nat>
    requires Enabled(k, e)
  {
    match e
    case Sends(d, _) => if k.Q(MsgFree) != [] && !k.Live(d) then {MsgOf(k.Q(MsgFree)[0]) as nat} else {}
    case Kills(p) => MailOf(k, Progeny(k, p))
    case Dies => MailOf(k, Progeny(k, k.current.value))
    case _ => {}
  }

  lemma HeldFrame(k: K, k2: K, m: MsgId)
    requires forall d: PcbId :: k2.Live(d) == k.Live(d)
    requires MList(m) in k2.Q(MsgFree) <==> MList(m) in k.Q(MsgFree)
    requires forall d: PcbId :: MList(m) in k2.Q(Inbox(d)) <==> MList(m) in k.Q(Inbox(d))
    ensures Held(k2, m) == Held(k, m)
  {
  }

  lemma SendHeld(k: K, me: PcbId, d: PcbId, v: int, m: MsgId)
    requires ListsOk(k)
    ensures Held(Send(k, me, d, v).0, m) <==>
              Held(k, m) && !(k.Q(MsgFree) != [] && !k.Live(d) && m == MsgOf(k.Q(MsgFree)[0]))
  {
    if k.Q(MsgFree) != [] {
      PopShape(k.rings, MsgFree);
      assert k.Q(MsgFree)[0] in k.Q(MsgFree);
      SendMoves(k, me, d, v);
      if k.Live(d) {
        PooledThenQueued(k, Send(k, me, d, v).0, d, m);
      } else {
        PooledThenLost(k, Send(k, me, d, v).0, m);
      }
    }
  }

  lemma SendMoves(k: K, me: PcbId, d: PcbId, v: int)
    requires k.Q(MsgFree) != []
    ensures var k2 := Send(k, me, d, v).0;
            && (forall e: PcbId :: k2.Live(e) == k.Live(e)) && k2.Q(MsgFree) == k.Q(MsgFree)[1..]
            && forall e: PcbId :: k2.Q(Inbox(e)) ==
                 if e == d && k.Live(d) then k.Q(Inbox(e)) + [k.Q(MsgFree)[0]] else k.Q(Inbox(e))
  {
  }

  /** The first message of the pool moves to the inbox of a live process d. */
  lemma PooledThenQueued(k: K, k2: K, d: PcbId, m: MsgId)
    requires k.Q(MsgFree) != [] && k.Live(d) && (forall e: PcbId :: k2.Live(e) == k.Live(e))
    requires k2.Q(MsgFree) == k.Q(MsgFree)[1..]
    requires forall e: PcbId :: k2.Q(Inbox(e)) == if e == d then k.Q(Inbox(e)) + [k.Q(MsgFree)[0]] else k.Q(Inbox(e))
    ensures Held(k2, m) == Held(k, m)
  {
    var x, t := k.Q(MsgFree)[0], k.Q(MsgFree)[1..];
    assert k.Q(MsgFree) == [x] + t;
    if MList(m) == x {
      assert MList(m) in k2.Q(Inbox(d));
    }
  }

  /** The first message of the pool goes nowhere. */
  lemma PooledThenLost(k: K, k2: K, m: MsgId)
    requires k.Q(MsgFree) != [] && Loose(k.rings[MsgFree := k.Q(MsgFree)[1..]], k.Q(MsgFree)[0])
             && k.Q(MsgFree)[0].MList?
    requires forall e: PcbId :: k2.Live(e) == k.Live(e) && k2.Q(Inbox(e)) == k.Q(Inbox(e))
    requires k2.Q(MsgFree) == k.Q(MsgFree)[1..]
    ensures Held(k2, m) <==> Held(k, m) && m != MsgOf(k.Q(MsgFree)[0])
  {
    var x, t := k.Q(MsgFree)[0], k.Q(MsgFree)[1..];
    var rs := k.rings[MsgFree := t];
    assert k.Q(MsgFree) == [x] + t && x == MList(MsgOf(x)) && x !in rs[MsgFree];
    forall e: PcbId ensures x !in k.Q(Inbox(e)) {
      if Inbox(e) in k.rings { assert x !in rs[Inbox(e)]; }
    }
  }

  lemma ReceiveHeld(k: K, me: PcbId, f: Filter, m: MsgId)
    requires ListsOk(k) && k.Live(me)
    ensures Held(Receive(k, me, f).0, m) <==> Held(k, m)
  {
    FirstMatchIn(k.pcbs, k.msgs, k.Q(Inbox(me)), f);
    match FirstMatch(k.pcbs, k.msgs, k.Q(Inbox(me)), f) {
      case Some(x) =>
        var k2 := Receive(k, me, f).0;
        WithoutMembers(k.rings[Inbox(me)], x);
        assert forall p: PcbId :: k2.Live(p) == k.Live(p);
        assert k2.Q(MsgFree) == k.Q(MsgFree) + [x];
        assert forall p: PcbId | p != me :: k2.Q(Inbox(p)) == k.Q(Inbox(p));
      case None =>
        HeldFrame(k, Receive(k, me, f).0, m);
    }
  }

  lemma CreateHeld(k: K, parent: PcbId, m: MsgId)
    requires ListsOk(k) && TreeOk(k) && k.Live(parent)
    ensures Held(Create(k, parent).0, m) <==> Held(k, m)
  {
    if k.Q(PcbFree) != [] {
      CreateLists(k, parent);
      FreeIsNobodysChild(k);
      CreateInboxes(k, parent);
      NewcomerHolds(k, Create(k, parent).0, PcbOf(k.Q(PcbFree)[0]), m);
    }
  }

  lemma CreateInboxes(k: K, parent: PcbId)
    requires k.Q(PcbFree) != []
    ensures var k2, c := Create(k, parent).0, PcbOf(k.Q(PcbFree)[0]);
            && k2.Q(MsgFree) == k.Q(MsgFree)
            && forall d: PcbId :: k2.Q(Inbox(d)) == if d == c then [] else k.Q(Inbox(d))
  {
  }

  /** A new process c has no mail and what was in the inbox of its PCB was lost already. */
  lemma NewcomerHolds(k: K, k2: K, c: PcbId, m: MsgId)
    requires !k.Live(c) && forall d: PcbId :: k2.Live(d) <==> k.Live(d) || d == c
    requires k2.Q(MsgFree) == k.Q(MsgFree)
    requires forall d: PcbId :: k2.Q(Inbox(d)) == if d == c then [] else k.Q(Inbox(d))
    ensures Held(k2, m) <==> Held(k, m)
  {
  }

  lemma KillHeld(k: K, p: PcbId, m: MsgId)
    requires ListsOk(k) && MayKill(k, p)
    ensures Held(Killed(k, p), m) <==> Held(k, m) && m !in MailOf(k, Progeny(k, p))
  {
    var k2, dead := Killed(k, p), Progeny(k, p);
    KilledOnly(k, p);
    MailOfMember(k, dead, m);
  }

  lemma KilledOnly(k: K, p: PcbId)
    requires MayKill(k, p)
    ensures var k2, dead := Killed(k, p), Progeny(k, p);
            && (forall d: PcbId :: k2.Live(d) <==> k.Live(d) && d !in dead)
            && k2.Q(MsgFree) == k.Q(MsgFree) && forall d: PcbId :: k2.Q(Inbox(d)) == k.Q(Inbox(d))
  {
    KillGone(k, p);
    forall d: PcbId ensures Killed(k, p).Live(d) <==> k.Live(d) && d !in Progeny(k, p) {
      GoneLive(k, Kill(k, p), Progeny(k, p), k.pcbs[p].parent, d);
    }
  }

  lemma WokenHeld(k: K, q: Queue, p: PcbId, status: int, m: MsgId)
    requires ListsOk(k) && MayWake(k, q, p)
    ensures Held(Woken(k, q, p, status), m) <==> Held(k, m)
  {
    BlockedIsAlive(k, q, p);
    WokenMoves(k, q, p, status);
    PooledThenQueued(k, Woken(k, q, p, status), p, m);
  }

  lemma WokenMoves(k: K, q: Queue, p: PcbId, status: int)
    requires MayWake(k, q, p)
    ensures var k2 := Woken(k, q, p, status);
            && (forall e: PcbId :: k2.Live(e) == k.Live(e)) && k2.Q(MsgFree) == k.Q(MsgFree)[1..]
            && forall e: PcbId :: k2.Q(Inbox(e)) == if e == p then k.Q(Inbox(e)) + [k.Q(MsgFree)[0]] else k.Q(Inbox(e))
  {
  }

  lemma ScheduleHeld(k: K, m: MsgId)
    ensures Held(Schedule(k), m) == Held(k, m)
  {
    HeldFrame(k, Schedule(k), m);
  }

  lemma {:induction false} WakeAllHeld(k: K, m: MsgId)
    requires Inv(k) && MayTick(k)
    ensures Held(WakeAll(k), m) == Held(k, m)
    decreases |k.Q(Head(PseudoClock))|
  {
    if k.Q(Head(PseudoClock)) != [] {
      var k1 := WakeOneHeld(k, m);
      WakeAllHeld(k1, m);
    }
  }

  lemma WakeOneHeld(k: K, m: MsgId) returns (k1: K)
    requires Inv(k) && MayTick(k) && k.Q(Head(PseudoClock)) != []
    ensures Inv(k1) && MayTick(k1) && WakeAll(k1) == WakeAll(k)
    ensures |k1.Q(Head(PseudoClock))| < |k.Q(Head(PseudoClock))|
    ensures Held(k1, m) == Held(k, m)
  {
    FirstWaiter(k, 0);
    var p := PcbOf(k.Q(Head(PseudoClock))[0]);
    k1 := Woken(k, PseudoClock, p, 0);
    WakeAllStep(k, p);
    WokenKeeps(k, PseudoClock, p, 0);
    WokenHeld(k, PseudoClock, p, 0, m);
  }

  lemma DeviceHeld(k: K, q: Queue, n: int, v: int, m: MsgId)
    requires ListsOk(k) && q != Ready && MayAnswer(k, q, n)
    ensures Held(DeviceDone(k, q, n, v), m) == Held(k, m)
  {
    forall x | x in k.Q(Head(q)) ensures x.PList? { assert Fits(Head(q), x); }
    FirstOnDevIn(k.pcbs, k.Q(Head(q)), n);
    match FirstOnDev(k.pcbs, k.Q(Head(q)), n) {
      case None => ScheduleHeld(k, m);
      case Some(p) => AnsweredHeld(k, q, p, v, m);
    }
  }

  lemma AnsweredHeld(k: K, q: Queue, p: PcbId, v: int, m: MsgId)
    requires ListsOk(k) && MayWake(k, q, p)
    ensures Held(ExitInterrupt(Woken(k, q, p, v)), m) == Held(k, m)
  {
    WokenHeld(k, q, p, v, m);
    ScheduleHeld(Woken(k, q, p, v), m);
  }

  lemma MoveHeld(k: K, e: Event, m: MsgId)
    requires Enabled(k, e) && (e.WaitsClock? || e.DoesIo? || e.Slice?)
    ensures Held(Apply(k, e), m) == Held(k, m)
  {
    HeldFrame(k, Apply(k, e), m);
  }

  lemma DieHeld(k: K, m: MsgId)
    requires ListsOk(k) && Enabled(k, Dies)
    ensures Held(Apply(k, Dies), m) <==> Held(k, m) && m !in MailOf(k, Progeny(k, k.current.value))
  {
    KillHeld(k, k.current.value, m);
    ScheduleHeld(Killed(k, k.current.value), m);
  }

  lemma TickHeld(k: K, m: MsgId)
    requires Inv(k) && Enabled(k, Ticks)
    ensures Held(Apply(k, Ticks), m) <==> Held(k, m)
  {
    WakeAllHeld(k, m);
    ScheduleHeld(WakeAll(k), m);
  }

  lemma StepHeld(k: K, e: Event, m: MsgId)
    requires Inv(k) && Enabled(k, e)
    ensures Held(Apply(k, e), m) <==> Held(k, m) && m !in NewlyLost(k, e)
  {
    match e {
      case Sends(d, v) => SendHeld(k, k.current.value, d, v, m);
      case Receives(f) => ReceiveHeld(k, k.current.value, f, m);
      case Creates(p) => CreateHeld(k, p, m);
      case Kills(p) => KillHeld(k, p, m);
      case Dies => DieHeld(k, m);
      case Ticks => TickHeld(k, m);
      case Interrupts(q, n, v) => DeviceHeld(k, q, n, v, m);
      case _ => MoveHeld(k, e, m);
    }
  }

  /** Everything that a step loses was in circulation before it. */
  lemma LosesWhatWasHeld(k: K, e: Event, m: MsgId)
    requires Inv(k) && Enabled(k, e) && m in NewlyLost(k, e)
    ensures Held(k, m)
  {
    match e {
      case Sends(d, v) =>
        assert k.Q(MsgFree)[0] in k.Q(MsgFree) && Fits(MsgFree, k.Q(MsgFree)[0]);
      case Kills(p) => KilledMailHeld(k, p, m);
      case Dies => KilledMailHeld(k, k.current.value, m);
    }
  }

  lemma KilledMailHeld(k: K, p: PcbId, m: MsgId)
    requires MayKill(k, p) && m in MailOf(k, Progeny(k, p))
    ensures Held(k, m)
  {
    KillDoomed(k, p);
    MailOfMember(k, Progeny(k, p), m);
  }

  /** How many messages that is. */
  ghost function LossOf(k: K, e: Event): nat
    requires Enabled(k, e)
  {
    match e
    case Sends(d, v) => if Send(k, k.current.value, d, v).1 == NoDestination then 1 else 0
    case Kills(p) => MailTotal(k, Progeny(k, p))
    case Dies => MailTotal(k, Progeny(k, k.current.value))
    case _ => 0
  }

  lemma LossSize(k: K, e: Event)
    requires ListsOk(k) && Enabled(k, e)
    ensures |NewlyLost(k, e)| == LossOf(k, e)
    ensures forall m | m in NewlyLost(k, e) :: m < MAXMESSAGES
  {
    match e {
      case Kills(p) => KilledMailSize(k, p);
      case Dies => KilledMailSize(k, k.current.value);
      case _ =>
    }
  }

  lemma KilledMailSize(k: K, p: PcbId)
    requires ListsOk(k) && MayKill(k, p)
    ensures |MailOf(k, Progeny(k, p))| == MailTotal(k, Progeny(k, p))
    ensures forall m | m in MailOf(k, Progeny(k, p)) :: m < MAXMESSAGES
  {
    KillDoomed(k, p);
    MailOfSize(k, Progeny(k, p));
    forall m | m in MailOf(k, Progeny(k, p)) ensures m < MAXMESSAGES { MailOfMember(k, Progeny(k, p), m); }
  }

  /** Messages get lost one by one at sends to dead processes and inbox by inbox at kills, and never return. */
  lemma StepLoses(k: K, e: Event)
    requires Inv(k) && Enabled(k, e)
    ensures Lost(Apply(k, e)) == Lost(k) + NewlyLost(k, e) && Lost(k) !! NewlyLost(k, e)
    ensures |Lost(Apply(k, e))| == |Lost(k)| + LossOf(k, e)
  {
    LossSize(k, e);
    forall m: MsgId ensures Turns(Lost(k), NewlyLost(k, e), Lost(Apply(k, e)), m) { StepLosesOne(k, e, m); }
    LosesOnly(k, Apply(k, e), NewlyLost(k, e));
  }

  lemma LosesOnly(k: K, k2: K, lost: set<nat>)
    requires (forall m | m in lost :: m < MAXMESSAGES) && forall m: MsgId :: Turns(Lost(k), lost, Lost(k2), m)
    ensures Lost(k2) == Lost(k) + lost && Lost(k) !! lost && |Lost(k2)| == |Lost(k)| + |lost|
  {
    forall m: nat | m < MAXMESSAGES ensures Turns(Lost(k), lost, Lost(k2), m) {
      var id: MsgId := m;
      assert Turns(Lost(k), lost, Lost(k2), id);
    }
    Grows(Lost(k), lost, Lost(k2), MAXMESSAGES);
  }

  /** m is in c exactly if it is in one of a and b, and not in both. */
  predicate Turns(a: set<nat>, b: set<nat>, c: set<nat>, m: nat) {
    true == ((m in c <==> m in a || m in b) && (m in b ==> m !in a))
  }

  lemma Grows(a: set<nat>, b: set<nat>, c: set<nat>, n: nat)
    requires forall m | m in a || m in b || m in c :: m < n
    requires forall m: nat | m < n :: Turns(a, b, c, m)
    ensures c == a + b && a !! b && |c| == |a| + |b|
  {
    forall m: nat | m < n ensures m in c <==> m in a + b { assert Turns(a, b, c, m); }
    forall m | m in b ensures m !in a { assert Turns(a, b, c, m); }
    assert c == a + b;
  }

  lemma StepLosesOne(k: K, e: Event, m: MsgId)
    requires Inv(k) && Enabled(k, e)
    ensures Turns(Lost(k), NewlyLost(k, e), Lost(Apply(k, e)), m)
  {
    StepHeld(k, e, m);
    if m in NewlyLost(k, e) { LosesWhatWasHeld(k, e, m); }
  }

  ghost function RunLoss(k: K, es: seq<Event>): nat
    requires IsRun(k, es)
    decreases |es|
  {
    if es == [] then 0 else LossOf(k, es[0]) + RunLoss(Apply(k, es[0]), es[1..])
  }

  lemma {:induction false} RunLoses(k: K, es: seq<Event>)
    requires Inv(k) && Busy(k) && IsRun(k, es)
    ensures |Lost(End(k, es))| == |Lost(k)| + RunLoss(k, es)
    decreases |es|
  {
    if es != [] {
      StepKeeps(k, es[0]);
      StepBusy(k, es[0]);
      StepLoses(k, es[0]);
      RunLoses(Apply(k, es[0]), es[1..]);
    }
  }

  /** Over any run from main() on: the messages still usable are all but those lost on the way. */
  lemma MessageAccount(k0: K, es: seq<Event>)
    requires Initial(k0) && IsRun(Schedule(k0), es)
    ensures var k := End(Schedule(k0), es);
            |k.Q(MsgFree)| + MailTotal(k, LiveRows(k, MAXPROC)) == MAXMESSAGES - RunLoss(Schedule(k0), es)
  {
    FirstDispatch(k0);
    RunLoses(Schedule(k0), es);
    RunKeeps(Schedule(k0), es);
    MessagesAddUp(End(Schedule(k0), es));
    NothingLostYet(Schedule(k0));
  }

  lemma NothingLostYet(k: K)
    requires k.Q(MsgFree) == FreeMsgs()
    ensures Lost(k) == {}
  {
    forall m: nat | m < MAXMESSAGES ensures Held(k, m) {
      assert FreeMsgs()[MAXMESSAGES - 1 - m] == MList(m);
    }
  }
}
