/** What SSIRequest does and returns for each service, and that the loop sends the client what it returned. */
module Services {
  import opened Layout
  import opened Rings
  import opened PcbPool
  import opened Kernel
  import opened Invariant
  import opened Terminate
  import opened Subtrees
  import opened Mail
  import opened Replies
  import Answers
  import Runs
  import Wakeups

  ghost predicate Allows(k: K, r: Request, client: PcbId) {
    k.current == Some(k.ssi) && match Effect(r, client) case None => true case Some(e) => Runs.Enabled(k, e)
  }

  /** The state after a service. */
  ghost function Served(k: K, r: Request, client: PcbId): K
    requires Allows(k, r, client)
  {
    match Effect(r, client)
    case None => k
    case Some(e) => Runs.Apply(k, e)
  }

  // ---------- a birth ----------

  /** c was dead and is a ready child of parent now, the youngest of all, with no mail and no children; nobody else is
      any different, but that parent has one child more. */
  ghost predicate Born(k: K, k2: K, c: PcbId, parent: PcbId) {
    BornAlone(k, k2, c) && BornRow(k, k2, c, parent) && BornLists(k, k2, c, parent)
  }

  ghost predicate BornAlone(k: K, k2: K, c: PcbId) {
    true == (!k.Live(c) && forall p: PcbId :: k2.Live(p) <==> k.Live(p) || p == c)
  }

  ghost predicate BornRow(k: K, k2: K, c: PcbId, parent: PcbId) {
    true == (
      && k2.pcbs == k.pcbs[c := Pcb(Some(parent), k2.pcbs[c].pid, k.pcbs[c].dev, None, None)]
      && (forall p: PcbId :: k.pcbs[p].pid < k2.pcbs[c].pid)
      && k2.msgs == k.msgs && k2.current == k.current && k2.processCount == k.processCount + 1)
  }

  ghost predicate BornLists(k: K, k2: K, c: PcbId, parent: PcbId) {
    true == (
      && (forall q: Queue :: k2.Q(Head(q)) == k.Q(Head(q)) + (if q == Ready then [PList(c)] else []))
      && (forall p: PcbId :: k2.Q(Inbox(p)) == if p == c then [] else k.Q(Inbox(p)))
      && (forall p: PcbId :: k2.Q(PChild(p)) ==
            if p == c then [] else k.Q(PChild(p)) + (if p == parent then [PSib(c)] else [])))
  }

  lemma CreateBears(k: K, parent: PcbId)
    requires ListsOk(k) && PidsOk(k) && TreeOk(k) && k.Live(parent) && k.Q(PcbFree) != []
    ensures Create(k, parent).1.Some? && Born(k, Create(k, parent).0, Create(k, parent).1.value, parent)
  {
    var c := PcbOf(k.Q(PcbFree)[0]);
    FreeIsNobodysChild(k);
    CreateBearsOne(k, parent, c);
    CreateWritesRow(k, parent, c);
    CreateWritesLists(k, parent, c);
  }

  ghost predicate IsNext(k: K, c: PcbId) {
    k.Q(PcbFree) != [] && k.Q(PcbFree)[0] == PList(c)
  }

  lemma CreateBearsOne(k: K, parent: PcbId, c: PcbId)
    requires ListsOk(k) && IsNext(k, c)
    ensures BornAlone(k, Create(k, parent).0, c)
  {
    FirstLeaves(k, c);
    assert Create(k, parent).0.Q(PcbFree) == k.Q(PcbFree)[1..];
    assert PList(c) in k.Q(PcbFree);
  }

  lemma CreateWritesRow(k: K, parent: PcbId, c: PcbId)
    requires PidsOk(k) && IsNext(k, c)
    ensures Create(k, parent).1 == Some(c) && BornRow(k, Create(k, parent).0, c, parent)
  {
  }

  lemma CreateWritesLists(k: K, parent: PcbId, c: PcbId)
    requires IsNext(k, c) && parent != c
    ensures BornLists(k, Create(k, parent).0, c, parent)
  {
  }

  lemma FirstLeaves(k: K, c: PcbId)
    requires ListsOk(k) && k.Q(PcbFree) != [] && k.Q(PcbFree)[0] == PList(c)
    ensures forall p: PcbId :: PList(p) in k.Q(PcbFree)[1..] <==> PList(p) in k.Q(PcbFree) && p != c
  {
    var s := k.Q(PcbFree);
    assert s == [s[0]] + s[1..] && NoDup(s) && s[0] !in s[1..];
  }

  lemma SomebodyIsDead(k: K)
    requires ListsOk(k)
    ensures k.Q(PcbFree) != [] <==> exists p: PcbId :: !k.Live(p)
  {
    if k.Q(PcbFree) != [] {
      assert Fits(PcbFree, k.Q(PcbFree)[0]);
      assert !k.Live(PcbOf(k.Q(PcbFree)[0]));
    }
  }

  // ---------- a death ----------

  /** Exactly the descendants of v that lived are dead; everybody else is as before and where it was. */
  ghost predicate Bereft(k: K, k2: K, v: PcbId) {
    FamilyDead(k, k2, v) && k2.msgs == k.msgs && k2.current == k.current
    && forall p: PcbId | k2.Live(p) :: Untouched(k, k2, p)
  }

  ghost predicate FamilyDead(k: K, k2: K, v: PcbId) {
    forall p: PcbId :: k2.Live(p) <==> k.Live(p) && !Under(k, v, p)
  }

  ghost predicate Untouched(k: K, k2: K, p: PcbId) {
    true == (
      && k2.pcbs[p] == k.pcbs[p] && k2.Q(Inbox(p)) == k.Q(Inbox(p))
      && forall q: Queue :: PList(p) in k2.Q(Head(q)) <==> PList(p) in k.Q(Head(q)))
  }

  /** The progeny of p are its living descendants. */
  lemma {:induction false} UnderIsProgeny(k: K, p: PcbId, x: PcbId)
    requires Forest(k) && PidsOk(k) && k.Live(p)
    ensures x in Progeny(k, p) <==> k.Live(x) && Under(k, p, x)
    decreases k.pcbs[x].pid
  {
    if x in Progeny(k, p) {
      BuildUnder(k, p, x);
    } else if k.Live(x) && Under(k, p, x) && x != p {
      var h := k.pcbs[x].parent.value;
      UnderIsProgeny(k, p, h);
      BuildAt(k, p);
      TreeClosed(k, Build(k, p), h, x);
    }
  }

  lemma KillBereaves(k: K, v: PcbId)
    requires Inv(k) && k.current == Some(k.ssi) && MayKill(k, v)
    ensures Bereft(k, Runs.Killed(k, v), v)
  {
    KillKillsFamily(k, v);
    Runs.KillerRuns(k, v);
    KillWritesNothing(k, v);
    forall p: PcbId | Runs.Killed(k, v).Live(p) ensures Untouched(k, Runs.Killed(k, v), p) {
      UnderIsProgeny(k, v, p);
      KillLeaves(k, v, p);
    }
  }

  lemma KillKillsFamily(k: K, v: PcbId)
    requires Inv(k) && MayKill(k, v)
    ensures FamilyDead(k, Runs.Killed(k, v), v)
  {
    KillGone(k, v);
    forall p: PcbId ensures Runs.Killed(k, v).Live(p) <==> k.Live(p) && !Under(k, v, p) {
      GoneLive(k, Kill(k, v), Progeny(k, v), k.pcbs[v].parent, p);
      UnderIsProgeny(k, v, p);
    }
  }

  lemma KillWritesNothing(k: K, v: PcbId)
    requires MayKill(k, v)
    ensures Runs.Killed(k, v).msgs == k.msgs
  {
    KillGone(k, v);
  }

  lemma KillLeaves(k: K, v: PcbId, p: PcbId)
    requires MayKill(k, v) && p !in Progeny(k, v)
    ensures Untouched(k, Runs.Killed(k, v), p)
  {
    KillGone(k, v);
    forall q: Queue ensures PList(p) in Runs.Killed(k, v).Q(Head(q)) <==> PList(p) in k.Q(Head(q)) {
      SurvivorsMembers(k.Q(Head(q)), Progeny(k, v));
    }
  }

  // ---------- all services ----------

  /** The client waits for the device that this address names, behind those that wait for it already. */
  ghost predicate AwaitsDevice(k: K, k2: K, client: PcbId, a: int) {
    true == (
      forall line: int, devNo: nat, sending: bool | Answers.Names(a, line, devNo, sending) ::
        var q := Answers.DeviceQueue(line, sending);
        Answers.InLine(k2, client, q, devNo, |Answers.Waiters(k, q, devNo)|, InFlight(k, k.ssi, client)))
  }

  /** What each service does, and what it returns. */
  ghost predicate Does(k: K, k2: K, r: Request, client: PcbId, res: int) {
    match r
    case CreateProcess =>
      if exists p: PcbId :: !k.Live(p) then 0 <= res < MAXPROC && Born(k, k2, res, client)
      else k2 == k && res == NOPROC
    case TermProcess(None) => Bereft(k, k2, client) && res == 0
    case TermProcess(Some(v)) => Bereft(k, k2, v) && res == 0
    case DoIO(a) => AwaitsDevice(k, k2, client, a) && res == NOPROC
    case ClockWait => Wakeups.BlockedOn(k2, client, PseudoClock, InFlight(k, k.ssi, client)) && res == NOPROC
    case Value(v) => k2 == k && res == v
    case Unknown => Bereft(k, k2, client) && res == MSGNOGOOD
  }

  lemma ServiceDoes(k: K, r: Request, client: PcbId)
    requires Inv(k) && Allows(k, r, client)
    ensures Does(k, Served(k, r, client), r, client, Result(k, r, client))
  {
    match r {
      case CreateProcess => CreateDoes(k, client);
      case TermProcess(v) => KillDoes(k, r, client);
      case DoIO(a) => IoIsServed(k, client, a);
      case ClockWait => ClockIsServed(k, client);
      case Value(_) =>
      case Unknown => KillDoes(k, r, client);
    }
  }

  lemma IoIsServed(k: K, client: PcbId, a: int)
    requires Inv(k) && Allows(k, Request.DoIO(a), client)
    ensures var r := Request.DoIO(a); Does(k, Served(k, r, client), r, client, Result(k, r, client))
  {
    HandlerServes(k, Request.DoIO(a), client);
    IoDoes(k, client, a);
  }

  /** The two services whose answer comes from an interrupt. */
  lemma HandlerServes(k: K, r: Request, client: PcbId)
    requires Allows(k, r, client)
    ensures r.DoIO? ==>
              MayDoIo(k, client, r.command) && Served(k, r, client) == Runs.Apply(k, Runs.DoesIo(client, r.command))
    ensures r.ClockWait? ==> MayWaitClock(k, client) && Served(k, r, client) == WaitClock(k, client)
  {
  }

  lemma ClockIsServed(k: K, client: PcbId)
    requires Inv(k) && Allows(k, ClockWait, client)
    ensures Does(k, Served(k, ClockWait, client), ClockWait, client, Result(k, ClockWait, client))
  {
    HandlerServes(k, ClockWait, client);
    ClockDoes(k, client);
  }

  lemma KillDoes(k: K, r: Request, client: PcbId)
    requires Inv(k) && Allows(k, r, client) && (r.TermProcess? || r.Unknown?)
    ensures Does(k, Served(k, r, client), r, client, Result(k, r, client))
  {
    KillBereaves(k, Effect(r, client).value.victim);
  }

  lemma ClockDoes(k: K, client: PcbId)
    requires Inv(k) && MayWaitClock(k, client)
    ensures Wakeups.BlockedOn(WaitClock(k, client), client, PseudoClock, InFlight(k, k.ssi, client))
  {
    var k1 := Answers.ClockRequested(k, client);
  }

  lemma CreateDoes(k: K, client: PcbId)
    requires Inv(k) && Allows(k, Request.CreateProcess, client)
    ensures Does(k, Served(k, Request.CreateProcess, client), Request.CreateProcess, client,
                 Result(k, Request.CreateProcess, client))
  {
    SomebodyIsDead(k);
    if k.Q(PcbFree) != [] { CreateBears(k, client); }
  }

  lemma IoDoes(k: K, client: PcbId, a: int)
    requires Inv(k) && MayDoIo(k, client, a)
    ensures AwaitsDevice(k, Runs.Apply(k, Runs.DoesIo(client, a)), client, a)
  {
    forall line: int, devNo: nat, sending: bool | Answers.Names(a, line, devNo, sending)
      ensures var q := Answers.DeviceQueue(line, sending);
              Answers.InLine(Runs.Apply(k, Runs.DoesIo(client, a)), client, q, devNo, |Answers.Waiters(k, q, devNo)|,
                             InFlight(k, k.ssi, client))
    {
      Answers.RequestInLine(k, client, a, line, devNo, sending);
    }
  }

  // ---------- the loop ----------

  /** The loop keeps what the service returned for its client, or listens again if that is NOPROC. */
  lemma ServesThenReplies(t: Talk, r: Request, p: PcbId) returns (res: int)
    requires Inv(t.k) && Allowed(t, Serves(r), p)
    ensures var t2, c := Next(t, Serves(r), p), t.phase.client;
            Does(t.k, t2.k, r, c, res) && t2.phase == if res == NOPROC then Listening else Replying(c, res)
  {
    ServiceDoes(t.k, r, t.phase.client);
    res := Result(t.k, r, t.phase.client);
    ServesIsServed(t, r, p);
  }

  lemma ServesIsServed(t: Talk, r: Request, p: PcbId)
    requires Allowed(t, Serves(r), p)
    ensures Allows(t.k, r, t.phase.client)
    ensures var t2, c, res := Next(t, Serves(r), p), t.phase.client, Result(t.k, r, t.phase.client);
            t2.k == Served(t.k, r, c) && t2.phase == if res == NOPROC then Listening else Replying(c, res)
  {
  }

  /** Until the SSI has sent it, nothing else happens in the loop; and what it sends is that value, to that client. */
  lemma ReplyIsSent(t: Talk, e: Runs.Event, p: PcbId)
    requires ListsOk(t.k) && t.phase.Replying? && Allowed(t, Plain(e), p)
    ensures var t2, c := Next(t, Plain(e), p), t.phase.client;
            if !e.Sends? || t.k.current != Some(t.k.ssi) then t2.phase == t.phase
            else
              && t2.phase == Listening
              && (t.k.Live(c) && t.k.Q(MsgFree) != [] ==>
                    InFlight(t2.k, t.k.ssi, c) == InFlight(t.k, t.k.ssi, c) + [t.phase.result])
  {
    if e.Sends? && t.k.current == Some(t.k.ssi) {
      SendInFlight(t.k, t.k.ssi, e.dest, e.payload, t.k.ssi, t.phase.client);
    }
  }
}
