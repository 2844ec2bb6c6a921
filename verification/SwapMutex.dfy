/** The swap mutex: one process grants, the others ask, work and release, all by messages that look the same,
    on a nucleus on which everything else runs as well. */
module SwapMutex {
  import opened Layout
  import opened Rings
  import opened PcbPool
  import opened MsgPool
  import opened Kernel
  import opened Invariant
  import opened Subtrees
  import opened Mail
  import opened Runs
  import opened Inboxes
  import Boot
  import Replies

  /** A process has not asked, waits for the grant, or is between grant and release; or the PCB is that of a process
      that was killed while it waited, and the server has yet to find out. */
  datatype Role = Outside | Asked | Inside | Gone

  type Roles = s: seq<Role> | |s| == MAXPROC witness seq(MAXPROC, _ => Outside)

  /** The loop of mutex(): it receives from anybody, grants, and receives from the one it granted. */
  datatype Turn = AnyRequest | Granting(client: PcbId) | Awaiting(client: PcbId)

  /** arrivals and granted list the requests that were queued and those that were taken up; failed tells that a
      message of the protocol was not delivered, because the pool was empty, or never sent, because its sender died. */
  datatype State = State(k: K, server: PcbId, turn: Turn, roles: Roles,
                         arrivals: seq<Option<PcbId>>, granted: seq<Option<PcbId>>, failed: bool)

  predicate ServerMay(turn: Turn, e: Event) {
    || Replies.IsInterrupt(e)
    || (match turn
        case AnyRequest => e == Receives(Any)
        case Granting(c) => e == Sends(c, 0)
        case Awaiting(c) => e == Receives(From(c)))
  }

  ghost function Victims(k: K, e: Event): seq<PcbId>
    requires Enabled(k, e)
  {
    match e
    case Kills(v) => Progeny(k, v)
    case Dies => Progeny(k, k.current.value)
    case _ => []
  }

  predicate Concerns(turn: Turn, c: PcbId) {
    !turn.AnyRequest? && turn.client == c
  }

  /** Where the server's saved state stands: the end of a time slice sends it back there. */
  function TurnBack(k: K, server: PcbId): Turn {
    match k.pcbs[server].saved
    case Some(From(c)) => Awaiting(c)
    case _ => AnyRequest
  }

  /** The server follows its loop and is not killed. */
  ghost predicate ServerGoes(s: State, e: Event) {
    && Enabled(s.k, e) && Replies.Survives(s.k, e, s.server)
    && (s.k.current == Some(s.server) ==> ServerMay(s.turn, e))
    && !(e.WaitsClock? && e.waiter == s.server) && !(e.DoesIo? && e.client == s.server)
  }

  /** It has asked and not been answered, and lives or not. */
  predicate Waits(role: Role) { role == Asked || role == Gone }

  /** Messages of c in the server's inbox, and grants in c's inbox. */
  function Queued(s: State, c: PcbId): nat { multiset(Senders(s.k, s.server))[Some(c)] }
  function Grants(s: State, c: PcbId): nat { |InFlight(s.k, s.server, c)| }

  /** A process that waits does not ask again, and one on the PCB of a process that was killed while it waited asks
      when nothing of that process is left. */
  predicate Speaks(turn: Turn, c: PcbId, role: Role, queued: nat, grants: nat) {
    role == Outside || role == Inside || (role == Gone && !Concerns(turn, c) && queued == 0 && grants == 0)
  }

  predicate MaySpeak(s: State, c: PcbId) { Speaks(s.turn, c, s.roles[c], Queued(s, c), Grants(s, c)) }

  /** In that place of its loop the server has nothing to do with any process: it listens to all, or it is busy with
      one that was killed while it waited and has left no message. */
  predicate NobodysTurn(s: State, t: Turn) {
    t == AnyRequest || (t.client != s.server && s.roles[t.client] == Gone && Queued(s, t.client) == 0)
  }

  /** The end of a time slice of the server undoes no part of the exchange. */
  predicate SliceHarmless(s: State) {
    var t := TurnBack(s.k, s.server);
    t == s.turn || (NobodysTurn(s, s.turn) && NobodysTurn(s, t))
  }

  /** A client sends to the server only to ask and to release. What clients receive, when their time slices end and
      when they are killed is left open. */
  ghost predicate May(s: State, e: Event) {
    && ServerGoes(s, e)
    && (e.Slice? && s.k.current == Some(s.server) ==> SliceHarmless(s))
    && (e.Sends? && e.dest == s.server && s.k.current != Some(s.server) ==>
          MaySpeak(s, s.k.current.value))
  }

  /** p != server has sent to the server: a request, or the release if p is inside. */
  function ClientSends(s: State, p: PcbId, k2: K, r: SendResult): State {
    var asks := s.roles[p] == Outside || s.roles[p] == Gone;
    s.(k := k2, roles := s.roles[p := if asks then Asked else Outside],
       arrivals := s.arrivals + (if asks && r == Sent then [Some(p)] else []), failed := s.failed || r != Sent)
  }

  function ClientReceives(s: State, p: PcbId, k2: K, r: Option<Msg>): State {
    s.(k := k2, roles := if s.roles[p] == Asked && r.Some? && r.value.sender == Some(s.server) then s.roles[p := Inside]
                         else s.roles)
  }

  function ServerReceives(s: State, k2: K, r: Option<Msg>): State {
    if r == None || r.value.sender == None then s.(k := k2)
    else if s.turn.AnyRequest? then
      s.(k := k2, turn := Granting(r.value.sender.value), granted := s.granted + [r.value.sender])
    else s.(k := k2, turn := AnyRequest)
  }

  function ServerSends(s: State, k2: K, r: SendResult): State {
    s.(k := k2, turn := if s.turn.Granting? then Awaiting(s.turn.client) else s.turn, failed := s.failed || r != Sent)
  }

  ghost function Next(s: State, e: Event): State
    requires Enabled(s.k, e)
  {
    if e.Sends? then
      var (k2, r) := Send(s.k, s.k.current.value, e.dest, e.payload);
      if s.k.current == Some(s.server) then ServerSends(s, k2, r)
      else if e.dest == s.server then ClientSends(s, s.k.current.value, k2, r)
      else s.(k := k2)
    else if e.Receives? then
      var (k2, r) := Receive(s.k, s.k.current.value, e.filter);
      if s.k.current == Some(s.server) then ServerReceives(s, k2, r)
      else ClientReceives(s, s.k.current.value, k2, r)
    else
      var s2 := Bereaved(s, Apply(s.k, e), Victims(s.k, e));
      if e == Slice && s.k.current == Some(s.server) then s2.(turn := TurnBack(s.k, s.server)) else s2
  }

  function Mourned(roles: Roles, dead: seq<PcbId>): Roles {
    seq(MAXPROC, i requires 0 <= i < MAXPROC =>
      if i !in dead then roles[i] else if Waits(roles[i]) then Gone else Outside)
  }

  /** The killed have no role any more, but their messages stay; if one of them was inside, its release will never
      come. */
  function Bereaved(s: State, k2: K, dead: seq<PcbId>): State {
    s.(k := k2, roles := Mourned(s.roles, dead), failed := s.failed || exists x | x in dead :: s.roles[x] == Inside)
  }

  // ---------- the invariant ----------

  /** The one the server turned to: granted and inside, or on its way out, with a release and perhaps
      already the next request in the server's inbox. */
  predicate HolderOk(role: Role, queued: nat, grants: nat, failed: bool) {
    match role
    case Inside => queued == 0 && grants == 0
    case Outside => grants == 0 && queued <= 1 && (!failed ==> queued == 1)
    case Asked => (grants == 1 && queued == 0) || (grants == 0 && queued <= 2 && (!failed ==> queued == 2))
    case Gone => queued <= 2 && (!failed ==> queued != 1)
  }

  predicate OutsiderOk(role: Role, queued: nat, grants: nat, failed: bool) {
    && role != Inside && queued <= 1
    && (role != Gone ==> grants == 0 && (queued == 1 ==> role == Asked) && (!failed && role == Asked ==> queued == 1))
  }

  predicate SeatOk(turn: Turn, c: PcbId, role: Role, queued: nat, grants: nat, failed: bool) {
    if turn == Awaiting(c) then HolderOk(role, queued, grants, failed)
    else if turn == Granting(c) then queued == 0 && (role == Gone || (role == Asked && grants == 0))
    else OutsiderOk(role, queued, grants, failed)
  }

  ghost predicate Seated(s: State, c: PcbId) {
    && SeatOk(s.turn, c, s.roles[c], Queued(s, c), Grants(s, c), s.failed)
    && (s.roles[c] == Asked || s.roles[c] == Inside ==> s.k.Live(c))
  }

  /** The requests among the server's messages: all of them but the release of the one it turned to. */
  function Requests(turn: Turn, q: seq<Option<PcbId>>): seq<Option<PcbId>> {
    if turn.Awaiting? && Some(turn.client) in q then Without(q, Some(turn.client)) else q
  }

  /** The server turns to requests in the order of their arrival. */
  ghost predicate InTurn(s: State) {
    !s.failed ==> s.arrivals == s.granted + Requests(s.turn, Senders(s.k, s.server))
  }

  /** The server can run. */
  ghost predicate ServerUp(s: State) {
    s.k.Live(s.server) && s.server != s.k.ssi && !s.k.SoftBlocked(s.server)
  }

  ghost predicate ServerOk(s: State) {
    && ServerUp(s)
    && Queued(s, s.server) == 0 && !Concerns(s.turn, s.server)
  }

  /** Everybody's seat is in order. */
  ghost predicate AllSeated(s: State) {
    true == (ServerOk(s) && InTurn(s) && forall c: PcbId | c != s.server :: Seated(s, c))
  }

  ghost predicate Safe(s: State) {
    Inv(s.k) && AllSeated(s)
  }

  // ---------- lists of senders ----------

  lemma {:induction false} WithoutCount<T>(q: seq<T>, x: T)
    requires x in q
    ensures multiset(q) == multiset(Without(q, x)) + multiset{x}
  {
    assert q == [q[0]] + q[1..];
    if q[0] != x {
      WithoutCount(q[1..], x);
    }
  }

  lemma {:induction false} WithoutAppend<T>(q: seq<T>, x: T, y: T)
    ensures Without(q + [y], x) == if x in q then Without(q, x) + [y] else if x == y then q else q + [y]
  {
    if q == [] {
      assert q + [y] == [y];
    } else {
      assert (q + [y])[1..] == q[1..] + [y];
      WithoutAppend(q[1..], x, y);
    }
  }

  /** A new message of p is a request, unless it is the release of the one the server waits for. */
  lemma RequestsAppend(turn: Turn, q: seq<Option<PcbId>>, p: PcbId)
    ensures Requests(turn, q + [Some(p)]) ==
      Requests(turn, q) + (if turn == Awaiting(p) && Some(p) !in q then [] else [Some(p)])
  {
    if turn.Awaiting? {
      WithoutAppend(q, Some(turn.client), Some(p));
    }
  }

  // ---------- what a send or a receive does to the two inboxes that matter ----------

  ghost predicate SendEffect(k: K, k2: K, me: PcbId, dest: PcbId, r: SendResult, d: PcbId, c: PcbId) {
    true == (
      && Senders(k2, d) == Senders(k, d) + (if r == Sent && d == dest then [Some(me)] else [])
      && |InFlight(k2, d, c)| == |InFlight(k, d, c)| + (if r == Sent && d == me && c == dest then 1 else 0)
      && forall p: PcbId :: k2.Live(p) == k.Live(p))
  }

  lemma SendHasEffect(k: K, me: PcbId, dest: PcbId, v: int, d: PcbId, c: PcbId)
    requires ListsOk(k)
    ensures var (k2, r) := Send(k, me, dest, v); SendEffect(k, k2, me, dest, r, d, c)
  {
    SendSenders(k, me, dest, v, d);
    SendInFlight(k, me, dest, v, d, c);
  }

  ghost predicate ReceiveEffect(k: K, k2: K, me: PcbId, f: Filter, r: Option<Msg>, d: PcbId, c: PcbId) {
    true == (
      && (d != me || r == None ==> Senders(k2, d) == Senders(k, d))
      && (r.Some? && d == me ==> Taken(Senders(k, d), Senders(k2, d), f, r.value.sender))
      && (r.Some? ==> r.value.sender.Some? && (f.From? ==> r.value.sender == Some(f.pcb)))
      && |InFlight(k, d, c)| ==
         |InFlight(k2, d, c)| + (if r.Some? && c == me && r.value.sender == Some(d) then 1 else 0)
      && forall p: PcbId :: k2.Live(p) == k.Live(p))
  }

  /** q2 is q without the first message of that sender, for a receive from anyone the first of all. */
  ghost predicate Taken(q: seq<Option<PcbId>>, q2: seq<Option<PcbId>>, f: Filter, from: Option<PcbId>) {
    from.Some? && from in q && q2 == Without(q, from) && (f == Any ==> q == [from] + q2)
  }

  lemma ReceiveHasEffect(k: K, me: PcbId, f: Filter, d: PcbId, c: PcbId)
    requires PidsOk(k) && MessagesOk(k)
    ensures var (k2, r) := Receive(k, me, f); ReceiveEffect(k, k2, me, f, r, d, c)
  {
    ReceiveSenders(k, me, f, d);
    ReceiveSenders(k, me, f, me);
    ReceiveInFlight(k, me, f, d, c);
    ReceiveLive(k, me, f);
  }

  lemma ReceiveLive(k: K, me: PcbId, f: Filter)
    ensures forall p: PcbId :: Receive(k, me, f).0.Live(p) == k.Live(p)
  {
  }

  // ---------- the steps ----------

  /** What one message of p to the server, sent or not, does to the seat of c. */
  lemma SeatSends(turn: Turn, c: PcbId, p: PcbId, role: Role, queued: nat, grants: nat, failed: bool, sent: bool)
    requires SeatOk(turn, c, role, queued, grants, failed) && (c == p ==> Speaks(turn, c, role, queued, grants))
    ensures SeatOk(turn, c, if c == p then (if role == Inside then Outside else Asked) else role,
                   queued + (if c == p && sent then 1 else 0), grants, failed || !sent)
  {
  }

  /** A request or a release. */
  lemma ClientSendKeeps(s: State, p: PcbId, k2: K, r: SendResult, c: PcbId)
    requires p != s.server && s.k.Live(p) && c != s.server && MaySpeak(s, p)
    requires SendEffect(s.k, k2, p, s.server, r, s.server, c) && Seated(s, c) && Seated(s, p) && InTurn(s)
    ensures var s2 := ClientSends(s, p, k2, r);
            Seated(s2, c) && InTurn(s2) && (Queued(s, s.server) == 0 ==> Queued(s2, s.server) == 0)
  {
    ClientSendSeat(s, p, k2, r, c);
    if r == Sent && !s.failed { TurnAfterSend(s, ClientSends(s, p, k2, r), p); }
  }

  lemma ClientSendSeat(s: State, p: PcbId, k2: K, r: SendResult, c: PcbId)
    requires p != s.server && s.k.Live(p) && c != s.server && MaySpeak(s, p)
    requires SendEffect(s.k, k2, p, s.server, r, s.server, c) && Seated(s, c)
    ensures Seated(ClientSends(s, p, k2, r), c)
  {
    SeatSends(s.turn, c, p, s.roles[c], Queued(s, c), Grants(s, c), s.failed, r == Sent);
  }

  /** p releases exactly when the server waits for it and has nothing from it yet. */
  lemma TurnAfterSend(s: State, s2: State, p: PcbId)
    requires InTurn(s) && Seated(s, p) && MaySpeak(s, p) && !s.failed
    requires s2.turn == s.turn && s2.granted == s.granted && s2.server == s.server
    requires Senders(s2.k, s.server) == Senders(s.k, s.server) + [Some(p)]
    requires s2.arrivals == s.arrivals + (if s.roles[p] == Inside then [] else [Some(p)])
    ensures InTurn(s2)
  {
    var q := Senders(s.k, s.server);
    RequestsAppend(s.turn, q, p);
    assert s.roles[p] == Inside <==> s.turn == Awaiting(p) && Some(p) !in q;
    assert s.granted + (Requests(s.turn, q) + [Some(p)]) == (s.granted + Requests(s.turn, q)) + [Some(p)];
  }

  /** A process sends to somebody else. */
  lemma OtherSendKeeps(s: State, p: PcbId, dest: PcbId, k2: K, r: SendResult, c: PcbId)
    requires p != s.server && dest != s.server && SendEffect(s.k, k2, p, dest, r, s.server, c)
    requires Seated(s, c) && InTurn(s)
    ensures var s2 := s.(k := k2); Seated(s2, c) && InTurn(s2) && Senders(k2, s.server) == Senders(s.k, s.server)
  {
    assert Senders(s.k, s.server) + [] == Senders(s.k, s.server);
  }

  /** The grant. */
  lemma ServerSendKeeps(s: State, k2: K, r: SendResult, c: PcbId)
    requires s.turn.Granting? && s.turn.client != s.server
    requires SendEffect(s.k, k2, s.server, s.turn.client, r, s.server, c)
    requires Seated(s, c) && Seated(s, s.turn.client) && InTurn(s)
    ensures var s2 := ServerSends(s, k2, r);
            Seated(s2, c) && InTurn(s2) && Senders(k2, s.server) == Senders(s.k, s.server)
  {
    assert Some(s.turn.client) !in Senders(s.k, s.server);
  }

  /** The grant is received; nobody else has one to receive. */
  lemma ClientReceiveKeeps(s: State, p: PcbId, f: Filter, k2: K, r: Option<Msg>, c: PcbId)
    requires p != s.server && (f.From? ==> r == None || r.value.sender == Some(f.pcb))
    requires ReceiveEffect(s.k, k2, p, f, r, s.server, c) && ReceiveEffect(s.k, k2, p, f, r, s.server, p)
    requires Seated(s, c) && Seated(s, p) && InTurn(s)
    ensures var s2 := ClientReceives(s, p, k2, r);
            Seated(s2, c) && InTurn(s2) && Senders(k2, s.server) == Senders(s.k, s.server)
  {
  }

  /** A request is taken up, or a release comes in. */
  lemma ServerReceiveKeeps(s: State, f: Filter, k2: K, r: Option<Msg>, c: PcbId)
    requires c != s.server && Queued(s, s.server) == 0 && !Concerns(s.turn, s.server)
    requires (s.turn == AnyRequest && f == Any) || (s.turn.Awaiting? && f == From(s.turn.client))
    requires ReceiveEffect(s.k, k2, s.server, f, r, s.server, c) && Seated(s, c) && InTurn(s)
    ensures var s2 := ServerReceives(s, k2, r);
            Seated(s2, c) && InTurn(s2) && Queued(s2, s.server) == 0 && !Concerns(s2.turn, s.server)
  {
    if r.Some? {
      TakenKeeps(s, f, k2, r, c);
    }
  }

  lemma TakenKeeps(s: State, f: Filter, k2: K, r: Option<Msg>, c: PcbId)
    requires c != s.server && Queued(s, s.server) == 0 && r.Some?
    requires (s.turn == AnyRequest && f == Any) || (s.turn.Awaiting? && f == From(s.turn.client))
    requires ReceiveEffect(s.k, k2, s.server, f, r, s.server, c) && Seated(s, c) && InTurn(s)
    ensures var s2 := ServerReceives(s, k2, r);
            Seated(s2, c) && InTurn(s2) && Queued(s2, s.server) == 0 && !Concerns(s2.turn, s.server)
  {
    TakenSeat(s, f, k2, r, c);
    TakenTurn(s, f, k2, r, c);
  }

  lemma TakenSeat(s: State, f: Filter, k2: K, r: Option<Msg>, c: PcbId)
    requires c != s.server && Queued(s, s.server) == 0 && r.Some?
    requires (s.turn == AnyRequest && f == Any) || (s.turn.Awaiting? && f == From(s.turn.client))
    requires ReceiveEffect(s.k, k2, s.server, f, r, s.server, c) && Seated(s, c)
    ensures Seated(ServerReceives(s, k2, r), c)
  {
    var x, s2 := r.value.sender.value, ServerReceives(s, k2, r);
    assert Queued(s2, c) == Queued(s, c) - (if x == c then 1 else 0) by {
      TakenCounts(Senders(s.k, s.server), Senders(k2, s.server), f, Some(x));
    }
    assert Grants(s2, c) == Grants(s, c) && k2.Live(c) == s.k.Live(c);
    SeatAfterTake(s, s2, c, x);
  }

  lemma TakenTurn(s: State, f: Filter, k2: K, r: Option<Msg>, c: PcbId)
    requires c != s.server && Queued(s, s.server) == 0 && r.Some?
    requires (s.turn == AnyRequest && f == Any) || (s.turn.Awaiting? && f == From(s.turn.client))
    requires ReceiveEffect(s.k, k2, s.server, f, r, s.server, c) && InTurn(s)
    ensures var s2 := ServerReceives(s, k2, r);
            InTurn(s2) && Queued(s2, s.server) == 0 && !Concerns(s2.turn, s.server)
  {
    var x := r.value.sender.value;
    TakenCounts(Senders(s.k, s.server), Senders(k2, s.server), f, Some(x));
    TurnAfterTake(s, ServerReceives(s, k2, r), x);
  }

  lemma TakenCounts(q: seq<Option<PcbId>>, q2: seq<Option<PcbId>>, f: Filter, x: Option<PcbId>)
    requires Taken(q, q2, f, x)
    ensures multiset(q2)[x] == multiset(q)[x] - 1 && forall y | y != x :: multiset(q2)[y] == multiset(q)[y]
  {
    WithoutCount(q, x);
  }

  lemma SeatAfterTake(s: State, s2: State, c: PcbId, from: PcbId)
    requires Seated(s, c) && s2 == s.(k := s2.k, turn := s2.turn, granted := s2.granted)
    requires Queued(s2, c) == Queued(s, c) - (if from == c then 1 else 0) && Grants(s2, c) == Grants(s, c)
    requires s2.k.Live(c) == s.k.Live(c)
    requires (s.turn == AnyRequest && s2.turn == Granting(from)) || (s.turn == Awaiting(from) && s2.turn == AnyRequest)
    ensures Seated(s2, c)
  {
  }

  lemma TurnAfterTake(s: State, s2: State, from: PcbId)
    requires InTurn(s) && s2.arrivals == s.arrivals && s2.failed == s.failed && s2.server == s.server
    requires var q, q2 := Senders(s.k, s.server), Senders(s2.k, s.server);
             || (s.turn == AnyRequest && s2.turn == Granting(from) && q == [Some(from)] + q2
                 && s2.granted == s.granted + [Some(from)])
             || (s.turn == Awaiting(from) && s2.turn == AnyRequest && Some(from) in q && q2 == Without(q, Some(from))
                 && s2.granted == s.granted)
    ensures InTurn(s2)
  {
    var q2 := Senders(s2.k, s.server);
    assert s.granted + ([Some(from)] + q2) == (s.granted + [Some(from)]) + q2;
  }

  /** In words: whom the server takes up waits for the grant, and what it takes from its holder is the release. */
  lemma WhatTheServerTakes(s: State, e: Event)
    requires PidsOk(s.k) && MessagesOk(s.k) && AllSeated(s) && May(s, e)
    requires e.Receives? && s.k.current == Some(s.server)
    ensures match Receive(s.k, s.server, e.filter).1
            case None => true
            case Some(m) =>
              && m.sender.Some? && m.sender.value != s.server
              && (s.turn == AnyRequest ==>
                    Waits(s.roles[m.sender.value]) && Senders(s.k, s.server) != []
                    && Some(m.sender.value) == Senders(s.k, s.server)[0])
              && (s.turn.Awaiting? ==> m.sender.value == s.turn.client && s.roles[m.sender.value] != Inside)
  {
    var (k2, r) := Receive(s.k, s.server, e.filter);
    ReceiveHasEffect(s.k, s.server, e.filter, s.server, s.server);
    if r.Some? { TakenFromSeat(s, e.filter, k2, r, Senders(s.k, s.server), Senders(k2, s.server)); }
  }

  lemma TakenFromSeat(s: State, f: Filter, k2: K, r: Option<Msg>, q: seq<Option<PcbId>>, q2: seq<Option<PcbId>>)
    requires AllSeated(s) && r.Some? && Taken(q, q2, f, r.value.sender) && q == Senders(s.k, s.server)
    requires (s.turn == AnyRequest && f == Any) || (s.turn.Awaiting? && f == From(s.turn.client))
    requires f.From? ==> r.value.sender == Some(f.pcb)
    ensures var x := r.value.sender.value;
            && x != s.server && q != [] && (s.turn == AnyRequest ==> Waits(s.roles[x]) && Some(x) == q[0])
            && (s.turn.Awaiting? ==> x == s.turn.client && s.roles[x] != Inside)
  {
    var x := r.value.sender.value;
    assert multiset(q)[Some(x)] > 0;
    assert Queued(s, s.server) == 0;
    assert Seated(s, x);
  }

  // ---------- any step ----------

  /** Steps that are no message of the protocol. */
  lemma QuietKeeps(s: State, e: Event, c: PcbId)
    requires ListsOk(s.k) && ServerOk(s) && May(s, e) && !e.Sends? && !e.Receives? && c != s.server
    requires Seated(s, c) && InTurn(s)
    ensures var s2 := Bereaved(s, Apply(s.k, e), Victims(s.k, e));
            Seated(s2, c) && InTurn(s2) && Senders(s2.k, s.server) == Senders(s.k, s.server)
  {
    var dead, s2 := Victims(s.k, e), Bereaved(s, Apply(s.k, e), Victims(s.k, e));
    QuietSenders(s.k, e, s.server);
    QuietInFlight(s.k, e, s.server, c);
    OthersStayAlive(s.k, e, c);
    SeatAfterDeaths(s, s2.k, c, dead);
  }

  lemma OthersStayAlive(k: K, e: Event, c: PcbId)
    requires Enabled(k, e)
    ensures k.Live(c) && c !in Victims(k, e) ==> Apply(k, e).Live(c)
  {
    if k.Live(c) && c !in Victims(k, e) { Replies.StaysAlive(k, e, c); }
  }

  lemma SeatAfterDeaths(s: State, k2: K, c: PcbId, dead: seq<PcbId>)
    requires Seated(s, c) && Senders(k2, s.server) == Senders(s.k, s.server)
    requires InFlight(k2, s.server, c) == InFlight(s.k, s.server, c)
             || (!s.k.Live(c) && InFlight(k2, s.server, c) == [])
    requires s.k.Live(c) && c !in dead ==> k2.Live(c)
    ensures Seated(Bereaved(s, k2, dead), c)
  {
  }

  /** After the step c sits in its place, and the server has nothing to do with itself. */
  ghost predicate Sits(s: State, s2: State, c: PcbId) {
    && Seated(s2, c) && InTurn(s2) && s2.server == s.server && Queued(s2, s.server) == 0
    && !Concerns(s2.turn, s.server)
  }

  lemma SendSeats(s: State, e: Event, c: PcbId)
    requires ListsOk(s.k) && AllSeated(s) && May(s, e) && c != s.server && e.Sends?
    ensures Sits(s, Next(s, e), c)
  {
    if s.k.current == Some(s.server) { ServerSendSeats(s, e, c); } else { ClientSendSeats(s, e, c); }
  }

  lemma ServerSendSeats(s: State, e: Event, c: PcbId)
    requires ListsOk(s.k) && AllSeated(s) && May(s, e) && c != s.server && e.Sends? && s.k.current == Some(s.server)
    ensures Sits(s, Next(s, e), c)
  {
    var (k2, r) := Send(s.k, s.server, e.dest, e.payload);
    SendHasEffect(s.k, s.server, e.dest, e.payload, s.server, c);
    ServerSendKeeps(s, k2, r, c);
  }

  lemma ClientSendSeats(s: State, e: Event, c: PcbId)
    requires ListsOk(s.k) && AllSeated(s) && May(s, e) && c != s.server && e.Sends? && s.k.current != Some(s.server)
    ensures Sits(s, Next(s, e), c)
  {
    var me := s.k.current.value;
    var (k2, r) := Send(s.k, me, e.dest, e.payload);
    SendHasEffect(s.k, me, e.dest, e.payload, s.server, c);
    if e.dest == s.server { ClientSendKeeps(s, me, k2, r, c); } else { OtherSendKeeps(s, me, e.dest, k2, r, c); }
  }

  lemma ReceiveSeats(s: State, e: Event, c: PcbId)
    requires PidsOk(s.k) && MessagesOk(s.k) && AllSeated(s) && May(s, e) && c != s.server && e.Receives?
    ensures Sits(s, Next(s, e), c)
  {
    if s.k.current == Some(s.server) { ServerReceiveSeats(s, e, c); } else { ClientReceiveSeats(s, e, c); }
  }

  lemma ServerReceiveSeats(s: State, e: Event, c: PcbId)
    requires PidsOk(s.k) && MessagesOk(s.k) && AllSeated(s) && May(s, e) && c != s.server && e.Receives?
    requires s.k.current == Some(s.server)
    ensures Sits(s, Next(s, e), c)
  {
    var (k2, r) := Receive(s.k, s.server, e.filter);
    ReceiveHasEffect(s.k, s.server, e.filter, s.server, c);
    ServerReceiveKeeps(s, e.filter, k2, r, c);
  }

  lemma ClientReceiveSeats(s: State, e: Event, c: PcbId)
    requires PidsOk(s.k) && MessagesOk(s.k) && AllSeated(s) && May(s, e) && c != s.server && e.Receives?
    requires s.k.current != Some(s.server)
    ensures Sits(s, Next(s, e), c)
  {
    var me := s.k.current.value;
    var (k2, r) := Receive(s.k, me, e.filter);
    ReceiveHasEffect(s.k, me, e.filter, s.server, c);
    ReceiveHasEffect(s.k, me, e.filter, s.server, me);
    ClientReceiveKeeps(s, me, e.filter, k2, r, c);
  }

  lemma QuietSeats(s: State, e: Event, c: PcbId)
    requires Inv(s.k) && AllSeated(s) && May(s, e) && c != s.server && !e.Sends? && !e.Receives?
    ensures Sits(s, Next(s, e), c)
  {
    QuietKeeps(s, e, c);
    if e.Slice? && s.k.current == Some(s.server) {
      SlicedSeats(s, Bereaved(s, Apply(s.k, e), []), Next(s, e), c);
    }
  }

  /** Between two places at which it is nobody's turn it makes no difference where the server is. */
  lemma SlicedSeats(s: State, s1: State, s2: State, c: PcbId)
    requires SliceHarmless(s) && s2 == s1.(turn := TurnBack(s.k, s.server)) && s1.turn == s.turn
             && s1.server == s.server
    requires Mourned(s.roles, []) == s1.roles && Senders(s1.k, s.server) == Senders(s.k, s.server)
    requires Seated(s1, c) && InTurn(s1) && ServerOk(s) && c != s.server
    ensures Seated(s2, c) && InTurn(s2) && !Concerns(s2.turn, s.server)
  {
    assert Mourned(s.roles, []) == s.roles;
  }

  /** The seats after any step; the nucleus invariant is dealt with apart. */
  lemma StepSeats(s: State, e: Event, c: PcbId)
    requires Inv(s.k) && AllSeated(s) && May(s, e) && c != s.server
    ensures Sits(s, Next(s, e), c)
  {
    if e.Sends? { SendSeats(s, e, c); }
    else if e.Receives? { ReceiveSeats(s, e, c); }
    else { QuietSeats(s, e, c); }
  }

  lemma NextK(s: State, e: Event)
    requires Enabled(s.k, e)
    ensures Next(s, e).k == Apply(s.k, e)
  {
  }

  lemma StepServer(s: State, e: Event)
    requires Inv(s.k) && ServerOk(s) && May(s, e)
    ensures var k2 := Apply(s.k, e); k2.Live(s.server) && !k2.SoftBlocked(s.server) && k2.ssi == s.k.ssi
  {
    ServerStays(s.k, e, s.server);
  }

  lemma ServerStays(k: K, e: Event, d: PcbId)
    requires Inv(k) && Enabled(k, e) && Replies.Survives(k, e, d) && k.Live(d) && d != k.ssi && !k.SoftBlocked(d)
    requires !(e.WaitsClock? && e.waiter == d) && !(e.DoesIo? && e.client == d)
    ensures var k2 := Apply(k, e); k2.Live(d) && !k2.SoftBlocked(d) && k2.ssi == k.ssi
  {
    StaysUnblocked(k, e, d);
    Replies.StaysAlive(k, e, d);
    SsiKept(k, e);
  }

  lemma StepSafe(s: State, e: Event)
    requires Safe(s) && May(s, e)
    ensures Safe(Next(s, e))
  {
    NextK(s, e);
    StepKeeps(s.k, e);
    StepServer(s, e);
    forall c: PcbId | c != s.server ensures Seated(Next(s, e), c) { StepSeats(s, e, c); }
    var other: PcbId := if s.server == 0 then 1 else 0;
    StepSeats(s, e, other);
  }

  /** The condition on what clients send is exact: with a message in the pool, a client's message to the server keeps
      everybody's seat exactly if it may speak. */
  lemma SpeakSafeIff(s: State, c: PcbId, v: int)
    requires Safe(s) && !s.failed && s.k.current == Some(c) && c != s.server
    requires Enabled(s.k, Sends(s.server, v)) && s.k.Q(MsgFree) != []
    ensures Safe(Next(s, Sends(s.server, v))) <==> MaySpeak(s, c)
  {
    if MaySpeak(s, c) { StepSafe(s, Sends(s.server, v)); } else { SpeaksOutOfTurn(s, c, v); }
  }

  lemma SpeaksOutOfTurn(s: State, c: PcbId, v: int)
    requires AllSeated(s) && ListsOk(s.k) && !s.failed && s.k.current == Some(c) && c != s.server && !MaySpeak(s, c)
    requires Enabled(s.k, Sends(s.server, v)) && s.k.Q(MsgFree) != []
    ensures !AllSeated(Next(s, Sends(s.server, v)))
  {
    var (k2, r) := Send(s.k, c, s.server, v);
    SendHasEffect(s.k, c, s.server, v, s.server, c);
    SpeakerUnseated(s, c, k2, r);
  }

  lemma SpeakerUnseated(s: State, c: PcbId, k2: K, r: SendResult)
    requires AllSeated(s) && !s.failed && c != s.server && !MaySpeak(s, c) && r == Sent
    requires SendEffect(s.k, k2, c, s.server, r, s.server, c)
    ensures !AllSeated(ClientSends(s, c, k2, r))
  {
    assert Seated(s, c);
    assert !Seated(ClientSends(s, c, k2, r), c);
  }

  // ---------- whole runs ----------

  ghost predicate IsRun(s: State, es: seq<Event>)
    decreases |es|
  {
    es == [] || (May(s, es[0]) && IsRun(Next(s, es[0]), es[1..]))
  }

  ghost function End(s: State, es: seq<Event>): State
    requires IsRun(s, es)
    decreases |es|
  {
    if es == [] then s else End(Next(s, es[0]), es[1..])
  }

  lemma {:induction false} RunSafe(s: State, es: seq<Event>)
    requires Safe(s) && IsRun(s, es)
    ensures Safe(End(s, es)) && End(s, es).server == s.server
    decreases |es|
  {
    if es != [] {
      StepSafe(s, es[0]);
      StepServerSame(s, es[0]);
      RunSafe(Next(s, es[0]), es[1..]);
    }
  }

  lemma StepServerSame(s: State, e: Event)
    requires Enabled(s.k, e)
    ensures Next(s, e).server == s.server
  {
  }

  /** mutex() starts listening; nobody has asked yet. */
  ghost predicate Unasked(s: State) {
    && s.turn == AnyRequest && s.arrivals == [] && s.granted == [] && !s.failed
    && s.k.Live(s.server) && s.server != s.k.ssi && !s.k.SoftBlocked(s.server)
    && Senders(s.k, s.server) == []
    && forall c: PcbId :: s.roles[c] == Outside && InFlight(s.k, s.server, c) == []
  }

  ghost predicate Start(s: State) { Reachable(s.k) && Unasked(s) }

  lemma UnaskedSeat(s: State, c: PcbId)
    requires Unasked(s)
    ensures Seated(s, c) && InTurn(s) && ServerOk(s)
  {
    assert Queued(s, c) == 0 && Queued(s, s.server) == 0;
  }

  lemma StartSafe(s: State)
    requires Start(s)
    ensures Safe(s)
  {
    ReachableInv(s.k);
    forall c: PcbId ensures Seated(s, c) { UnaskedSeat(s, c); }
    UnaskedSeat(s, s.server);
  }

  /** Right after the start of the kernel process 1 could begin to serve. */
  lemma CanStart(k: K, roles: Roles)
    requires k == Schedule(Boot.Spawn(Boot.Spawn(Boot.Cleared()))) && forall c: PcbId :: roles[c] == Outside
    ensures Start(State(k, 1, AnyRequest, roles, [], [], false))
  {
    SomethingIsReachable(k);
    Boot.InitialExists();
    NobodyAskedYet(Boot.Spawn(Boot.Spawn(Boot.Cleared())), roles);
  }

  lemma NobodyAskedYet(k0: K, roles: Roles)
    requires Boot.Initial(k0) && forall c: PcbId :: roles[c] == Outside
    ensures Unasked(State(Schedule(k0), 1, AnyRequest, roles, [], [], false))
  {
    assert k0.Q(Head(Ready))[1] == PList(1);
    BlockedIsAlive(k0, Ready, 1);
  }

  /** In every run of mutex() and any number of clients, with anything else going on and even with messages
      that find the pool empty: at most one process is between its grant and its release. */
  lemma MutualExclusion(s: State, es: seq<Event>, c: PcbId, d: PcbId)
    requires Start(s) && IsRun(s, es) && c != s.server && d != s.server
    requires End(s, es).roles[c] == Inside && End(s, es).roles[d] == Inside
    ensures c == d && End(s, es).turn == Awaiting(c)
  {
    StartSafe(s);
    RunSafe(s, es);
    assert Seated(End(s, es), c) && Seated(End(s, es), d);
  }

  /** As long as no message of the protocol failed, grants follow the arrival of the requests, though releases
      are pulled out of the middle of the same inbox. */
  lemma GrantsInTurn(s: State, es: seq<Event>)
    requires Start(s) && IsRun(s, es) && !End(s, es).failed
    ensures End(s, es).granted <= End(s, es).arrivals
  {
    StartSafe(s);
    RunSafe(s, es);
  }
}
