/** What becomes of the swap mutex when a process releases it that is not inside. programTrapHandler sends the
    release whenever mutexRecv names the trapping process, and mutexRecv keeps naming the last one granted after
    its release. The server takes the second release for a request, grants a process that is being killed, and
    waits for it. */
module StrayReleases {
  import opened Layout
  import opened Rings
  import opened PcbPool
  import opened MsgPool
  import opened Kernel
  import opened Invariant
  import opened Runs
  import opened Inboxes
  import opened SwapMutex
  import opened Aftermath
  import Replies

  // ---------- the place of a message in the server's inbox ----------

  /** How many messages there are up to the first one of x. */
  function Ahead(q: seq<Option<PcbId>>, x: Option<PcbId>): nat {
    if q == [] then 0 else if q[0] == x then 1 else 1 + Ahead(q[1..], x)
  }

  lemma {:induction false} AheadAppend(q: seq<Option<PcbId>>, x: Option<PcbId>, y: Option<PcbId>)
    requires x in q || y == x
    ensures Ahead(q + [y], x) == if x in q then Ahead(q, x) else |q| + 1
  {
    if q == [] {
      assert q + [y] == [y];
    } else if q[0] != x {
      assert (q + [y])[1..] == q[1..] + [y];
      AheadAppend(q[1..], x, y);
    }
  }

  lemma {:induction false} AheadWithout(q: seq<Option<PcbId>>, x: Option<PcbId>, y: Option<PcbId>)
    requires x in q && y in q && y != x
    ensures x in Without(q, y) && Ahead(Without(q, y), x) <= Ahead(q, x)
            && (q[0] == y ==> Ahead(Without(q, y), x) < Ahead(q, x))
  {
    if q[0] == y {
      assert x in q[1..];
    } else if q[0] != x {
      AheadWithout(q[1..], x, y);
      assert Without(q, y) == [q[0]] + Without(q[1..], y) && ([q[0]] + Without(q[1..], y))[1..] == Without(q[1..], y);
    } else {
      assert Without(q, y)[0] == x;
    }
  }

  // ---------- one message too many ----------

  /** One message of c is queued that is neither a request nor the release the server waits for; or the server has
      turned to it already. */
  ghost predicate Strayed(turn: Turn, q: seq<Option<PcbId>>, c: PcbId) {
    var n := multiset(q)[Some(c)];
    if turn == Awaiting(c) then n == 2 || n == 0 else if turn == Granting(c) then n == 0 else n == 1
  }

  /** The messages that the server can still take from anyone, the stray one included. */
  function Left(turn: Turn, q: seq<Option<PcbId>>, c: PcbId): nat {
    if Some(c) !in q then 0 else if turn == Awaiting(c) then Ahead(Without(q, Some(c)), Some(c)) else Ahead(q, Some(c))
  }

  lemma QueuedLeft(turn: Turn, q: seq<Option<PcbId>>, c: PcbId, p: PcbId)
    requires Strayed(turn, q, c) && p != c
    ensures Strayed(turn, q + [Some(p)], c) && Left(turn, q + [Some(p)], c) == Left(turn, q, c)
  {
    if Some(c) in q {
      AheadAppend(q, Some(c), Some(p));
      WithoutAppend(q, Some(c), Some(p));
      WithoutCount(q, Some(c));
      if turn == Awaiting(c) { AheadAppend(Without(q, Some(c)), Some(c), Some(p)); }
    }
  }

  /** Each grant uses up one of them. */
  lemma TakenLeft(turn: Turn, q: seq<Option<PcbId>>, q2: seq<Option<PcbId>>, f: Filter, from: PcbId, c: PcbId)
    requires Strayed(turn, q, c) && Taken(q, q2, f, Some(from))
    requires (turn == AnyRequest && f == Any) || turn == Awaiting(from)
    ensures var turn2 := if turn == AnyRequest then Granting(from) else AnyRequest;
            && Strayed(turn2, q2, c)
            && Left(turn2, q2, c) + (if turn == AnyRequest then 1 else 0) <= Left(turn, q, c)
  {
    WithoutCount(q, Some(from));
    if from != c { AheadWithout(q, Some(c), Some(from)); }
  }

  // ---------- steps ----------

  ghost function LeftIn(s: State, c: PcbId): nat { Left(s.turn, Senders(s.k, s.server), c) }

  ghost predicate StrayIn(s: State, c: PcbId) {
    c != s.server && Strayed(s.turn, Senders(s.k, s.server), c)
  }

  ghost predicate NoneToSpare(s: State, s2: State, c: PcbId) {
    true == (StrayIn(s2, c) && |s2.granted| + LeftIn(s2, c) <= |s.granted| + LeftIn(s, c))
  }

  /** At most one message of somebody else has come in; the server may have sent its grant. */
  lemma SentLeft(s: State, s2: State, me: PcbId, c: PcbId)
    requires StrayIn(s, c) && s2.server == s.server && s2.granted == s.granted
    requires s2.turn == s.turn || (s.turn.Granting? && s2.turn == Awaiting(s.turn.client))
    requires var q, q2 := Senders(s.k, s.server), Senders(s2.k, s.server); q2 == q || (me != c && q2 == q + [Some(me)])
    ensures NoneToSpare(s, s2, c)
  {
    if Senders(s2.k, s.server) != Senders(s.k, s.server) { QueuedLeft(s.turn, Senders(s.k, s.server), c, me); }
  }

  lemma SendLeft(s: State, e: Event, c: PcbId)
    requires ListsOk(s.k) && StrayIn(s, c) && Goes(s, e, SaysNothing(c)) && e.Sends?
    ensures NoneToSpare(s, Next(s, e), c)
  {
    var me := s.k.current.value;
    var (k2, r) := Send(s.k, me, e.dest, e.payload);
    SendSenders(s.k, me, e.dest, e.payload, s.server);
    assert Senders(s.k, s.server) + [] == Senders(s.k, s.server);
    if me == s.server { SentLeft(s, ServerSends(s, k2, r), me, c); }
    else if e.dest == s.server { SentLeft(s, ClientSends(s, me, k2, r), me, c); }
    else { SentLeft(s, s.(k := k2), me, c); }
  }

  lemma ServerReceiveLeft(s: State, f: Filter, k2: K, r: Option<Msg>, c: PcbId)
    requires StrayIn(s, c) && ReceiveEffect(s.k, k2, s.server, f, r, s.server, s.server)
    requires (s.turn == AnyRequest && f == Any) || (s.turn.Awaiting? && f == From(s.turn.client))
    ensures NoneToSpare(s, ServerReceives(s, k2, r), c)
  {
    if r.Some? {
      TakenLeft(s.turn, Senders(s.k, s.server), Senders(k2, s.server), f, r.value.sender.value, c);
    }
  }

  lemma ReceiveLeft(s: State, e: Event, c: PcbId)
    requires PidsOk(s.k) && MessagesOk(s.k) && StrayIn(s, c) && Goes(s, e, SaysNothing(c)) && e.Receives?
    ensures NoneToSpare(s, Next(s, e), c)
  {
    var me := s.k.current.value;
    var (k2, r) := Receive(s.k, me, e.filter);
    ReceiveHasEffect(s.k, me, e.filter, s.server, s.server);
    if me == s.server { ServerReceiveLeft(s, e.filter, k2, r, c); }
    else { SentLeft(s, ClientReceives(s, me, k2, r), me, c); }
  }

  lemma StepLeft(s: State, e: Event, c: PcbId)
    requires Inv(s.k) && ServerUp(s) && StrayIn(s, c) && Goes(s, e, SaysNothing(c))
    ensures NoneToSpare(s, Next(s, e), c)
  {
    if e.Sends? { SendLeft(s, e, c); }
    else if e.Receives? { ReceiveLeft(s, e, c); }
    else { QuietLeft(s, e, c); }
  }

  lemma QuietLeft(s: State, e: Event, c: PcbId)
    requires ListsOk(s.k) && ServerUp(s) && StrayIn(s, c) && Goes(s, e, SaysNothing(c)) && !e.Sends? && !e.Receives?
    ensures NoneToSpare(s, Next(s, e), c)
  {
    QuietSenders(s.k, e, s.server);
  }

  // ---------- whole runs ----------

  lemma {:induction false} GrantsLeft(s: State, es: seq<Event>, c: PcbId)
    requires Inv(s.k) && ServerUp(s) && StrayIn(s, c) && GoesOn(s, es, SaysNothing(c))
    ensures |After(s, es, SaysNothing(c)).granted| <= |s.granted| + LeftIn(s, c)
    decreases |es|
  {
    if es != [] {
      StepLeft(s, es[0], c);
      StepUp(s, es[0]);
      GrantsLeft(Next(s, es[0]), es[1..], c);
    }
  }

  /** The variable mutexRecv: the server writes it when it takes up a request, and nobody clears it. */
  function MutexRecv(s: State): Option<PcbId> {
    if s.granted == [] then None else s.granted[|s.granted| - 1]
  }

  /** programTrapHandler has found its process in mutexRecv and sends the release. A process that has asked and has
      no grant yet sleeps, or is about to: it does not trap. */
  ghost predicate TrapReleases(s: State, c: PcbId) {
    && Safe(s) && !s.failed && s.k.current == Some(c) && c != s.server && MutexRecv(s) == Some(c)
       && (s.roles[c] == Outside || s.roles[c] == Inside)
    && Enabled(s.k, Sends(s.server, 0)) && s.k.Q(MsgFree) != []
  }

  ghost predicate MayStray(s: State, c: PcbId) {
    TrapReleases(s, c) && s.roles[c] == Outside
  }

  lemma StraySend(s: State, c: PcbId)
    requires MayStray(s, c)
    ensures var s2 := Next(s, Sends(s.server, 0));
            StrayIn(s2, c) && s2.granted == s.granted && LeftIn(s2, c) <= |Senders(s.k, s.server)| + 1
  {
    var (k2, r) := Send(s.k, c, s.server, 0);
    SendHasEffect(s.k, c, s.server, 0, s.server, s.server);
    StraySent(s, k2, r, c);
  }

  lemma StrayUp(s: State, c: PcbId)
    requires MayStray(s, c)
    ensures var s2 := Next(s, Sends(s.server, 0)); Inv(s2.k) && ServerUp(s2)
  {
    StepSafe(s, Sends(s.server, 0));
  }

  lemma StraySent(s: State, k2: K, r: SendResult, c: PcbId)
    requires AllSeated(s) && !s.failed && c != s.server && s.roles[c] == Outside && r == Sent
    requires SendEffect(s.k, k2, c, s.server, r, s.server, s.server)
    ensures var s2 := ClientSends(s, c, k2, r);
            StrayIn(s2, c) && s2.granted == s.granted && LeftIn(s2, c) <= |Senders(s.k, s.server)| + 1
  {
    assert Seated(s, c);
    StrayLeft(s.turn, Senders(s.k, s.server), c);
  }

  /** The test of mutexRecv is right exactly for a process that is inside: then the message is the release that the
      server waits for. */
  lemma StrayIff(s: State, c: PcbId)
    requires TrapReleases(s, c)
    ensures StrayIn(Next(s, Sends(s.server, 0)), c) <==> s.roles[c] == Outside
    ensures s.roles[c] == Inside ==> s.turn == Awaiting(c) && Queued(Next(s, Sends(s.server, 0)), c) == 1
  {
    if s.roles[c] == Outside { StraySend(s, c); } else { ProperSend(s, c); }
  }

  lemma ProperSend(s: State, c: PcbId)
    requires TrapReleases(s, c) && s.roles[c] == Inside
    ensures var s2 := Next(s, Sends(s.server, 0)); !StrayIn(s2, c) && s.turn == Awaiting(c) && Queued(s2, c) == 1
  {
    var (k2, r) := Send(s.k, c, s.server, 0);
    SendHasEffect(s.k, c, s.server, 0, s.server, s.server);
    ProperSent(s, k2, r, c);
  }

  lemma ProperSent(s: State, k2: K, r: SendResult, c: PcbId)
    requires AllSeated(s) && c != s.server && s.roles[c] == Inside && r == Sent
    requires SendEffect(s.k, k2, c, s.server, r, s.server, s.server)
    ensures var s2 := ClientSends(s, c, k2, r); !StrayIn(s2, c) && s.turn == Awaiting(c) && Queued(s2, c) == 1
  {
    assert Seated(s, c);
  }

  lemma StrayLeft(turn: Turn, q: seq<Option<PcbId>>, c: PcbId)
    requires multiset(q)[Some(c)] == (if turn == Awaiting(c) then 1 else 0) && turn != Granting(c)
    ensures Strayed(turn, q + [Some(c)], c) && Left(turn, q + [Some(c)], c) <= |q| + 1
  {
    AheadAtMost(q + [Some(c)], Some(c));
    WithoutCount(q + [Some(c)], Some(c));
    AheadAtMost(Without(q + [Some(c)], Some(c)), Some(c));
  }

  lemma {:induction false} AheadAtMost(q: seq<Option<PcbId>>, x: Option<PcbId>)
    ensures Ahead(q, x) <= |q|
  {
    if q != [] && q[0] != x { AheadAtMost(q[1..], x); }
  }

  /** A trap of the process that mutexRecv names, after it has released the mutex, starves everybody: in every run
      that follows there are at most as many grants as there were messages in the server's inbox, and one more, to
      the process that is gone; unless its PCB becomes that of another client, which sends a request of its own. */
  lemma StrayReleaseStarves(s: State, c: PcbId, es: seq<Event>)
    requires MayStray(s, c) && GoesOn(Next(s, Sends(s.server, 0)), es, SaysNothing(c))
    ensures |After(Next(s, Sends(s.server, 0)), es, SaysNothing(c)).granted|
            <= |s.granted| + |Senders(s.k, s.server)| + 1
  {
    StraySend(s, c);
    StrayUp(s, c);
    GrantsLeft(Next(s, Sends(s.server, 0)), es, c);
  }
}
