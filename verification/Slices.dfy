/** What the end of a time slice does to the swap mutex: PLTHandler sends the running process back to the receive in
    which it slept last. */
module Slices {
  import opened Layout
  import opened PcbPool
  import opened Kernel
  import opened Invariant
  import opened Mail
  import opened Runs
  import opened Inboxes
  import opened SwapMutex
  import opened Aftermath

  // ---------- the server ----------

  ghost predicate ServerSliced(s: State) {
    Safe(s) && !s.failed && s.k.current == Some(s.server) && Enabled(s.k, Slice)
  }

  /** A slice of the server moves no message. */
  lemma SlicedInboxes(s: State, c: PcbId)
    requires ServerSliced(s)
    ensures var s2 := Next(s, Slice);
            && s2.server == s.server && s2.roles == s.roles && s2.turn == TurnBack(s.k, s.server) && !s2.failed
            && Queued(s2, c) == Queued(s, c) && Queued(s2, s.server) == Queued(s, s.server)
            && (Grants(s2, c) == Grants(s, c) || Grants(s2, c) == 0)
  {
    SlicedState(s);
    SlicedMail(s.k, s.server, c);
  }

  lemma SlicedState(s: State)
    requires s.k.current == Some(s.server) && Enabled(s.k, Slice)
    ensures Next(s, Slice) == s.(k := Apply(s.k, Slice), turn := TurnBack(s.k, s.server))
  {
    assert Mourned(s.roles, []) == s.roles;
  }

  lemma SlicedMail(k: K, d: PcbId, c: PcbId)
    requires ListsOk(k) && Enabled(k, Slice) && k.Live(d) && !k.SoftBlocked(d) && d != k.ssi
    ensures var k2 := Apply(k, Slice);
            && Senders(k2, d) == Senders(k, d)
            && (InFlight(k2, d, c) == InFlight(k, d, c) || InFlight(k2, d, c) == [])
  {
    QuietSenders(k, Slice, d);
    QuietInFlight(k, Slice, d, c);
  }

  /** Sent back to another place in its loop than it has reached, the server treats the process concerned wrongly. */
  lemma WrongPlace(s: State, s2: State, c: PcbId)
    requires Seated(s, c) && c != s.server && !s.failed && !s2.failed
    requires s2.server == s.server && s2.roles == s.roles && s2.turn != s.turn && !s2.turn.Granting?
    requires Queued(s2, c) == Queued(s, c) && (Grants(s2, c) == Grants(s, c) || Grants(s2, c) == 0)
    requires if NobodysTurn(s, s.turn) then s2.turn == Awaiting(c) && !NobodysTurn(s, s2.turn) else s.turn.client == c
    ensures !Seated(s2, c)
  {
  }

  /** The exact condition: a time slice of the server ends harmlessly exactly if the server has come no further than
      the receive its saved state stands at, or it is nobody's turn at either place. */
  lemma SliceSafeIff(s: State)
    requires ServerSliced(s)
    ensures Safe(Next(s, Slice)) <==> SliceHarmless(s)
  {
    if SliceHarmless(s) { StepSafe(s, Slice); } else { SliceUnseats(s); }
  }

  lemma SliceUnseats(s: State)
    requires ServerSliced(s) && !SliceHarmless(s)
    ensures !AllSeated(Next(s, Slice))
  {
    var c := if NobodysTurn(s, s.turn) then TurnBack(s.k, s.server).client else s.turn.client;
    var s2 := Next(s, Slice);
    SlicedState(s);
    if c != s.server {
      Unseated(s, c);
      OneUnseated(s2, c);
    } else {
      ServerIsNobodysClient(s);
      WaitsForItself(s2);
    }
  }

  lemma Unseated(s: State, c: PcbId)
    requires ServerSliced(s) && !SliceHarmless(s) && c != s.server
    requires c == if NobodysTurn(s, s.turn) then TurnBack(s.k, s.server).client else s.turn.client
    ensures !Seated(Next(s, Slice), c)
  {
    SlicedInboxes(s, c);
    assert Seated(s, c);
    WrongPlace(s, Next(s, Slice), c);
  }

  lemma OneUnseated(s: State, c: PcbId)
    requires !Seated(s, c) && c != s.server
    ensures !AllSeated(s)
  {
  }

  lemma WaitsForItself(s: State)
    requires s.turn == Awaiting(s.server)
    ensures !AllSeated(s)
  {
  }

  lemma ServerIsNobodysClient(s: State)
    requires AllSeated(s)
    ensures s.turn != AnyRequest ==> s.turn.client != s.server
  {
  }

  // ---------- the holder ----------

  /** c is the one that the server waits for, but c itself waits for x, from which nothing is under way. */
  ghost predicate Deaf(s: State, c: PcbId, x: PcbId) {
    && c != s.server && s.turn == Awaiting(c) && Some(c) !in Senders(s.k, s.server) && InFlight(s.k, x, c) == []
    && Stands(s.k, c, Some(From(x)), Some(From(x)))
  }

  ghost predicate StillDeaf(s: State, s2: State, c: PcbId, x: PcbId) {
    true == (Deaf(s2, c, x) && s2.granted == s.granted)
  }

  lemma SendDeaf(s: State, e: Event, c: PcbId, x: PcbId)
    requires ListsOk(s.k) && Deaf(s, c, x) && Goes(s, e, HearsNothing(c, x)) && e.Sends?
    ensures StillDeaf(s, Next(s, e), c, x)
  {
    var me := s.k.current.value;
    SendHasEffect(s.k, me, e.dest, e.payload, s.server, c);
    PendingKept(s.k, e, c);
    assert me != c && me != s.server;
  }

  /** c finds nothing, and sleeps where it slept before. */
  lemma ReceiveDeaf(s: State, e: Event, c: PcbId, x: PcbId)
    requires PidsOk(s.k) && MessagesOk(s.k) && Deaf(s, c, x) && Goes(s, e, HearsNothing(c, x)) && e.Receives?
    ensures StillDeaf(s, Next(s, e), c, x)
  {
    var me := s.k.current.value;
    ReceiveHasEffect(s.k, me, e.filter, s.server, c);
    ReceiveHasEffect(s.k, me, e.filter, x, c);
    if me != c { PendingKept(s.k, e, c); }
  }

  lemma QuietDeaf(s: State, e: Event, c: PcbId, x: PcbId)
    requires ListsOk(s.k) && ServerUp(s) && Deaf(s, c, x) && Goes(s, e, HearsNothing(c, x)) && !e.Sends? && !e.Receives?
    ensures StillDeaf(s, Next(s, e), c, x)
  {
    QuietSenders(s.k, e, s.server);
    QuietInFlight(s.k, e, s.server, c);
    PendingKept(s.k, e, c);
  }

  lemma StepDeaf(s: State, e: Event, c: PcbId, x: PcbId)
    requires Inv(s.k) && ServerUp(s) && Deaf(s, c, x) && Goes(s, e, HearsNothing(c, x))
    ensures StillDeaf(s, Next(s, e), c, x)
  {
    if e.Sends? { SendDeaf(s, e, c, x); }
    else if e.Receives? { ReceiveDeaf(s, e, c, x); }
    else { QuietDeaf(s, e, c, x); }
  }

  lemma {:induction false} DeafForever(s: State, es: seq<Event>, c: PcbId, x: PcbId)
    requires Inv(s.k) && ServerUp(s) && Deaf(s, c, x) && GoesOn(s, es, HearsNothing(c, x))
    ensures After(s, es, HearsNothing(c, x)).granted == s.granted
    decreases |es|
  {
    if es != [] {
      StepDeaf(s, es[0], c, x);
      StepUp(s, es[0]);
      DeafForever(Next(s, es[0]), es[1..], c, x);
    }
  }

  /** c works: it has the mutex and runs. */
  ghost predicate Works(s: State, c: PcbId) {
    true == (s.k.current == Some(c) && c != s.server && s.roles[c] == Inside && Enabled(s.k, Slice))
  }

  ghost predicate HolderSliced(s: State, c: PcbId, x: PcbId) {
    true == (Safe(s) && Works(s, c) && InFlight(s.k, x, c) == [])
  }

  /** At the end of its time slice a holder turns to waiting for x, which has answered already, exactly if it slept
      last in a receive from x: that of its grant, or that of a transfer it has asked the SSI for. */
  lemma HolderDeafIff(s: State, c: PcbId, x: PcbId)
    requires HolderSliced(s, c, x)
    ensures Deaf(Next(s, Slice), c, x) <==> s.k.pcbs[c].saved == Some(From(x))
  {
    HolderAfterSlice(s, c, x);
  }

  lemma HolderAfterSlice(s: State, c: PcbId, x: PcbId)
    requires HolderSliced(s, c, x)
    ensures var s2, saved := Next(s, Slice), s.k.pcbs[c].saved;
            && c != s.server && s2.turn == Awaiting(c) && Some(c) !in Senders(s2.k, s.server) && s2.server == s.server
            && InFlight(s2.k, x, c) == [] && Stands(s2.k, c, saved, saved) && s2.granted == s.granted
  {
    HolderSeat(s, c);
    HolderMoves(s, c);
    PendingKept(s.k, Slice, c);
    QuietSenders(s.k, Slice, s.server);
    SliceInFlight(s.k, x, c);
  }

  lemma SliceInFlight(k: K, x: PcbId, c: PcbId)
    requires Enabled(k, Slice)
    ensures InFlight(Apply(k, Slice), x, c) == InFlight(k, x, c)
  {
  }

  lemma HolderSeat(s: State, c: PcbId)
    requires Safe(s) && Works(s, c)
    ensures s.turn == Awaiting(c) && Some(c) !in Senders(s.k, s.server) && InFlight(s.k, s.server, c) == []
  {
    assert Seated(s, c);
  }

  lemma HolderMoves(s: State, c: PcbId)
    requires s.k.current == Some(c) && c != s.server && Enabled(s.k, Slice)
    ensures Next(s, Slice) == s.(k := Apply(s.k, Slice))
  {
    assert Mourned(s.roles, []) == s.roles;
  }

  lemma HolderLeavesUp(s: State, c: PcbId)
    requires Safe(s) && Works(s, c)
    ensures var s2 := Next(s, Slice); Inv(s2.k) && ServerUp(s2)
  {
    StepSafe(s, Slice);
  }

  /** Then it waits for x, and the server for it: as long as x sends it nothing, in no run that follows is anybody
      granted the mutex. If x is the server, that needs no promise: it waits for the release. */
  lemma SlicedHolderStarves(s: State, c: PcbId, x: PcbId, es: seq<Event>)
    requires HolderSliced(s, c, x) && s.k.pcbs[c].saved == Some(From(x))
    requires GoesOn(Next(s, Slice), es, HearsNothing(c, x))
    ensures After(Next(s, Slice), es, HearsNothing(c, x)).granted == s.granted
  {
    HolderAfterSlice(s, c, x);
    HolderLeavesUp(s, c);
    DeafForever(Next(s, Slice), es, c, x);
  }
}
