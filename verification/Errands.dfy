/** A holder of the swap mutex asks the SSI for a service and gets its answer: after that its saved state stands at the
    receive of the answer. */
module Errands {
  import opened Layout
  import opened PcbPool
  import opened Kernel
  import opened Invariant
  import opened Mail
  import opened Runs
  import opened Inboxes
  import opened SwapMutex
  import opened Rounds
  import Boot
  import Slices

  /** The holder c and the SSI; the server is asleep and does not matter. */
  ghost predicate Errand(s: State, c: PcbId, running: PcbId, ready: seq<Addr>, free: nat, client: Side, ssi: Side) {
    true == (
      && s.roles[c] == Inside && c != s.server && c != s.k.ssi && s.server != s.k.ssi
      && Scene(s.k, running, ready, free) && SideOf(s.k, c) == client && SideOf(s.k, s.k.ssi) == ssi
      && s.k.Live(c) && !s.k.SoftBlocked(c) && s.k.Live(s.k.ssi) && !s.k.SoftBlocked(s.k.ssi))
  }

  /** A step that is none of the protocol. */
  ghost predicate Aside(s: State, e: Event, s2: State) {
    true == (May(s, e) && s2 == Next(s, e) && s2 == s.(k := s2.k) && s2.k.ssi == s.k.ssi)
  }

  lemma Asks(s: State, c: PcbId, saved: Option<Filter>) returns (s2: State)
    requires ListsOk(s.k) && Errand(s, c, c, [], 2, Side(None, saved, []), Asleep())
    ensures Aside(s, Sends(s.k.ssi, 0), s2)
    ensures Errand(s2, c, c, [PList(s.k.ssi)], 1, Side(None, saved, []), Asleep().(mail := [Some(c)]))
  {
    var k2, r := Wakes(s.k, c, s.k.ssi, 0, 1);
    s2 := s.(k := k2);
    MayAsk(s, c, saved);
    assert [] + [Some(c)] == [Some(c)];
    assert Same(s.k, k2, c);
  }

  lemma MayAsk(s: State, c: PcbId, saved: Option<Filter>)
    requires Errand(s, c, c, [], 2, Side(None, saved, []), Asleep())
    ensures May(s, Sends(s.k.ssi, 0)) && Next(s, Sends(s.k.ssi, 0)) == s.(k := Send(s.k, c, s.k.ssi, 0).0)
  {
  }

  lemma WaitsForAnswer(s: State, c: PcbId, saved: Option<Filter>) returns (s2: State)
    requires Errand(s, c, c, [PList(s.k.ssi)], 1, Side(None, saved, []), Asleep().(mail := [Some(c)]))
    ensures Aside(s, Receives(From(s.k.ssi)), s2)
    ensures Errand(s2, c, s.k.ssi, [], 1, AsleepFrom(s.k.ssi, []), Asleep().(mail := [Some(c)]))
  {
    var x := s.k.ssi;
    assert [PList(x)] + [] == [PList(x)];
    var k2 := Sleeps(s.k, c, From(x), x, [], 1);
    s2 := s.(k := k2);
    assert Same(s.k, k2, x);
  }

  lemma SsiTakes(s: State, c: PcbId) returns (s2: State)
    requires PidsOk(s.k) && MessagesOk(s.k)
    requires Errand(s, c, s.k.ssi, [], 1, AsleepFrom(s.k.ssi, []), Asleep().(mail := [Some(c)]))
    ensures Aside(s, Receives(Any), s2)
    ensures Errand(s2, c, s.k.ssi, [], 2, AsleepFrom(s.k.ssi, []), Side(None, Some(Any), []))
  {
    var k2, r := Takes(s.k, s.k.ssi, Any, c, [], 1);
    s2 := s.(k := k2);
    assert Same(s.k, k2, c);
  }

  lemma SsiAnswers(s: State, c: PcbId) returns (s2: State)
    requires ListsOk(s.k) && Errand(s, c, s.k.ssi, [], 2, AsleepFrom(s.k.ssi, []), Side(None, Some(Any), []))
    ensures Aside(s, Sends(c, 0), s2)
    ensures Errand(s2, c, s.k.ssi, [PList(c)], 1, AsleepFrom(s.k.ssi, [Some(s.k.ssi)]), Side(None, Some(Any), []))
  {
    var k2, r := Wakes(s.k, s.k.ssi, c, 0, 1);
    s2 := s.(k := k2);
    MayAnswer(s, c);
    assert [] + [Some(s.k.ssi)] == [Some(s.k.ssi)];
    assert Same(s.k, k2, s.k.ssi);
  }

  lemma MayAnswer(s: State, c: PcbId)
    requires Errand(s, c, s.k.ssi, [], 2, AsleepFrom(s.k.ssi, []), Side(None, Some(Any), []))
    ensures May(s, Sends(c, 0)) && Next(s, Sends(c, 0)) == s.(k := Send(s.k, s.k.ssi, c, 0).0)
  {
  }

  lemma SsiListens(s: State, c: PcbId) returns (s2: State)
    requires Errand(s, c, s.k.ssi, [PList(c)], 1, AsleepFrom(s.k.ssi, [Some(s.k.ssi)]), Side(None, Some(Any), []))
    ensures Aside(s, Receives(Any), s2)
    ensures Errand(s2, c, c, [], 1, AsleepFrom(s.k.ssi, [Some(s.k.ssi)]), Asleep())
  {
    assert [PList(c)] + [] == [PList(c)];
    var k2 := Sleeps(s.k, s.k.ssi, Any, c, [], 1);
    s2 := s.(k := k2);
    assert Same(s.k, k2, c);
  }

  lemma TakesAnswer(s: State, c: PcbId) returns (s2: State)
    requires PidsOk(s.k) && MessagesOk(s.k)
    requires Errand(s, c, c, [], 1, AsleepFrom(s.k.ssi, [Some(s.k.ssi)]), Asleep())
    ensures Aside(s, Receives(From(s.k.ssi)), s2)
    ensures Errand(s2, c, c, [], 2, Side(None, Some(From(s.k.ssi)), []), Asleep())
  {
    var x := s.k.ssi;
    var k2, r := Takes(s.k, c, From(x), x, [], 1);
    s2 := s.(k := k2);
    assert Same(s.k, k2, x);
  }

  // ---------- the whole errand ----------

  lemma OneStep(s: State, es: seq<Event>, s1: State, e: Event, s2: State)
    requires Reaches(s, es, s1) && Safe(s1) && Aside(s1, e, s2)
    ensures Reaches(s, es + [e], s2) && Safe(s2) && s2.server == s1.server && s2.k.ssi == s1.k.ssi
  {
    Further(s, es, s1, e);
    StepSafe(s1, e);
  }

  /** To the SSI and its answer. */
  lemma WayThere(s: State, c: PcbId, saved: Option<Filter>) returns (es: seq<Event>, s3: State)
    requires Safe(s) && Errand(s, c, c, [], 2, Side(None, saved, []), Asleep())
    ensures Reaches(s, es, s3) && Safe(s3) && s3.server == s.server && s3.k.ssi == s.k.ssi
    ensures Errand(s3, c, s.k.ssi, [], 2, AsleepFrom(s.k.ssi, []), Side(None, Some(Any), []))
  {
    var x := s.k.ssi;
    ReachesItself(s);
    var s1 := Asks(s, c, saved);
    OneStep(s, [], s, Sends(x, 0), s1);
    var s2 := WaitsForAnswer(s1, c, saved);
    OneStep(s, [] + [Sends(x, 0)], s1, Receives(From(x)), s2);
    s3 := SsiTakes(s2, c);
    OneStep(s, [] + [Sends(x, 0)] + [Receives(From(x))], s2, Receives(Any), s3);
    es := [] + [Sends(x, 0)] + [Receives(From(x))] + [Receives(Any)];
  }

  lemma WayBack(s: State, c: PcbId) returns (es: seq<Event>, s3: State)
    requires Safe(s) && Errand(s, c, s.k.ssi, [], 2, AsleepFrom(s.k.ssi, []), Side(None, Some(Any), []))
    ensures Reaches(s, es, s3) && Safe(s3) && s3.server == s.server && s3.k.ssi == s.k.ssi
    ensures Errand(s3, c, c, [], 2, Side(None, Some(From(s.k.ssi)), []), Asleep())
  {
    var x := s.k.ssi;
    ReachesItself(s);
    var s1 := SsiAnswers(s, c);
    OneStep(s, [], s, Sends(c, 0), s1);
    var s2 := SsiListens(s1, c);
    OneStep(s, [] + [Sends(c, 0)], s1, Receives(Any), s2);
    s3 := TakesAnswer(s2, c);
    OneStep(s, [] + [Sends(c, 0)] + [Receives(Any)], s2, Receives(From(x)), s3);
    es := [] + [Sends(c, 0)] + [Receives(Any)] + [Receives(From(x))];
  }

  lemma BackAtWork(s: State, c: PcbId, saved: Option<Filter>)
    requires Safe(s) && Errand(s, c, c, [], 2, Side(None, saved, []), Asleep())
    ensures Slices.HolderSliced(s, c, s.k.ssi) && s.k.pcbs[c].saved == saved
  {
    WorksOn(s, c, saved);
    NothingUnderWay(s.k, s.k.ssi, c);
  }

  lemma WorksOn(s: State, c: PcbId, saved: Option<Filter>)
    requires Errand(s, c, c, [], 2, Side(None, saved, []), Asleep())
    ensures Slices.Works(s, c) && s.k.pcbs[c].saved == saved && Senders(s.k, c) == []
  {
  }

  lemma NothingUnderWay(k: K, x: PcbId, c: PcbId)
    requires Senders(k, c) == []
    ensures InFlight(k, x, c) == []
  {
    assert k.Q(Inbox(c)) == [];
  }

  /** From every initial state there is a run to a holder that has been served by the SSI since its grant, works on,
      and whose time slice can end. */
  lemma HolderServed(k0: K, roles: Roles) returns (s: State, es: seq<Event>, held: State)
    requires Boot.Initial(k0) && forall p: PcbId :: roles[p] == Outside
    ensures Start(s) && Reaches(s, es, held)
    ensures Slices.HolderSliced(held, 2, held.k.ssi) && held.k.pcbs[2].saved == Some(From(held.k.ssi))
  {
    var es0, in0, left;
    s, es0, in0, left := SomebodyGetsIn(k0, roles);
    AtWork(in0);
    var es1, s1 := WayThere(in0, 2, Some(From(1)));
    var es2, s2 := WayBack(s1, 2);
    held, es := s2, es0 + (es1 + es2);
    Joined(in0, es1, s1, es2, s2);
    Joined(s, es0, in0, es1 + es2, s2);
    BackAtWork(held, 2, Some(From(held.k.ssi)));
  }

  lemma AtWork(s: State)
    requires In(s, 2, Holding(1, 2)) && s.server == 1 && SsiSleepsIn(s.k)
    ensures Safe(s) && Errand(s, 2, 2, [], 2, Side(None, Some(From(1)), []), Asleep())
  {
  }
}
