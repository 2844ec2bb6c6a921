/** A whole round of the swap mutex, from the start of the kernel: the protocol can be followed to its end. */
module Rounds {
  import opened Layout
  import opened PcbPool
  import opened MsgPool
  import opened Kernel
  import opened Invariant
  import opened Runs
  import opened Inboxes
  import opened SwapMutex
  import Boot
  import Replies
  import Slices
  import StrayReleases

  // ---------- what two processes see ----------

  /** Process d, process c: the receive each issues next, and whose messages are in its inbox. */
  datatype Side = Side(pending: Option<Filter>, saved: Option<Filter>, mail: seq<Option<PcbId>>)

  ghost function SideOf(k: K, p: PcbId): Side {
    Side(k.pcbs[p].pending, k.pcbs[p].saved, Senders(k, p))
  }

  /** Who runs, who is ready, and how many pool messages are left. */
  ghost predicate Scene(k: K, running: PcbId, ready: seq<Addr>, free: nat) {
    true == (k.current == Some(running) && k.Q(Head(Ready)) == ready && |k.Q(MsgFree)| >= free)
  }

  /** p and its mail are as they were. */
  ghost predicate Same(k: K, k2: K, p: PcbId) {
    true == (SideOf(k2, p) == SideOf(k, p))
  }

  ghost predicate Frame(k: K, k2: K) {
    true == (k2.ssi == k.ssi && forall p: PcbId :: k2.Live(p) == k.Live(p) && k2.SoftBlocked(p) == k.SoftBlocked(p))
  }

  lemma SameFrame(k: K, k2: K)
    requires k2.ssi == k.ssi && k2.Q(PcbFree) == k.Q(PcbFree)
    requires forall q: Queue | q != Ready :: k2.Q(Head(q)) == k.Q(Head(q))
    ensures Frame(k, k2)
  {
    forall p: PcbId ensures k2.SoftBlocked(p) == k.SoftBlocked(p) { Replies.SameQueuesShift(k, k2, p); }
  }

  // ---------- three kinds of step ----------

  /** A send wakes a sleeper. */
  lemma Wakes(k: K, me: PcbId, dest: PcbId, v: int, free: nat) returns (k2: K, r: SendResult)
    requires ListsOk(k) && Scene(k, me, [], free + 1) && dest != me && k.Live(dest)
    ensures (k2, r) == Send(k, me, dest, v) && r == Sent && Scene(k2, me, [PList(dest)], free) && Frame(k, k2)
    ensures SideOf(k2, dest) == SideOf(k, dest).(mail := Senders(k, dest) + [Some(me)])
    ensures forall p: PcbId | p != dest :: Same(k, k2, p)
  {
    k2, r := Send(k, me, dest, v).0, Send(k, me, dest, v).1;
    SendSenders(k, me, dest, v, dest);
    forall p: PcbId | p != dest ensures Same(k, k2, p) { OthersSame(k, me, dest, v, p); }
    SendFrame(k, me, dest, v);
    SameFrame(k, k2);
  }

  lemma OthersSame(k: K, me: PcbId, dest: PcbId, v: int, p: PcbId)
    requires ListsOk(k) && p != dest
    ensures Same(k, Send(k, me, dest, v).0, p)
  {
    SendSenders(k, me, dest, v, p);
    assert Senders(k, p) + [] == Senders(k, p);
  }

  /** A receive finds nothing, and the next process runs. */
  lemma Sleeps(k: K, me: PcbId, f: Filter, next: PcbId, rest: seq<Addr>, free: nat) returns (k2: K)
    requires Scene(k, me, [PList(next)] + rest, free) && Senders(k, me) == []
    ensures (k2, None) == Receive(k, me, f) && Scene(k2, next, rest, free) && Frame(k, k2)
    ensures SideOf(k2, me) == Side(Some(f), Some(f), []) && forall p: PcbId | p != me :: Same(k, k2, p)
  {
    k2 := Receive(k, me, f).0;
    SameFrame(k, k2);
  }

  /** A receive takes the only message there is. */
  lemma Takes(k: K, me: PcbId, f: Filter, from: PcbId, ready: seq<Addr>, free: nat) returns (k2: K, r: Option<Msg>)
    requires PidsOk(k) && MessagesOk(k) && Scene(k, me, ready, free)
    requires Senders(k, me) == [Some(from)] && (f == Any || f == From(from))
    ensures (k2, r) == Receive(k, me, f) && r.Some? && r.value.sender == Some(from)
    ensures Scene(k2, me, ready, free + 1) && Frame(k, k2)
    ensures SideOf(k2, me) == Side(None, k.pcbs[me].saved, []) && forall p: PcbId | p != me :: Same(k, k2, p)
  {
    k2, r := Receive(k, me, f).0, Receive(k, me, f).1;
    Found(k, me, f, from);
    ReceiveSenders(k, me, f, me);
    forall p: PcbId | p != me ensures Same(k, k2, p) { ReceiveSenders(k, me, f, p); }
    SameFrame(k, k2);
  }

  lemma Found(k: K, me: PcbId, f: Filter, from: PcbId)
    requires PidsOk(k) && MessagesOk(k) && Senders(k, me) == [Some(from)] && (f == Any || f == From(from))
    ensures FirstMatch(k.pcbs, k.msgs, k.Q(Inbox(me)), f).Some?
  {
    var q := k.Q(Inbox(me));
    assert q != [] && q[0] in q && SendersOf(k.msgs, q)[0] == Some(from);
    if f.From? { MatchIsIdentity(k, me, q[0], from); }
    FirstMatchIn(k.pcbs, k.msgs, q, f);
  }

  // ---------- runs ----------

  ghost predicate Reaches(s: State, es: seq<Event>, s2: State) {
    true == (SwapMutex.IsRun(s, es) && SwapMutex.End(s, es) == s2)
  }

  lemma {:induction false} Further(s: State, es: seq<Event>, s2: State, e: Event)
    requires Reaches(s, es, s2) && May(s2, e)
    ensures Reaches(s, es + [e], Next(s2, e))
    decreases |es|
  {
    if es == [] {
      assert [] + [e] == [e] && [e][1..] == [];
    } else {
      assert (es + [e])[0] == es[0] && (es + [e])[1..] == es[1..] + [e];
      Further(Next(s, es[0]), es[1..], s2, e);
    }
  }

  /** Where the server and the client c are in a round. */
  datatype Stage = Stage(turn: Turn, role: Role, running: PcbId, ready: seq<Addr>, free: nat,
                         server: Side, client: Side)

  ghost predicate Looks(s: State, c: PcbId, st: Stage) {
    true == (
      && !s.failed && c != s.server && s.turn == st.turn && s.roles[c] == st.role
      && Scene(s.k, st.running, st.ready, st.free)
      && SideOf(s.k, s.server) == st.server && SideOf(s.k, c) == st.client
      && s.k.Live(s.server) && !s.k.SoftBlocked(s.server) && s.k.Live(c) && !s.k.SoftBlocked(c)
      && c != s.k.ssi && s.server != s.k.ssi)
  }

  /** In a receive from anybody, with no message. */
  function Asleep(): Side { Side(Some(Any), Some(Any), []) }

  ghost predicate In(s: State, c: PcbId, st: Stage) {
    true == (Safe(s) && Looks(s, c, st))
  }

  /** What the server has granted; it takes up c's request, or nobody's. */
  function Counted(granted: seq<Option<PcbId>>, c: PcbId, takes: bool): seq<Option<PcbId>> {
    if takes then granted + [Some(c)] else granted
  }

  /** The SSI is where it was, and nobody dies or blocks. */
  ghost predicate SsiSame(k: K, k2: K) {
    true == (Frame(k, k2) && Same(k, k2, k.ssi))
  }

  /** One step of the round. */
  ghost predicate Moves(s: State, e: Event, s2: State, c: PcbId, st: Stage, takes: bool) {
    true == (May(s, e) && s2 == Next(s, e) && Looks(s2, c, st) && s2.granted == Counted(s.granted, c, takes)
             && SsiSame(s.k, s2.k))
  }

  /** The same with the invariant. */
  ghost predicate Leads(s: State, e: Event, s2: State, c: PcbId, st: Stage, takes: bool) {
    true == (Moves(s, e, s2, c, st, takes) && Safe(s2) && s2.server == s.server)
  }

  lemma Onward(s: State, e: Event, s2: State, c: PcbId, st0: Stage, st: Stage, takes: bool)
    requires In(s, c, st0) && Moves(s, e, s2, c, st, takes)
    ensures Leads(s, e, s2, c, st, takes)
  {
    StepSafe(s, e);
    StepServerSame(s, e);
  }

  /** What the exchange asks of the state it is in. */
  lemma Sound(s: State, c: PcbId, st: Stage)
    requires In(s, c, st)
    ensures ListsOk(s.k) && PidsOk(s.k) && MessagesOk(s.k) && Looks(s, c, st)
  {
  }

  /** The server sleeps in its first receive, c runs and has not asked, nobody else is ready. */
  function Idle(c: PcbId, saved: Option<Filter>): Stage {
    Stage(AnyRequest, Outside, c, [], 2, Asleep(), Side(None, saved, []))
  }

  function Asking(d: PcbId, c: PcbId, saved: Option<Filter>): Stage {
    Stage(AnyRequest, Asked, c, [PList(d)], 1, Side(Some(Any), Some(Any), [Some(c)]), Side(None, saved, []))
  }

  function AsleepFrom(d: PcbId, mail: seq<Option<PcbId>>): Side { Side(Some(From(d)), Some(From(d)), mail) }

  function Waiting(d: PcbId, c: PcbId): Stage {
    Stage(AnyRequest, Asked, d, [], 1, Side(Some(Any), Some(Any), [Some(c)]), AsleepFrom(d, []))
  }

  function Chosen(d: PcbId, c: PcbId): Stage {
    Stage(Granting(c), Asked, d, [], 2, Side(None, Some(Any), []), AsleepFrom(d, []))
  }

  function Granted(d: PcbId, c: PcbId): Stage {
    Stage(Awaiting(c), Asked, d, [PList(c)], 1, Side(None, Some(Any), []), AsleepFrom(d, [Some(d)]))
  }

  function Called(d: PcbId, c: PcbId): Stage {
    Stage(Awaiting(c), Asked, c, [], 1, AsleepFrom(c, []), AsleepFrom(d, [Some(d)]))
  }

  /** The holder runs; the server sleeps in its second receive. */
  function Holding(d: PcbId, c: PcbId): Stage {
    Stage(Awaiting(c), Inside, c, [], 2, AsleepFrom(c, []), Side(None, Some(From(d)), []))
  }

  function Leaving(d: PcbId, c: PcbId): Stage {
    Stage(Awaiting(c), Outside, c, [PList(d)], 1, AsleepFrom(c, [Some(c)]), Side(None, Some(From(d)), []))
  }

  ghost predicate Spoken(d: PcbId, c: PcbId, st: Stage, st2: Stage) {
    true == (
      && st.running == c && st.ready == [] && st.free == 2 && st.client.pending == None
      && (st.role == Outside || st.role == Inside)
      && st2 == st.(role := if st.role == Outside then Asked else Outside, ready := [PList(d)], free := 1,
                    server := st.server.(mail := st.server.mail + [Some(c)])))
  }

  /** The client sends: its request, or its release. */
  lemma ClientSpeaks(s: State, c: PcbId, st: Stage, st2: Stage) returns (s2: State)
    requires ListsOk(s.k) && Looks(s, c, st) && Spoken(s.server, c, st, st2)
    ensures Moves(s, Sends(s.server, 0), s2, c, st2, false)
  {
    var k2, r := Wakes(s.k, c, s.server, 0, 1);
    s2 := ClientSends(s, c, k2, r);
    ClientSpoke(s, c, st, st2, k2, r);
    ClientMaySpeak(s, c, st, st2);
  }

  lemma ClientMaySpeak(s: State, c: PcbId, st: Stage, st2: Stage)
    requires Looks(s, c, st) && Spoken(s.server, c, st, st2)
    ensures May(s, Sends(s.server, 0))
  {
  }

  lemma ClientSpoke(s: State, c: PcbId, st: Stage, st2: Stage, k2: K, r: SendResult)
    requires Looks(s, c, st) && Spoken(s.server, c, st, st2) && r == Sent
    requires Scene(k2, c, [PList(s.server)], 1) && Frame(s.k, k2) && Same(s.k, k2, c) && Same(s.k, k2, s.k.ssi)
    requires SideOf(k2, s.server) == SideOf(s.k, s.server).(mail := Senders(s.k, s.server) + [Some(c)])
    ensures Looks(ClientSends(s, c, k2, r), c, st2)
  {
  }

  ghost predicate GrantSpoken(d: PcbId, c: PcbId, st: Stage, st2: Stage) {
    true == (
      && st.running == d && st.ready == [] && st.free == 2 && st.turn == Granting(c) && st.server.pending == None
      && st2 == st.(turn := Awaiting(c), ready := [PList(c)], free := 1,
         client := st.client.(mail := st.client.mail + [Some(d)])))
  }

  /** The server sends the grant. */
  lemma ServerSpeaks(s: State, c: PcbId, st: Stage, st2: Stage) returns (s2: State)
    requires ListsOk(s.k) && Looks(s, c, st) && GrantSpoken(s.server, c, st, st2)
    ensures Moves(s, Sends(c, 0), s2, c, st2, false)
  {
    var k2, r := Wakes(s.k, s.server, c, 0, 1);
    s2 := ServerSends(s, k2, r);
    ServerSpoke(s, c, st, st2, k2, r);
    ServerMaySpeak(s, c, st, st2);
  }

  lemma ServerMaySpeak(s: State, c: PcbId, st: Stage, st2: Stage)
    requires Looks(s, c, st) && GrantSpoken(s.server, c, st, st2)
    ensures May(s, Sends(c, 0))
  {
  }

  lemma ServerSpoke(s: State, c: PcbId, st: Stage, st2: Stage, k2: K, r: SendResult)
    requires Looks(s, c, st) && GrantSpoken(s.server, c, st, st2) && r == Sent
    requires Scene(k2, s.server, [PList(c)], 1) && Frame(s.k, k2) && Same(s.k, k2, s.server) && Same(s.k, k2, s.k.ssi)
    requires SideOf(k2, c) == SideOf(s.k, c).(mail := Senders(s.k, c) + [Some(s.server)])
    ensures Looks(ServerSends(s, k2, r), c, st2)
  {
  }

  lemma GrantIsSpoken(d: PcbId, c: PcbId)
    ensures GrantSpoken(d, c, Chosen(d, c), Granted(d, c))
  {
  }

  lemma RequestSpoken(d: PcbId, c: PcbId, saved: Option<Filter>)
    ensures Spoken(d, c, Idle(c, saved), Asking(d, c, saved))
  {
  }

  lemma ReleaseSpoken(d: PcbId, c: PcbId)
    ensures Spoken(d, c, Holding(d, c), Leaving(d, c))
  {
  }

  lemma Asks(s: State, c: PcbId, saved: Option<Filter>) returns (s2: State)
    requires In(s, c, Idle(c, saved))
    ensures Leads(s, Sends(s.server, 0), s2, c, Asking(s.server, c, saved), false)
  {
    Sound(s, c, Idle(c, saved));
    RequestSpoken(s.server, c, saved);
    s2 := ClientSpeaks(s, c, Idle(c, saved), Asking(s.server, c, saved));
    Onward(s, Sends(s.server, 0), s2, c, Idle(c, saved), Asking(s.server, c, saved), false);
  }

  lemma Releases(s: State, c: PcbId) returns (s2: State)
    requires In(s, c, Holding(s.server, c))
    ensures Leads(s, Sends(s.server, 0), s2, c, Leaving(s.server, c), false)
  {
    Sound(s, c, Holding(s.server, c));
    ReleaseSpoken(s.server, c);
    s2 := ClientSpeaks(s, c, Holding(s.server, c), Leaving(s.server, c));
    Onward(s, Sends(s.server, 0), s2, c, Holding(s.server, c), Leaving(s.server, c), false);
  }

  lemma GivesGrant(s: State, c: PcbId) returns (s2: State)
    requires In(s, c, Chosen(s.server, c))
    ensures Leads(s, Sends(c, 0), s2, c, Granted(s.server, c), false)
  {
    Sound(s, c, Chosen(s.server, c));
    GrantIsSpoken(s.server, c);
    s2 := ServerSpeaks(s, c, Chosen(s.server, c), Granted(s.server, c));
    Onward(s, Sends(c, 0), s2, c, Chosen(s.server, c), Granted(s.server, c), false);
  }

  /** The client finds no grant yet; the server, woken by the request, runs. */
  lemma ClientSleeps(s: State, c: PcbId, saved: Option<Filter>) returns (s2: State)
    requires Looks(s, c, Asking(s.server, c, saved))
    ensures Moves(s, Receives(From(s.server)), s2, c, Waiting(s.server, c), false)
  {
    var k2 := Sleeps(s.k, c, From(s.server), s.server, [], 1);
    s2 := ClientReceives(s, c, k2, None);
  }

  lemma Waits(s: State, c: PcbId, saved: Option<Filter>) returns (s2: State)
    requires In(s, c, Asking(s.server, c, saved))
    ensures Leads(s, Receives(From(s.server)), s2, c, Waiting(s.server, c), false)
  {
    Sound(s, c, Asking(s.server, c, saved));
    s2 := ClientSleeps(s, c, saved);
    Onward(s, Receives(From(s.server)), s2, c, Asking(s.server, c, saved), Waiting(s.server, c), false);
  }

  /** The server takes the request. */
  lemma ServerTakes(s: State, c: PcbId) returns (s2: State)
    requires PidsOk(s.k) && MessagesOk(s.k) && Looks(s, c, Waiting(s.server, c))
    ensures Moves(s, Receives(Any), s2, c, Chosen(s.server, c), true)
  {
    var k2, r := Takes(s.k, s.server, Any, c, [], 1);
    s2 := ServerReceives(s, k2, r);
  }

  lemma TakesUp(s: State, c: PcbId) returns (s2: State)
    requires In(s, c, Waiting(s.server, c))
    ensures Leads(s, Receives(Any), s2, c, Chosen(s.server, c), true)
  {
    Sound(s, c, Waiting(s.server, c));
    s2 := ServerTakes(s, c);
    Onward(s, Receives(Any), s2, c, Waiting(s.server, c), Chosen(s.server, c), true);
  }

  /** The server waits for the release; the client, woken by the grant, runs. */
  lemma ServerSleeps(s: State, c: PcbId) returns (s2: State)
    requires Looks(s, c, Granted(s.server, c))
    ensures Moves(s, Receives(From(c)), s2, c, Called(s.server, c), false)
  {
    var k2 := Sleeps(s.k, s.server, From(c), c, [], 1);
    s2 := ServerReceives(s, k2, None);
  }

  lemma Awaits(s: State, c: PcbId) returns (s2: State)
    requires In(s, c, Granted(s.server, c))
    ensures Leads(s, Receives(From(c)), s2, c, Called(s.server, c), false)
  {
    Sound(s, c, Granted(s.server, c));
    s2 := ServerSleeps(s, c);
    Onward(s, Receives(From(c)), s2, c, Granted(s.server, c), Called(s.server, c), false);
  }

  /** The client takes the grant. */
  lemma ClientTakes(s: State, c: PcbId) returns (s2: State)
    requires PidsOk(s.k) && MessagesOk(s.k) && Looks(s, c, Called(s.server, c))
    ensures Moves(s, Receives(From(s.server)), s2, c, Holding(s.server, c), false)
  {
    var k2, r := Takes(s.k, c, From(s.server), s.server, [], 1);
    s2 := ClientReceives(s, c, k2, r);
  }

  lemma Enters(s: State, c: PcbId) returns (s2: State)
    requires In(s, c, Called(s.server, c))
    ensures Leads(s, Receives(From(s.server)), s2, c, Holding(s.server, c), false)
  {
    Sound(s, c, Called(s.server, c));
    s2 := ClientTakes(s, c);
    Onward(s, Receives(From(s.server)), s2, c, Called(s.server, c), Holding(s.server, c), false);
  }

  // ---------- the round ----------

  /** The run es leads from s to s2; on the way the server has taken up c's request, or nobody's. */
  ghost predicate Trail(s: State, es: seq<Event>, s2: State, c: PcbId, st: Stage, taken: bool) {
    true == (Reaches(s, es, s2) && In(s2, c, st) && Tally(s, s2, c, taken) && SsiSame(s.k, s2.k))
  }

  ghost predicate Tally(s: State, s2: State, c: PcbId, taken: bool) {
    true == (s2.server == s.server && s2.granted == Counted(s.granted, c, taken))
  }

  lemma SsiSameTwice(k: K, k1: K, k2: K)
    requires SsiSame(k, k1) && SsiSame(k1, k2)
    ensures SsiSame(k, k2)
  {
  }

  lemma Advance(s: State, es: seq<Event>, s1: State, st1: Stage, taken: bool, e: Event, s2: State, c: PcbId,
      st2: Stage, takes: bool)
    requires Trail(s, es, s1, c, st1, taken) && Leads(s1, e, s2, c, st2, takes) && !(taken && takes)
    ensures Trail(s, es + [e], s2, c, st2, taken || takes)
  {
    AdvanceRun(s, es, s1, e, s2, c, st2, takes);
    SsiSameTwice(s.k, s1.k, s2.k);
  }

  lemma AdvanceRun(s: State, es: seq<Event>, s1: State, e: Event, s2: State, c: PcbId, st2: Stage, takes: bool)
    requires Reaches(s, es, s1) && Moves(s1, e, s2, c, st2, takes)
    ensures Reaches(s, es + [e], s2)
  {
    Further(s, es, s1, e);
  }

  lemma NoStep(s: State, c: PcbId, st: Stage)
    requires In(s, c, st)
    ensures Trail(s, [], s, c, st, false)
  {
    ReachesItself(s);
    SsiSameItself(s.k);
  }

  lemma SsiSameItself(k: K)
    ensures SsiSame(k, k)
  {
  }

  lemma ReachesItself(s: State)
    ensures Reaches(s, [], s)
  {
  }

  /** From the request to the choice of the client. */
  lemma UpToChoice(s: State, c: PcbId, saved: Option<Filter>) returns (es: seq<Event>, s3: State)
    requires In(s, c, Idle(c, saved))
    ensures Trail(s, es, s3, c, Chosen(s.server, c), true)
  {
    var d := s.server;
    NoStep(s, c, Idle(c, saved));
    var s1 := Asks(s, c, saved);
    Advance(s, [], s, Idle(c, saved), false, Sends(d, 0), s1, c, Asking(d, c, saved), false);
    es := [] + [Sends(d, 0)];
    var s2 := Waits(s1, c, saved);
    Advance(s, es, s1, Asking(d, c, saved), false, Receives(From(d)), s2, c, Waiting(d, c), false);
    es := es + [Receives(From(d))];
    s3 := TakesUp(s2, c);
    Advance(s, es, s2, Waiting(d, c), false, Receives(Any), s3, c, Chosen(d, c), true);
    es := es + [Receives(Any)];
  }

  /** From the choice to the work of the client. */
  lemma UpToWork(s: State, es0: seq<Event>, s3: State, c: PcbId) returns (es: seq<Event>, held: State)
    requires Trail(s, es0, s3, c, Chosen(s.server, c), true)
    ensures Trail(s, es, held, c, Holding(s.server, c), true)
  {
    var d := s.server;
    var s4 := GivesGrant(s3, c);
    Advance(s, es0, s3, Chosen(d, c), true, Sends(c, 0), s4, c, Granted(d, c), false);
    es := es0 + [Sends(c, 0)];
    var s5 := Awaits(s4, c);
    Advance(s, es, s4, Granted(d, c), true, Receives(From(c)), s5, c, Called(d, c), false);
    es := es + [Receives(From(c))];
    held := Enters(s5, c);
    Advance(s, es, s5, Called(d, c), true, Receives(From(d)), held, c, Holding(d, c), false);
    es := es + [Receives(From(d))];
  }

  /** From every idle state a process that asks gets the mutex, and from there it can release it. */
  lemma Round(s: State, c: PcbId, saved: Option<Filter>) returns (es: seq<Event>, held: State, left: State)
    requires In(s, c, Idle(c, saved))
    ensures Trail(s, es, held, c, Holding(s.server, c), true)
    ensures Leads(held, Sends(s.server, 0), left, c, Leaving(s.server, c), false)
  {
    var es3, s3 := UpToChoice(s, c, saved);
    es, held := UpToWork(s, es3, s3, c);
    left := Releases(held, c);
  }

  // ---------- from the start of the kernel ----------

  /** The first dispatch: the SSI runs, process 1 is ready, PCB 2 is the next to be used. */
  lemma Dawn(k: K)
    requires Boot.Initial(k)
    ensures var k1 := Schedule(k);
            && Scene(k1, 0, [PList(1)], 2) && k1.ssi == 0 && Senders(k1, 0) == []
               && SideOf(k1, 1) == Side(None, None, [])
            && k1.Q(PcbFree) != [] && k1.Q(PcbFree)[0] == PList(2) && k1.Live(1)
  {
    assert Boot.FreePcbs()[2..][0] == PList(2);
    DawnOfTwo(k);
  }

  lemma DawnOfTwo(k: K)
    requires Boot.Initial(k)
    ensures Schedule(k).Live(1) && k.Q(Head(Ready))[1..] == [PList(1)]
  {
    assert k.Q(Head(Ready))[1] == PList(1) && PList(1) in k.Q(Head(Ready));
    BlockedIsAlive(k, Ready, 1);
  }

  /** The SSI creates a child of process 1. */
  lemma ChildIsBorn(k: K) returns (k2: K)
    requires ListsOk(k) && PidsOk(k) && Scene(k, 0, [PList(1)], 2) && Senders(k, 0) == []
             && SideOf(k, 1) == Side(None, None, [])
    requires k.Q(PcbFree) != [] && k.Q(PcbFree)[0] == PList(2) && k.Live(1)
    ensures k2 == Create(k, 1).0 && Scene(k2, 0, [PList(1), PList(2)], 2) && k2.ssi == k.ssi
    ensures Senders(k2, 0) == [] && SideOf(k2, 1) == Side(None, None, []) && SideOf(k2, 2) == Side(None, None, [])
  {
    k2 := Create(k, 1).0;
    assert PList(2) in k.Q(PcbFree);
  }

  lemma RunnerIsFree(k: K, p: PcbId)
    requires ListsOk(k) && k.current == Some(p)
    ensures k.Live(p) && !k.SoftBlocked(p)
  {
  }

  /** Process 1 serves; nobody has asked. */
  ghost predicate Morning(s: State) {
    true == (s.server == 1 && s.turn == AnyRequest && s.roles[0] == Outside && s.roles[2] == Outside && !s.failed
             && s.granted == []
             && s.k.ssi == 0 && !s.k.SoftBlocked(0))
  }

  /** The SSI is process 0 and sleeps in its receive. */
  ghost predicate SsiSleepsIn(k: K) {
    true == (k.ssi == 0 && SideOf(k, 0) == Asleep() && !k.SoftBlocked(0))
  }

  /** Processes 1 and 2 have not run yet. */
  ghost predicate Early(k: K, running: PcbId, ready: seq<Addr>) {
    true == (Scene(k, running, ready, 2) && SideOf(k, 1) == Side(None, None, [])
             && SideOf(k, 2) == Side(None, None, []))
  }

  ghost predicate Stepped(s: State, e: Event, s2: State) {
    true == (May(s, e) && s2 == Next(s, e) && Morning(s2))
  }

  lemma Births(s: State) returns (s2: State)
    requires Morning(s) && ListsOk(s.k) && PidsOk(s.k)
    requires Scene(s.k, 0, [PList(1)], 2) && Senders(s.k, 0) == []
    requires SideOf(s.k, 1) == Side(None, None, []) && s.k.Q(PcbFree) != [] && s.k.Q(PcbFree)[0] == PList(2)
             && s.k.Live(1)
    ensures Stepped(s, Creates(1), s2) && Early(s2.k, 0, [PList(1), PList(2)]) && Senders(s2.k, 0) == []
    ensures s2.k.pcbs[0] == s.k.pcbs[0]
  {
    var k2 := ChildIsBorn(s.k);
    BirthBlocksNobody(s.k, 0);
    s2 := s.(k := k2);
    Unbereaved(s, k2);
    MayBear(s);
  }

  lemma MayBear(s: State)
    requires Morning(s) && s.k.current == Some(0) && s.k.Live(1)
    ensures May(s, Creates(1))
  {
  }

  lemma BirthBlocksNobody(k: K, p: PcbId)
    requires k.Q(PcbFree) != []
    ensures Create(k, 1).0.SoftBlocked(p) == k.SoftBlocked(p)
  {
    CreateFrame(k, 1);
    Replies.SameQueuesShift(k, Create(k, 1).0, p);
  }

  lemma Unbereaved(s: State, k2: K)
    ensures Bereaved(s, k2, []) == s.(k := k2)
  {
    assert Mourned(s.roles, []) == s.roles;
  }

  lemma SsiSleeps(s: State) returns (s2: State)
    requires Morning(s) && Early(s.k, 0, [PList(1), PList(2)]) && s.k.pcbs[0].pending == None && Senders(s.k, 0) == []
    ensures Stepped(s, Receives(Any), s2) && Early(s2.k, 1, [PList(2)]) && SideOf(s2.k, 0) == Asleep()
  {
    var k2 := EarlySleeps(s.k, 0, 1, [PList(2)]);
    s2 := ClientReceives(s, 0, k2, None);
  }

  lemma EarlySleeps(k: K, me: PcbId, next: PcbId, rest: seq<Addr>) returns (k2: K)
    requires me != 1 && me != 2 && Early(k, me, [PList(next)] + rest) && Senders(k, me) == []
    ensures (k2, None) == Receive(k, me, Any) && Early(k2, next, rest) && SideOf(k2, me) == Asleep() && Frame(k, k2)
  {
    k2 := Sleeps(k, me, Any, next, rest, 2);
    assert Same(k, k2, 1) && Same(k, k2, 2);
  }

  lemma ServerListens(s: State) returns (s2: State)
    requires Morning(s) && Early(s.k, 1, [PList(2)]) && SideOf(s.k, 0) == Asleep()
    ensures Stepped(s, Receives(Any), s2) && Scene(s2.k, 2, [], 2) && SideOf(s2.k, 0) == Asleep()
    ensures SideOf(s2.k, 1) == Asleep() && SideOf(s2.k, 2) == Side(None, None, [])
  {
    var k2 := FirstSleep(s.k);
    s2 := ServerReceives(s, k2, None);
  }

  lemma FirstSleep(k: K) returns (k2: K)
    requires Early(k, 1, [PList(2)]) && SideOf(k, 0) == Asleep()
    ensures (k2, None) == Receive(k, 1, Any) && Scene(k2, 2, [], 2) && SideOf(k2, 0) == Asleep() && Frame(k, k2)
    ensures SideOf(k2, 1) == Asleep() && SideOf(k2, 2) == Side(None, None, [])
  {
    assert [PList(2)] + [] == [PList(2)];
    k2 := Sleeps(k, 1, Any, 2, [], 2);
    assert Same(k, k2, 2) && Same(k, k2, 0);
  }

  lemma IdleAtLast(s: State)
    requires Morning(s) && Safe(s) && Scene(s.k, 2, [], 2) && SideOf(s.k, 0) == Asleep()
    requires SideOf(s.k, 1) == Asleep() && SideOf(s.k, 2) == Side(None, None, [])
    ensures In(s, 2, Idle(2, None))
  {
    RunnerIsFree(s.k, 2);
  }

  lemma SafeOn(s: State, es: seq<Event>, s1: State, e: Event, s2: State)
    requires Reaches(s, es, s1) && Safe(s1) && Stepped(s1, e, s2)
    ensures Reaches(s, es + [e], s2) && Safe(s2)
  {
    Further(s, es, s1, e);
    StepSafe(s1, e);
  }

  /** From the first dispatch to an idle mutex with a process that can ask. */
  lemma Opening(k0: K, roles: Roles) returns (s: State, es: seq<Event>, s3: State)
    requires Boot.Initial(k0) && Reachable(Schedule(k0)) && forall p: PcbId :: roles[p] == Outside
    ensures s == State(Schedule(k0), 1, AnyRequest, roles, [], [], false)
    ensures Reaches(s, es, s3) && In(s3, 2, Idle(2, None)) && s3.server == 1 && s3.granted == [] && SsiSleepsIn(s3.k)
  {
    s := State(Schedule(k0), 1, AnyRequest, roles, [], [], false);
    NobodyAskedYet(k0, roles);
    StartSafe(s);
    Dawn(k0);
    RunnerIsFree(s.k, 0);
    var s1 := Births(s);
    ReachesItself(s);
    SafeOn(s, [], s, Creates(1), s1);
    var s2 := SsiSleeps(s1);
    SafeOn(s, [] + [Creates(1)], s1, Receives(Any), s2);
    s3 := ServerListens(s2);
    es := [] + [Creates(1)] + [Receives(Any)] + [Receives(Any)];
    SafeOn(s, [] + [Creates(1)] + [Receives(Any)], s2, Receives(Any), s3);
    IdleAtLast(s3);
  }

  lemma {:induction false} Joined(s: State, a: seq<Event>, s1: State, b: seq<Event>, s2: State)
    requires Reaches(s, a, s1) && Reaches(s1, b, s2)
    ensures Reaches(s, a + b, s2)
    decreases |a|
  {
    if a == [] {
      assert a + b == b;
    } else {
      assert (a + b)[0] == a[0] && (a + b)[1..] == a[1..] + b;
      Joined(Next(s, a[0]), a[1..], s1, b, s2);
    }
  }

  /** The holder has slept in its receive of the grant and not since. */
  lemma HolderCanBeSliced(s: State, c: PcbId)
    requires Safe(s) && Looks(s, c, Holding(s.server, c))
    ensures Slices.HolderSliced(s, c, s.server)
  {
    HolderWorks(s, c);
    Slices.HolderSeat(s, c);
  }

  lemma HolderWorks(s: State, c: PcbId)
    requires Looks(s, c, Holding(s.server, c))
    ensures Slices.Works(s, c) && s.k.pcbs[c].pending == None && s.k.pcbs[c].saved == Some(From(s.server))
  {
  }

  /** Once it has released, mutexRecv names it still. */
  lemma LeavingStrays(s: State, c: PcbId)
    requires Safe(s) && Looks(s, c, Leaving(s.server, c)) && s.granted == [Some(c)]
    ensures StrayReleases.MayStray(s, c)
  {
  }

  /** From every initial state there is a run to a holder whose time slice can end, and one step on to a process
      that has left and whose trap releases the mutex again. */
  lemma SomebodyGetsIn(k0: K, roles: Roles) returns (s: State, es: seq<Event>, held: State, left: State)
    requires Boot.Initial(k0) && forall p: PcbId :: roles[p] == Outside
    ensures s == State(Schedule(k0), 1, AnyRequest, roles, [], [], false) && Start(s)
    ensures Reaches(s, es, held) && held.roles[2] == Inside && held.k.pcbs[2].pending == None
    ensures held.k.pcbs[2].saved == Some(From(1)) && Slices.HolderSliced(held, 2, 1)
    ensures In(held, 2, Holding(1, 2)) && held.server == 1 && SsiSleepsIn(held.k)
    ensures Reaches(s, es + [Sends(1, 0)], left) && StrayReleases.MayStray(left, 2)
  {
    FirstIsReachable(k0);
    NobodyAskedYet(k0, roles);
    var s3, es1, es2;
    s, es1, s3 := Opening(k0, roles);
    es2, held, left := Round(s3, 2, None);
    es := es1 + es2;
    TrailRuns(s3, es2, held, 2, Holding(1, 2), true);
    TrailEnds(s3, es2, held, 2, Holding(1, 2), true);
    TrailCounts(s3, es2, held, 2, Holding(1, 2));
    TrailKeepsSsi(s3, es2, held, 2, Holding(1, 2), true);
    Joined(s, es1, s3, es2, held);
    WayOut(s, es, held, left);
  }

  lemma TrailRuns(s: State, es: seq<Event>, held: State, c: PcbId, st: Stage, taken: bool)
    requires Trail(s, es, held, c, st, taken)
    ensures Reaches(s, es, held)
  {
  }

  lemma TrailEnds(s: State, es: seq<Event>, held: State, c: PcbId, st: Stage, taken: bool)
    requires Trail(s, es, held, c, st, taken)
    ensures In(held, c, st)
  {
  }

  lemma TrailCounts(s: State, es: seq<Event>, held: State, c: PcbId, st: Stage)
    requires Trail(s, es, held, c, st, true) && s.granted == []
    ensures held.server == s.server && held.granted == [Some(c)]
  {
    OneCounted(s, held, c);
  }

  lemma OneCounted(s: State, held: State, c: PcbId)
    requires Tally(s, held, c, true) && s.granted == []
    ensures held.server == s.server && held.granted == [Some(c)]
  {
  }

  lemma TrailKeepsSsi(s: State, es: seq<Event>, held: State, c: PcbId, st: Stage, taken: bool)
    requires Trail(s, es, held, c, st, taken)
    ensures SsiSleepsIn(s.k) ==> SsiSleepsIn(held.k)
  {
    SsiSleepsOn(s.k, held.k);
  }

  lemma SsiSleepsOn(k: K, k2: K)
    requires SsiSame(k, k2)
    ensures SsiSleepsIn(k) ==> SsiSleepsIn(k2)
  {
  }

  lemma WayOut(s: State, es: seq<Event>, held: State, left: State)
    requires Reaches(s, es, held) && In(held, 2, Holding(1, 2)) && held.server == 1 && held.granted == [Some(2)]
    requires Leads(held, Sends(1, 0), left, 2, Leaving(1, 2), false)
    ensures held.roles[2] == Inside && held.k.pcbs[2].pending == None
    ensures held.k.pcbs[2].saved == Some(From(1)) && Slices.HolderSliced(held, 2, 1)
    ensures Reaches(s, es + [Sends(1, 0)], left) && StrayReleases.MayStray(left, 2)
  {
    Further(s, es, held, Sends(1, 0));
    HolderCanBeSliced(held, 2);
    HolderWorks(held, 2);
    LeavingStrays(left, 2);
  }
}
