/** phase2/initial.c: the state main() hands to the scheduler. */
module Boot {
  import opened Layout
  import opened Rings
  import opened PcbPool
  import opened MsgPool
  import opened Kernel
  import opened Invariant

  function FreePcbs(): seq<Addr> {
    seq(MAXPROC, i requires 0 <= i < MAXPROC => PList(i))
  }

  function FreeMsgs(): seq<Addr> {
    seq(MAXMESSAGES, i requires 0 <= i < MAXMESSAGES => MList(MAXMESSAGES - 1 - i))
  }

  function Pools(): Heads {
    map[PcbFree := FreePcbs(), MsgFree := FreeMsgs()]
  }

  function ClearedLists(): Heads {
    Pools()[Head(Ready) := []][Head(Disk) := []][Head(Flash) := []][Head(Ethernet) := []]
           [Head(Printer) := []][Head(TermTransm) := []][Head(TermRecv) := []][Head(PseudoClock) := []]
  }

  function Cleared(): K {
    K(ClearedLists(), ZeroPcbs(), ZeroMsgs(), 1, None, 0, 0, 0)
  }

  /** A ready process that is nobody's child. */
  function Spawn(k: K): K {
    if k.Q(PcbFree) == [] then k
    else
      var c := PcbOf(k.Q(PcbFree)[0]);
      Newborn(k, c, None).Put(Head(Ready), PList(c))
  }

  /** Before the first dispatch: live processes are ready, have no kin and no mail. */
  ghost predicate Booting(k: K) {
    && ListsOk(k) && CountsOk(k) && PidsOk(k) && k.current == None && k.Q(MsgFree) == FreeMsgs()
    && (forall p: PcbId :: k.Q(PChild(p)) == [] && k.Q(Inbox(p)) == [] && k.pcbs[p].parent == None)
    && (forall p: PcbId | k.Live(p) :: PList(p) in k.Q(Head(Ready)))
    && (forall p: PcbId :: k.pcbs[p].pending == None && k.pcbs[p].saved == None)
  }

  /** Row c is next, on no list but the free list. */
  ghost predicate CanSpawn(k: K, c: PcbId) {
    && PcbFree in k.rings && Head(Ready) in k.rings
    && k.Q(PcbFree) != [] && PcbOf(k.Q(PcbFree)[0]) == c && Loose(k.rings, PSib(c))
  }

  lemma ClearedKeys(h: Addr)
    ensures h in ClearedLists() <==> h == PcbFree || h == MsgFree || h.Head?
    ensures h.Head? ==> ClearedLists()[h] == []
    ensures ClearedLists()[PcbFree] == FreePcbs() && ClearedLists()[MsgFree] == FreeMsgs()
  {
    if h.Head? {
      match h.queue { case Ready => case Disk => case Flash => case Ethernet => case Printer =>
                      case TermTransm => case TermRecv => case PseudoClock => }
    }
  }

  lemma PoolContents()
    ensures NoDup(FreePcbs()) && NoDup(FreeMsgs())
    ensures forall x :: x in FreePcbs() <==> x.PList?
    ensures forall x | x in FreeMsgs() :: x.MList?
  {
    forall x: Addr | x.PList? ensures x in FreePcbs() {
      assert FreePcbs()[x.pcb] == x;
    }
  }

  lemma ClearedShape()
    ensures Shape(ClearedLists())
  {
    PoolContents();
    forall h: Addr
      ensures h in ClearedLists() ==> h == PcbFree || h == MsgFree || (h.Head? && ClearedLists()[h] == [])
    {
      ClearedKeys(h);
    }
    ClearedKeys(PcbFree);
  }

  lemma ClearedCounts()
    ensures CountsOk(Cleared())
  {
    ClearedKeys(PcbFree);
    forall q: Queue ensures Cleared().Q(Head(q)) == [] { ClearedKeys(Head(q)); }
  }

  lemma ClearedBoots()
    ensures Booting(Cleared())
  {
    var k := Cleared();
    PoolContents();
    ClearedShape();
    ClearedKeys(PcbFree);
    ClearedCounts();
    forall p: PcbId ensures !k.Live(p) && k.Q(PChild(p)) == [] && k.Q(Inbox(p)) == [] {
      ClearedKeys(PChild(p));
      ClearedKeys(Inbox(p));
    }
    forall q: Queue ensures Head(q) in k.rings && k.Q(Head(q)) == [] { ClearedKeys(Head(q)); }
  }

  lemma SpawnBoots(k: K)
    requires Booting(k) && k.Q(PcbFree) != []
    ensures Booting(Spawn(k)) && Spawn(k).Live(PcbOf(k.Q(PcbFree)[0]))
    ensures CanSpawn(k, PcbOf(k.Q(PcbFree)[0]))
  {
    var x := k.Q(PcbFree)[0];
    assert x in k.Q(PcbFree) && Fits(PcbFree, x);
    var c := PcbOf(x);
    forall h | h in k.rings ensures PSib(c) !in k.rings[h] {
      if h.PChild? {
        assert k.Q(PChild(h.pcb)) == [];
      } else {
        assert !Fits(h, PSib(c));
      }
    }
    NewbornLists(k, c, None);
    PutLists(Newborn(k, c, None), Head(Ready), PList(c));
    SpawnRest(k, c);
  }

  lemma SpawnKin(k: K, c: PcbId)
    requires Booting(k) && k.Q(PcbFree) != [] && k.Q(PcbFree)[0] == PList(c)
    requires forall p: PcbId :: Newborn(k, c, None).Live(p) <==> k.Live(p) || p == c
    ensures var k2 := Spawn(k);
            && (forall p: PcbId :: k2.Live(p) <==> k.Live(p) || p == c)
            && (forall p: PcbId :: k2.Q(PChild(p)) == [] && k2.Q(Inbox(p)) == [] && k2.pcbs[p].parent == None)
            && (forall p: PcbId | k2.Live(p) :: PList(p) in k2.Q(Head(Ready)))
            && (forall p: PcbId :: k2.pcbs[p].pending == None && k2.pcbs[p].saved == None)
  {
    var k2 := Spawn(k);
    SpawnMoves(k, c);
    forall p: PcbId | k2.Live(p) ensures PList(p) in k2.Q(Head(Ready)) {
      if p == c { assert k2.Q(Head(Ready))[|k.Q(Head(Ready))|] == PList(c); }
    }
  }

  lemma SpawnMoves(k: K, c: PcbId)
    requires k.Q(PcbFree) != [] && k.Q(PcbFree)[0] == PList(c)
    ensures var k2 := Spawn(k);
            && k2.Q(PcbFree) == k.Q(PcbFree)[1..] && k2.Q(Head(Ready)) == k.Q(Head(Ready)) + [PList(c)]
            && (forall p: PcbId :: k2.Live(p) == Newborn(k, c, None).Live(p))
            && (forall p: PcbId :: k2.Q(PChild(p)) == if p == c then [] else k.Q(PChild(p)))
            && (forall p: PcbId :: k2.Q(Inbox(p)) == if p == c then [] else k.Q(Inbox(p)))
            && (forall p: PcbId :: k2.pcbs[p].parent == if p == c then None else k.pcbs[p].parent)
            && (forall p: PcbId | p != c :: k2.pcbs[p] == k.pcbs[p]) && k2.pcbs[c].pending == None
               && k2.pcbs[c].saved == None
  {
  }

  lemma SpawnRest(k: K, c: PcbId)
    requires Booting(k) && k.Q(PcbFree) != [] && k.Q(PcbFree)[0] == PList(c)
    requires forall p: PcbId :: Newborn(k, c, None).Live(p) <==> k.Live(p) || p == c
    requires ListsOk(Spawn(k))
    ensures Booting(Spawn(k)) && Spawn(k).Live(c)
  {
    SpawnKin(k, c);
    SpawnCounts(k);
    SpawnPids(k, c);
    SpawnFrame(k, c);
  }

  lemma SpawnFrame(k: K, c: PcbId)
    requires k.Q(PcbFree) != [] && k.Q(PcbFree)[0] == PList(c)
    ensures Spawn(k).current == k.current && Spawn(k).Q(MsgFree) == k.Q(MsgFree)
  {
  }

  lemma SpawnCounts(k: K)
    requires CountsOk(k) && k.Q(PcbFree) != []
    ensures CountsOk(Spawn(k))
  {
    assert forall q: Queue | q != Ready :: Spawn(k).Q(Head(q)) == k.Q(Head(q));
    SameTotal(k, Spawn(k));
  }

  lemma SpawnPids(k: K, c: PcbId)
    requires PidsOk(k) && k.Q(PcbFree) != [] && k.Q(PcbFree)[0] == PList(c)
    requires forall p: PcbId :: Spawn(k).Live(p) <==> k.Live(p) || p == c
    ensures PidsOk(Spawn(k))
  {
  }

  /** What main() hands to the scheduler: the SSI and the test process are ready, all else is free. */
  ghost predicate Initial(k: K) {
    && Booting(k) && k.ssi == 0 && k.processCount == 2
    && k.Q(Head(Ready)) == [PList(0), PList(1)] && k.Q(PcbFree) == FreePcbs()[2..]
  }

  /** The first n rows are ready, in table order, and the rest is free. */
  ghost predicate Up(k: K, n: nat) {
    && n <= MAXPROC && Booting(k) && k.ssi == 0 && k.processCount == n
    && k.Q(Head(Ready)) == FreePcbs()[..n] && k.Q(PcbFree) == FreePcbs()[n..]
  }

  lemma ClearedUp()
    ensures Up(Cleared(), 0)
  {
    ClearedBoots();
    ClearedKeys(PcbFree);
    ClearedKeys(Head(Ready));
  }

  lemma NextUp(k: K, c: PcbId)
    requires Up(k, c)
    ensures Up(Spawn(k), c + 1) && CanSpawn(k, c)
  {
    SpawnQueues(k, c);
    SpawnBoots(k);
  }

  lemma TwoUp(k: K)
    requires Up(k, 2)
    ensures Initial(k)
  {
    assert FreePcbs()[..2] == [PList(0), PList(1)];
  }

  /** There is such a state. */
  lemma InitialExists()
    ensures Initial(Spawn(Spawn(Cleared())))
  {
    ClearedUp();
    NextUp(Cleared(), 0);
    NextUp(Spawn(Cleared()), 1);
    TwoUp(Spawn(Spawn(Cleared())));
  }

  lemma InitialInv(k: K)
    requires Initial(k)
    ensures Inv(k)
  {
    var t := FreePcbs()[2..];
    assert forall i | 0 <= i < |t| :: t[i] == Row(i + 2);
  }

  /** The free list shrinks from the front, the ready queue grows at the tail. */
  lemma SpawnQueues(k: K, c: PcbId)
    requires k.Q(PcbFree) == FreePcbs()[c..] && k.Q(Head(Ready)) == FreePcbs()[..c]
    ensures var k2 := Spawn(k);
            && k2.Q(PcbFree) == FreePcbs()[c+1..] && k2.Q(Head(Ready)) == FreePcbs()[..c+1]
            && k2.processCount == k.processCount + 1 && k2.ssi == k.ssi
            && k.Q(PcbFree) != [] && PcbOf(k.Q(PcbFree)[0]) == c
  {
    var t := FreePcbs();
    assert t[c..][0] == PList(c) && t[c..][1..] == t[c+1..] && t[..c] + [PList(c)] == t[..c+1];
  }
}
