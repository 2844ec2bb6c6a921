/** terminateProcess as a function on nucleus states, and its effect in closed form. */
module Terminate {
  import opened Layout
  import opened Rings
  import opened PcbPool
  import opened Kernel
  import opened Invariant
  import Devices
  import Listx

  /** A process with its progeny. */
  datatype Tree = Node(root: PcbId, kids: seq<Tree>)

  /** The order in which the recursion frees the subtree. */
  function PostOrder(t: Tree): seq<PcbId>
  {
    Posts(t.kids) + [t.root]
  }

  function Posts(ts: seq<Tree>): seq<PcbId>
  {
    if ts == [] then [] else PostOrder(ts[0]) + Posts(ts[1..])
  }

  function Sibs(ts: seq<Tree>): seq<Addr> {
    if ts == [] then [] else [PSib(ts[0].root)] + Sibs(ts[1..])
  }

  function Nodes(ps: seq<PcbId>): seq<Addr> {
    if ps == [] then [] else [PList(ps[0])] + Nodes(ps[1..])
  }

  lemma NodesConcat(a: seq<PcbId>, b: seq<PcbId>)
    ensures Nodes(a + b) == Nodes(a) + Nodes(b)
  {
    if a != [] {
      assert (a + b)[1..] == a[1..] + b;
      NodesConcat(a[1..], b);
    } else {
      assert a + b == b;
    }
  }

  /** t is the subtree that the child lists and parent fields of k describe. */
  ghost predicate TreeAt(k: K, t: Tree)
    decreases t
  {
    PChild(t.root) in k.rings && k.Q(PChild(t.root)) == Sibs(t.kids) && TreesAt(k, t.root, t.kids)
  }

  ghost predicate TreesAt(k: K, p: PcbId, ts: seq<Tree>)
    decreases ts
  {
    ts == [] || (k.pcbs[ts[0].root].parent == Some(p) && TreeAt(k, ts[0]) && TreesAt(k, p, ts[1..]))
  }

  // ---------- the code ----------

  /** The queues isPcbBlockedOnDevice tries, in its order. It takes the number of the device the process
      was last blocked on for an interrupt line. */
  function Tried(dev: int): seq<Queue> {
    if dev == 7 then [TermRecv, TermTransm, PseudoClock]
    else if dev == 3 then [Disk, PseudoClock]
    else if dev == 4 then [Flash, PseudoClock]
    else if dev == 5 then [Ethernet, PseudoClock]
    else if dev == 6 then [Printer, PseudoClock]
    else [PseudoClock]
  }

  function OutFirst(k: K, qs: seq<Queue>, p: PcbId): (K, bool) {
    if qs == [] then (k, false)
    else if PList(p) in k.Q(Head(qs[0])) then (k.Take(Head(qs[0]), PList(p)), true)
    else OutFirst(k, qs[1..], p)
  }

  lemma OutFirstOfTwo(k: K, a: Queue, b: Queue, p: PcbId)
    ensures OutFirst(k, [a, b], p) ==
      if PList(p) in k.Q(Head(a)) then (k.Take(Head(a), PList(p)), true)
      else if PList(p) in k.Q(Head(b)) then (k.Take(Head(b), PList(p)), true)
      else (k, false)
  {
    assert [a, b][1..] == [b] && [b][1..] == [];
    assert OutFirst(k, [b], p) == if PList(p) in k.Q(Head(b)) then (k.Take(Head(b), PList(p)), true) else (k, false);
  }

  lemma OutFirstOfThree(k: K, a: Queue, b: Queue, c: Queue, p: PcbId)
    ensures OutFirst(k, [a, b, c], p) ==
      if PList(p) in k.Q(Head(a)) then (k.Take(Head(a), PList(p)), true)
      else if PList(p) in k.Q(Head(b)) then (k.Take(Head(b), PList(p)), true)
      else if PList(p) in k.Q(Head(c)) then (k.Take(Head(c), PList(p)), true)
      else (k, false)
  {
    assert [a, b, c][1..] == [b, c];
    OutFirstOfTwo(k, b, c, p);
  }

  function Unblock(k: K, p: PcbId): K {
    var (k1, hit) := OutFirst(k, Tried(k.pcbs[p].dev), p);
    if hit then k1.(softBlock := k1.softBlock - 1) else k1
  }

  /** outChild. */
  function Orphan(k: K, p: PcbId): K {
    match k.pcbs[p].parent
    case None => k
    case Some(h) => k.Take(PChild(h), PSib(p)).(pcbs := k.pcbs[p := k.pcbs[p].(parent := None)])
  }

  lemma OrphanRows(k: K, p: PcbId)
    ensures Orphan(k, p).pcbs == k.pcbs[p := k.pcbs[p].(parent := None)]
  {
    if k.pcbs[p].parent == None {
      assert k.pcbs[p := k.pcbs[p].(parent := None)] == k.pcbs;
    }
  }

  function Bury(k: K, p: PcbId): K {
    k.Put(PcbFree, PList(p)).(processCount := k.processCount - 1)
  }

  function KillOne(k: K, p: PcbId): K {
    Bury(Orphan(Unblock(k, p), p), p)
  }

  function KillTree(k: K, t: Tree): K
    decreases t
  {
    KillOne(KillAll(k, t.root, t.kids), t.root)
  }

  /** The loop: each child is taken off its parent's list and terminated. */
  function KillAll(k: K, p: PcbId, ts: seq<Tree>): K
    decreases ts
  {
    if ts == [] then k
    else KillAll(KillTree(k.Take(PChild(p), PSib(ts[0].root)), ts[0]), p, ts[1..])
  }

  // ---------- the effect ----------

  /** p can be unlinked by terminateProcess: it is on no queue, or waits for the clock, or is blocked on a
      device whose number happens to be the number of its line. */
  ghost predicate Killable(k: K, p: PcbId) {
    forall q: Queue | PList(p) in k.Q(Head(q)) ::
      q == PseudoClock || (q != Ready && Devices.QueueLine(q) == k.pcbs[p].dev)
  }

  /** Exactly the killable processes are off every queue when terminateProcess puts them on the free list. */
  lemma UnblockedIffKillable(k: K, p: PcbId)
    requires Shape(k.rings) && (forall q: Queue :: Head(q) in k.rings)
    ensures Killable(k, p) <==> forall q: Queue :: PList(p) !in Unblock(k, p).Q(Head(q))
  {
    assert forall q: Queue | PList(p) in k.Q(Head(q)) && q != PseudoClock ::
        q in Tried(k.pcbs[p].dev) <==> q != Ready && Devices.QueueLine(q) == k.pcbs[p].dev;
    var qs := Tried(k.pcbs[p].dev);
    if q :| PList(p) in k.Q(Head(q)) {
      WithoutMembers(k.rings[Head(q)], PList(p));
      if q in qs {
        OutFirstHits(k, qs, p, q);
      } else {
        OutFirstMisses(k, qs, p);
      }
    } else {
      OutFirstMisses(k, qs, p);
    }
  }

  /** For instance: a process blocked on the first device of any line is not found, and is still on that device's
      queue when it is put on the free list. */
  lemma FirstDeviceIsMissed(k: K, p: PcbId, q: Queue)
    requires Shape(k.rings) && (forall r: Queue :: Head(r) in k.rings)
    requires q != Ready && q != PseudoClock && PList(p) in k.Q(Head(q)) && k.pcbs[p].dev == 0
    ensures !Killable(k, p) && PList(p) in Unblock(k, p).Q(Head(q))
  {
    OutFirstMisses(k, Tried(0), p);
    assert Devices.QueueLine(q) != 0;
  }

  lemma OutFirstHits(k: K, qs: seq<Queue>, p: PcbId, q: Queue)
    requires Shape(k.rings) && q in qs && PList(p) in k.Q(Head(q))
    ensures OutFirst(k, qs, p) == (k.Take(Head(q), PList(p)), true)
  {
    if qs[0] != q {
      OutFirstHits(k, qs[1..], p, q);
    }
  }

  lemma {:induction false} OutFirstMisses(k: K, qs: seq<Queue>, p: PcbId)
    requires forall q | q in qs :: PList(p) !in k.Q(Head(q))
    ensures OutFirst(k, qs, p) == (k, false)
  {
    if qs != [] { OutFirstMisses(k, qs[1..], p); }
  }

  /** s with the nodes of dead processes left out. */
  function Survivors(s: seq<Addr>, dead: seq<PcbId>): seq<Addr> {
    if s == [] then []
    else if s[0].PList? && s[0].pcb in dead then Survivors(s[1..], dead)
    else [s[0]] + Survivors(s[1..], dead)
  }

  lemma SurvivorsTwice(s: seq<Addr>, a: seq<PcbId>, b: seq<PcbId>)
    ensures Survivors(Survivors(s, a), b) == Survivors(s, a + b)
  {
    if s != [] {
      SurvivorsTwice(s[1..], a, b);
    }
  }

  lemma SurvivorsMembers(s: seq<Addr>, dead: seq<PcbId>)
    ensures forall x :: x in Survivors(s, dead) <==> x in s && !(x.PList? && x.pcb in dead)
    ensures NoDup(s) ==> NoDup(Survivors(s, dead))
  {
    if s != [] {
      SurvivorsMembers(s[1..], dead);
      assert forall x :: x in s <==> x == s[0] || x in s[1..];
      if NoDup(s) {
        assert NoDup(s[1..]);
        assert s[0] !in s[1..];
      }
    }
  }

  lemma SurvivorsNone(s: seq<Addr>, dead: seq<PcbId>)
    requires forall x | x in s && x.PList? :: x.pcb !in dead
    ensures Survivors(s, dead) == s
  {
    if s != [] {
      assert s[0] in s;
      SurvivorsNone(s[1..], dead);
    }
  }

  lemma SurvivorsOne(s: seq<Addr>, p: PcbId)
    requires NoDup(s)
    ensures Survivors(s, [p]) == Without(s, PList(p))
  {
    if s != [] {
      assert NoDup(s[1..]);
      if s[0] == PList(p) {
        forall x | x in s[1..] && x.PList? ensures x.pcb !in [p] {
          var i :| 0 <= i < |s[1..]| && s[1..][i] == x;
          assert s[i+1] == x && s[0] != s[i+1];
        }
        SurvivorsNone(s[1..], [p]);
      } else {
        SurvivorsOne(s[1..], p);
      }
    }
  }

  /** k2 is k with exactly the processes dead freed, in that order: their rows are appended to the free
      list, they are on no other queue and have no children, the two counters dropped by what left the
      lists, and nothing else moved. Only the child list of exempt is left open. */
  ghost predicate Gone(k: K, k2: K, dead: seq<PcbId>, exempt: Option<PcbId>) {
    GoneCounted(k, k2, dead) && GoneFrom(k, k2, dead, exempt)
  }

  ghost predicate GoneCounted(k: K, k2: K, dead: seq<PcbId>) {
    && k2 == k.(rings := k2.rings, pcbs := k2.pcbs, processCount := k2.processCount, softBlock := k2.softBlock)
    && k2.rings.Keys == k.rings.Keys && Shape(k2.rings)
    && k2.processCount == k.processCount - |dead|
    && CountedOut(k, k2)
    && k2.Q(PcbFree) == k.Q(PcbFree) + Nodes(dead)
    && k2.Q(MsgFree) == k.Q(MsgFree)
  }

  /** softBlock drops by what left the blocked queues. */
  predicate CountedOut(k: K, k2: K) {
    true == (k.softBlock - k2.softBlock == k.BlockedTotal() - k2.BlockedTotal())
  }

  lemma CountedOutTwice(k: K, k1: K, k2: K)
    requires CountedOut(k, k1) && CountedOut(k1, k2)
    ensures CountedOut(k, k2)
  {
  }

  ghost predicate GoneFrom(k: K, k2: K, dead: seq<PcbId>, exempt: Option<PcbId>) {
    && (forall q: Queue :: k2.Q(Head(q)) == Survivors(k.Q(Head(q)), dead))
    && (forall p: PcbId :: k2.Q(Inbox(p)) == k.Q(Inbox(p)))
    && (forall p: PcbId | Some(p) != exempt :: k2.Q(PChild(p)) == if p in dead then [] else k.Q(PChild(p)))
    && (forall p: PcbId :: k2.pcbs[p] == if p in dead then k.pcbs[p].(parent := None) else k.pcbs[p])
  }

  lemma GoneTwice(k: K, k1: K, k2: K, a: seq<PcbId>, b: seq<PcbId>, exempt: Option<PcbId>)
    requires Gone(k, k1, a, exempt) && Gone(k1, k2, b, exempt)
    ensures Gone(k, k2, a + b, exempt)
  {
    CountedTwice(k, k1, k2, a, b);
    FromTwice(k, k1, k2, a, b, exempt);
  }

  lemma CountedTwice(k: K, k1: K, k2: K, a: seq<PcbId>, b: seq<PcbId>)
    requires GoneCounted(k, k1, a) && GoneCounted(k1, k2, b)
    ensures GoneCounted(k, k2, a + b)
  {
    CountedOutTwice(k, k1, k2);
    FreedTwo(k.Q(PcbFree), a, b);
    OnlyTheseTwice(k, k1, k2);
  }

  lemma FreedTwo(free: seq<Addr>, a: seq<PcbId>, b: seq<PcbId>)
    ensures (free + Nodes(a)) + Nodes(b) == free + Nodes(a + b) && |a + b| == |a| + |b|
  {
    NodesConcat(a, b);
    Regrouped(free, Nodes(a), Nodes(b));
  }

  lemma Regrouped(s: seq<Addr>, t: seq<Addr>, u: seq<Addr>)
    ensures (s + t) + u == s + (t + u)
  {
  }

  /** No other component changes. */
  lemma OnlyTheseTwice(k: K, k1: K, k2: K)
    requires k1 == k.(rings := k1.rings, pcbs := k1.pcbs, processCount := k1.processCount, softBlock := k1.softBlock)
    requires k2 == k1.(rings := k2.rings, pcbs := k2.pcbs, processCount := k2.processCount, softBlock := k2.softBlock)
    ensures k2 == k.(rings := k2.rings, pcbs := k2.pcbs, processCount := k2.processCount, softBlock := k2.softBlock)
  {
  }

  lemma FromTwice(k: K, k1: K, k2: K, a: seq<PcbId>, b: seq<PcbId>, exempt: Option<PcbId>)
    requires GoneFrom(k, k1, a, exempt) && GoneFrom(k1, k2, b, exempt)
    ensures GoneFrom(k, k2, a + b, exempt)
  {
    forall q: Queue ensures k2.Q(Head(q)) == Survivors(k.Q(Head(q)), a + b) {
      SurvivorsTwice(k.Q(Head(q)), a, b);
    }
    RowsGoneTwice(k.pcbs, k1.pcbs, k2.pcbs, a, b);
    forall p: PcbId | Some(p) != exempt ensures k2.Q(PChild(p)) == if p in a + b then [] else k.Q(PChild(p)) {
      assert k2.Q(PChild(p)) == if p in b then [] else k1.Q(PChild(p));
    }
  }

  lemma RowsGoneTwice(r: PcbRows, r1: PcbRows, r2: PcbRows, a: seq<PcbId>, b: seq<PcbId>)
    requires forall p: PcbId :: r1[p] == if p in a then r[p].(parent := None) else r[p]
    requires forall p: PcbId :: r2[p] == if p in b then r1[p].(parent := None) else r1[p]
    ensures forall p: PcbId :: r2[p] == if p in a + b then r[p].(parent := None) else r[p]
  {
  }

  /** What a call of terminateProcess may assume of the processes it kills. */
  ghost predicate Doomed(k: K, ps: seq<PcbId>) {
    && Shape(k.rings) && PcbFree in k.rings && (forall q: Queue :: Head(q) in k.rings)
    && NoDup(ps) && (forall p | p in ps :: k.Live(p) && Killable(k, p) && PChild(p) in k.rings)
  }

  lemma {:induction false} NodesMembers(ps: seq<PcbId>, x: PcbId)
    ensures PList(x) in Nodes(ps) <==> x in ps
  {
    if ps != [] { NodesMembers(ps[1..], x); }
  }

  /** Reading the subtree needs only the rows of its members. */
  lemma TreeFrame(k: K, k1: K, t: Tree)
    requires TreeAt(k, t) && k1.rings.Keys == k.rings.Keys
    requires forall x | x in PostOrder(t) :: k1.Q(PChild(x)) == k.Q(PChild(x)) && k1.pcbs[x].parent == k.pcbs[x].parent
    ensures TreeAt(k1, t)
    decreases t
  {
    assert t.root in PostOrder(t);
    TreesFrame(k, k1, t.root, t.kids);
  }

  lemma TreesFrame(k: K, k1: K, p: PcbId, ts: seq<Tree>)
    requires TreesAt(k, p, ts) && k1.rings.Keys == k.rings.Keys
    requires forall x | x in Posts(ts) :: k1.Q(PChild(x)) == k.Q(PChild(x)) && k1.pcbs[x].parent == k.pcbs[x].parent
    ensures TreesAt(k1, p, ts)
    decreases ts
  {
    if ts != [] {
      assert ts[0].root in PostOrder(ts[0]);
      TreeFrame(k, k1, ts[0]);
      TreesFrame(k, k1, p, ts[1..]);
    }
  }

  /** The processes that are left can still be killed. */
  lemma StillDoomed(k: K, k1: K, dead: seq<PcbId>, ps: seq<PcbId>, exempt: Option<PcbId>)
    requires Doomed(k, ps) && Gone(k, k1, dead, exempt) && forall p | p in ps :: p !in dead
    ensures Doomed(k1, ps)
  {
    forall p | p in ps ensures k1.Live(p) && Killable(k1, p) {
      NodesMembers(dead, p);
      forall q: Queue | PList(p) in k1.Q(Head(q)) ensures PList(p) in k.Q(Head(q)) {
        SurvivorsMembers(k.Q(Head(q)), dead);
      }
    }
  }

  /** What leaving its queue does to the process p. */
  ghost predicate Unqueued(k: K, k1: K, p: PcbId) {
    && k1 == k.(rings := k1.rings, softBlock := k1.softBlock)
    && k1.rings.Keys == k.rings.Keys && Shape(k1.rings) && Loose(k1.rings, PList(p))
    && CountedOut(k, k1)
    && (forall q: Queue :: k1.Q(Head(q)) == Survivors(k.Q(Head(q)), [p]))
    && (forall h: Addr | !h.Head? :: k1.Q(h) == k.Q(h))
  }

  lemma SurvivorsAtMostOne(k: K, p: PcbId, q: Queue)
    requires Shape(k.rings) && Head(q) in k.rings
    ensures Survivors(k.Q(Head(q)), [p]) == Without(k.Q(Head(q)), PList(p))
    ensures PList(p) !in k.Q(Head(q)) ==> Without(k.Q(Head(q)), PList(p)) == k.Q(Head(q))
  {
    SurvivorsOne(k.Q(Head(q)), p);
    if PList(p) !in k.Q(Head(q)) { WithoutAbsent(k.Q(Head(q)), PList(p)); }
  }

  lemma KillableIsTried(k: K, p: PcbId, q: Queue)
    requires Killable(k, p) && PList(p) in k.Q(Head(q))
    ensures q in Tried(k.pcbs[p].dev) && q != Ready
  {
  }

  lemma QueuesWithout(k: K, p: PcbId, q: Queue)
    requires Shape(k.rings) && PList(p) in k.Q(Head(q)) && forall r: Queue :: Head(r) in k.rings
    ensures forall r: Queue :: k.Take(Head(q), PList(p)).Q(Head(r)) == Survivors(k.Q(Head(r)), [p])
  {
    forall r: Queue ensures k.Take(Head(q), PList(p)).Q(Head(r)) == Survivors(k.Q(Head(r)), [p]) {
      SurvivorsAtMostOne(k, p, r);
      assert r != q ==> PList(p) !in k.Q(Head(r));
    }
  }

  lemma UnblockHit(k: K, p: PcbId, q: Queue)
    requires Shape(k.rings) && Head(q) in k.rings && PList(p) in k.Q(Head(q)) && q != Ready
    requires forall r: Queue :: Head(r) in k.rings
    requires Unblock(k, p) == k.Take(Head(q), PList(p)).(softBlock := k.softBlock - 1)
    ensures Unqueued(k, Unblock(k, p), p)
  {
    UnblockFrom(k, p, q);
    QueuesWithout(k, p, q);
    TakenIsUnqueued(k, Unblock(k, p), p, q);
  }

  lemma TakenIsUnqueued(k: K, k1: K, p: PcbId, q: Queue)
    requires k1 == k.Take(Head(q), PList(p)).(softBlock := k.softBlock - 1) && Head(q) in k.rings
    requires Shape(k1.rings) && Loose(k1.rings, PList(p))
             && k.Take(Head(q), PList(p)).BlockedTotal() == k.BlockedTotal() - 1
    requires forall r: Queue :: k.Take(Head(q), PList(p)).Q(Head(r)) == Survivors(k.Q(Head(r)), [p])
    ensures Unqueued(k, k1, p)
  {
    SameTotal(k.Take(Head(q), PList(p)), k1);
  }

  lemma UnblockGone(k: K, p: PcbId)
    requires Doomed(k, [p])
    ensures Unqueued(k, Unblock(k, p), p)
  {
    assert p in [p];
    if q :| PList(p) in k.Q(Head(q)) {
      KillableIsTried(k, p, q);
      OutFirstHits(k, Tried(k.pcbs[p].dev), p, q);
      UnblockHit(k, p, q);
    } else {
      OutFirstMisses(k, Tried(k.pcbs[p].dev), p);
      ProcessNodeLoose(k, p);
      forall r: Queue ensures Survivors(k.Q(Head(r)), [p]) == k.Q(Head(r)) {
        SurvivorsAtMostOne(k, p, r);
      }
    }
  }

  lemma UnblockFrom(k: K, p: PcbId, q: Queue)
    requires Shape(k.rings) && Head(q) in k.rings && PList(p) in k.Q(Head(q)) && q != Ready
    ensures var k1 := k.Take(Head(q), PList(p));
            && Shape(k1.rings) && Loose(k1.rings, PList(p)) && k1.BlockedTotal() == k.BlockedTotal() - 1
  {
    Listx.DeleteShape(k.rings, Head(q), PList(p));
    WithoutMembers(k.rings[Head(q)], PList(p));
    TotalMoves(k, k.Take(Head(q), PList(p)), q, -1);
  }

  lemma ProcessNodeLoose(k: K, p: PcbId)
    requires Shape(k.rings) && k.Live(p) && forall q: Queue :: PList(p) !in k.Q(Head(q))
    ensures Loose(k.rings, PList(p))
  {
    forall h | h in k.rings ensures PList(p) !in k.rings[h] {
      if h.Head? {
        assert PList(p) !in k.Q(Head(h.queue));
      } else if h != PcbFree {
        assert !Fits(h, PList(p));
      }
    }
  }

  /** One process without children: freed, and off its parent's list. */
  lemma KillOneGone(k: K, p: PcbId)
    requires Doomed(k, [p]) && k.Q(PChild(p)) == []
    requires k.pcbs[p].parent.Some? ==> k.pcbs[p].parent.value != p && PChild(k.pcbs[p].parent.value) in k.rings
    ensures var h := k.pcbs[p].parent;
            && Gone(k, KillOne(k, p), [p], h)
            && (h.Some? ==> KillOne(k, p).Q(PChild(h.value)) == Without(k.Q(PChild(h.value)), PSib(p)))
  {
    UnblockGone(k, p);
    var k1 := Unblock(k, p);
    UnqueuedFrame(k, k1, p);
    BuriedGone(k1, p);
    UnqueuedThenBuried(k, k1, KillOne(k, p), p);
  }

  lemma UnqueuedFrame(k: K, k1: K, p: PcbId)
    requires Unqueued(k, k1, p)
    ensures k1.pcbs == k.pcbs && k1.rings.Keys == k.rings.Keys && forall h: PcbId :: k1.Q(PChild(h)) == k.Q(PChild(h))
  {
  }

  /** outChild and freePcb for a process on no queue. */
  ghost predicate Buried(k1: K, k3: K, p: PcbId) {
    && k3 == k1.(rings := k3.rings, pcbs := k1.pcbs[p := k1.pcbs[p].(parent := None)],
                 processCount := k1.processCount - 1)
    && k3.rings.Keys == k1.rings.Keys && Shape(k3.rings)
    && k3.Q(PcbFree) == k1.Q(PcbFree) + [PList(p)]
    && (forall h: Addr | h != PcbFree && (k1.pcbs[p].parent == None || h != PChild(k1.pcbs[p].parent.value)) ::
          k3.Q(h) == k1.Q(h))
    && (k1.pcbs[p].parent.Some? ==>
          k3.Q(PChild(k1.pcbs[p].parent.value)) == Without(k1.Q(PChild(k1.pcbs[p].parent.value)), PSib(p)))
  }

  lemma BuriedGone(k1: K, p: PcbId)
    requires Shape(k1.rings) && Loose(k1.rings, PList(p)) && PcbFree in k1.rings
    requires k1.pcbs[p].parent.Some? ==> PChild(k1.pcbs[p].parent.value) in k1.rings
    ensures Buried(k1, Bury(Orphan(k1, p), p), p)
  {
    OrphanShape(k1, p);
    PutShape(Orphan(k1, p).rings, PcbFree, PList(p));
    if k1.pcbs[p].parent == None {
      assert k1.pcbs[p := k1.pcbs[p].(parent := None)] == k1.pcbs;
    }
  }

  lemma UnqueuedThenBuried(k: K, k1: K, k3: K, p: PcbId)
    requires Unqueued(k, k1, p) && Buried(k1, k3, p) && k.Q(PChild(p)) == []
    ensures Gone(k, k3, [p], k.pcbs[p].parent)
  {
    BuriedCounted(k, k1, k3, p);
    BuriedFrom(k, k1, k3, p);
  }

  lemma BuriedCounted(k: K, k1: K, k3: K, p: PcbId)
    requires Unqueued(k, k1, p) && Buried(k1, k3, p)
    ensures GoneCounted(k, k3, [p])
  {
    SameTotal(k1, k3);
    assert Nodes([p]) == [PList(p)];
  }

  lemma BuriedFrom(k: K, k1: K, k3: K, p: PcbId)
    requires Unqueued(k, k1, p) && Buried(k1, k3, p) && k.Q(PChild(p)) == []
    ensures GoneFrom(k, k3, [p], k.pcbs[p].parent)
  {
    BuriedLists(k, k1, k3, p);
    forall x: PcbId | Some(x) != k.pcbs[p].parent
      ensures k3.Q(PChild(x)) == if x in [p] then [] else k.Q(PChild(x))
    {
      assert k3.Q(PChild(x)) == k1.Q(PChild(x));
    }
  }

  lemma BuriedLists(k: K, k1: K, k3: K, p: PcbId)
    requires Unqueued(k, k1, p) && Buried(k1, k3, p)
    ensures forall q: Queue :: k3.Q(Head(q)) == Survivors(k.Q(Head(q)), [p])
    ensures forall x: PcbId :: k3.Q(Inbox(x)) == k.Q(Inbox(x))
  {
    forall q: Queue ensures k3.Q(Head(q)) == Survivors(k.Q(Head(q)), [p]) { assert k3.Q(Head(q)) == k1.Q(Head(q)); }
    forall x: PcbId ensures k3.Q(Inbox(x)) == k.Q(Inbox(x)) { assert k3.Q(Inbox(x)) == k1.Q(Inbox(x)); }
  }

  lemma OrphanShape(k: K, p: PcbId)
    requires Shape(k.rings) && Loose(k.rings, PList(p))
    requires k.pcbs[p].parent.Some? ==> PChild(k.pcbs[p].parent.value) in k.rings
    ensures var k2 := Orphan(k, p); Shape(k2.rings) && Loose(k2.rings, PList(p)) && k2.rings.Keys == k.rings.Keys
    ensures forall a: Addr | !a.PChild? :: Orphan(k, p).Q(a) == k.Q(a)
  {
    if k.pcbs[p].parent.Some? {
      var h := PChild(k.pcbs[p].parent.value);
      if PSib(p) in k.rings[h] {
        Listx.DeleteShape(k.rings, h, PSib(p));
      } else {
        WithoutAbsent(k.rings[h], PSib(p));
        assert k.rings[h := k.rings[h]] == k.rings;
      }
    }
  }

  /** The main result: the recursion frees the subtree in post-order and touches nothing else. */
  lemma {:induction false} KillTreeGone(k: K, t: Tree)
    requires Doomed(k, PostOrder(t)) && TreeAt(k, t)
    requires k.pcbs[t.root].parent.Some? ==>
               k.pcbs[t.root].parent.value !in PostOrder(t) && PChild(k.pcbs[t.root].parent.value) in k.rings
    ensures var h := k.pcbs[t.root].parent;
            && Gone(k, KillTree(k, t), PostOrder(t), h)
            && (h.Some? ==> KillTree(k, t).Q(PChild(h.value)) == Without(k.Q(PChild(h.value)), PSib(t.root)))
    decreases t
  {
    var p := t.root;
    var ps := Posts(t.kids);
    assert PostOrder(t)[|ps|] == p && forall i | 0 <= i < |ps| :: PostOrder(t)[i] == ps[i];
    assert forall x | x in ps :: x in PostOrder(t);
    KillAllGone(k, p, t.kids);
    var k1 := KillAll(k, p, t.kids);
    StillDoomed(k, k1, ps, [p], Some(p));
    KillOneGone(k1, p);
    GoneRoot(k, k1, KillTree(k, t), ps, p);
  }

  lemma GoneRoot(k: K, k1: K, k2: K, ps: seq<PcbId>, p: PcbId)
    requires Gone(k, k1, ps, Some(p)) && k1.Q(PChild(p)) == [] && p !in ps
    requires Gone(k1, k2, [p], k1.pcbs[p].parent) && k1.pcbs[p].parent != Some(p)
    ensures Gone(k, k2, ps + [p], k1.pcbs[p].parent)
  {
    CountedTwice(k, k1, k2, ps, [p]);
    FromRoot(k, k1, k2, ps, p, k1.pcbs[p].parent);
  }

  lemma FromRoot(k: K, k1: K, k2: K, ps: seq<PcbId>, p: PcbId, h: Option<PcbId>)
    requires GoneFrom(k, k1, ps, Some(p)) && k1.Q(PChild(p)) == [] && p !in ps
    requires GoneFrom(k1, k2, [p], h) && h != Some(p)
    ensures GoneFrom(k, k2, ps + [p], h)
  {
    forall q: Queue ensures k2.Q(Head(q)) == Survivors(k.Q(Head(q)), ps + [p]) {
      SurvivorsTwice(k.Q(Head(q)), ps, [p]);
    }
    RowsGoneTwice(k.pcbs, k1.pcbs, k2.pcbs, ps, [p]);
    forall x: PcbId | Some(x) != h ensures k2.Q(PChild(x)) == if x in ps + [p] then [] else k.Q(PChild(x)) {
      assert k2.Q(PChild(x)) == if x in [p] then [] else k1.Q(PChild(x));
    }
  }

  lemma {:induction false} KillAllGone(k: K, p: PcbId, ts: seq<Tree>)
    requires Doomed(k, Posts(ts)) && TreesAt(k, p, ts) && p !in Posts(ts)
    requires PChild(p) in k.rings && k.Q(PChild(p)) == Sibs(ts)
    ensures Gone(k, KillAll(k, p, ts), Posts(ts), Some(p)) && KillAll(k, p, ts).Q(PChild(p)) == []
    decreases ts
  {
    if ts == [] {
      forall q: Queue ensures Survivors(k.Q(Head(q)), []) == k.Q(Head(q)) { SurvivorsNone(k.Q(Head(q)), []); }
    } else {
      FirstKilled(k, p, ts);
      var k1 := KillTree(k.Take(PChild(p), PSib(ts[0].root)), ts[0]);
      KillAllGone(k1, p, ts[1..]);
      GoneTwice(k, k1, KillAll(k, p, ts), PostOrder(ts[0]), Posts(ts[1..]), Some(p));
    }
  }

  /** The first round of the loop. */
  lemma {:induction false} FirstKilled(k: K, p: PcbId, ts: seq<Tree>)
    requires ts != [] && Doomed(k, Posts(ts)) && TreesAt(k, p, ts) && p !in Posts(ts)
    requires PChild(p) in k.rings && k.Q(PChild(p)) == Sibs(ts)
    ensures var k1 := KillTree(k.Take(PChild(p), PSib(ts[0].root)), ts[0]);
            && Gone(k, k1, PostOrder(ts[0]), Some(p)) && k1.Q(PChild(p)) == Sibs(ts[1..])
            && Doomed(k1, Posts(ts[1..])) && TreesAt(k1, p, ts[1..]) && p !in Posts(ts[1..])
    decreases ts, 0
  {
    var t, rest := ts[0], ts[1..];
    var k0 := k.Take(PChild(p), PSib(t.root));
    FirstReady(k, p, ts);
    KillTreeGone(k0, t);
    var k1 := KillTree(k0, t);
    GoneTwice(k, k0, k1, [], PostOrder(t), Some(p));
    assert [] + PostOrder(t) == PostOrder(t);
    RestReady(k, k1, p, ts);
  }

  lemma {:induction false} FirstReady(k: K, p: PcbId, ts: seq<Tree>)
    requires ts != [] && Doomed(k, Posts(ts)) && TreesAt(k, p, ts) && p !in Posts(ts)
    requires PChild(p) in k.rings && k.Q(PChild(p)) == Sibs(ts)
    ensures var k0 := k.Take(PChild(p), PSib(ts[0].root));
            && Gone(k, k0, [], Some(p)) && k0.Q(PChild(p)) == Sibs(ts[1..])
            && Without(Sibs(ts[1..]), PSib(ts[0].root)) == Sibs(ts[1..])
            && Doomed(k0, PostOrder(ts[0])) && TreeAt(k0, ts[0]) && p !in PostOrder(ts[0])
            && k0.pcbs[ts[0].root].parent == Some(p) && PChild(p) in k0.rings
  {
    var k0 := k.Take(PChild(p), PSib(ts[0].root));
    TakeSibGone(k, p, ts[0], ts[1..]);
    PostsSplit(ts);
    StillDoomed(k, k0, [], PostOrder(ts[0]), Some(p));
    TreeFrame(k, k0, ts[0]);
  }

  lemma {:induction false} RestReady(k: K, k1: K, p: PcbId, ts: seq<Tree>)
    requires ts != [] && Doomed(k, Posts(ts)) && TreesAt(k, p, ts) && p !in Posts(ts)
    requires Gone(k, k1, PostOrder(ts[0]), Some(p))
    ensures Doomed(k1, Posts(ts[1..])) && TreesAt(k1, p, ts[1..]) && p !in Posts(ts[1..])
  {
    PostsSplit(ts);
    StillDoomed(k, k1, PostOrder(ts[0]), Posts(ts[1..]), Some(p));
    TreesFrame(k, k1, p, ts[1..]);
  }

  lemma {:induction false} PostsSplit(ts: seq<Tree>)
    requires ts != [] && NoDup(Posts(ts))
    ensures NoDup(PostOrder(ts[0])) && NoDup(Posts(ts[1..]))
    ensures forall x | x in Posts(ts[1..]) :: x in Posts(ts) && x !in PostOrder(ts[0])
    ensures forall x | x in PostOrder(ts[0]) :: x in Posts(ts)
  {
    var a, b := PostOrder(ts[0]), Posts(ts[1..]);
    assert forall i | 0 <= i < |a| :: Posts(ts)[i] == a[i];
    assert forall i | 0 <= i < |b| :: Posts(ts)[|a| + i] == b[i];
  }

  /** removeChild, and then outChild on the same child, leave the later siblings. */
  lemma {:induction false} TakeSibGone(k: K, p: PcbId, t: Tree, rest: seq<Tree>)
    requires Shape(k.rings) && PChild(p) in k.rings && k.Q(PChild(p)) == [PSib(t.root)] + Sibs(rest)
    ensures var k0 := k.Take(PChild(p), PSib(t.root));
            && Gone(k, k0, [], Some(p)) && k0.Q(PChild(p)) == Sibs(rest)
            && Without(Sibs(rest), PSib(t.root)) == Sibs(rest)
  {
    var x, k0 := PSib(t.root), k.Take(PChild(p), PSib(t.root));
    FirstSibTaken(k.rings[PChild(p)], x, Sibs(rest));
    Listx.DeleteShape(k.rings, PChild(p), x);
    forall q: Queue ensures Survivors(k.Q(Head(q)), []) == k.Q(Head(q)) { SurvivorsNone(k.Q(Head(q)), []); }
    NothingGone(k, k0, Some(p));
  }

  lemma FirstSibTaken(s: seq<Addr>, x: Addr, rest: seq<Addr>)
    requires NoDup(s) && s == [x] + rest
    ensures x in s && Without(s, x) == rest == Without(rest, x)
  {
    assert s[1..] == rest;
    WithoutMembers(s, x);
    WithoutAbsent(rest, x);
  }

  lemma NothingGone(k: K, k0: K, exempt: Option<PcbId>)
    requires k0 == k.(rings := k0.rings) && k0.rings.Keys == k.rings.Keys && Shape(k0.rings)
    requires forall q: Queue :: Survivors(k.Q(Head(q)), []) == k.Q(Head(q))
    requires forall h: Addr | !(h.PChild? && Some(h.pcb) == exempt) :: k0.Q(h) == k.Q(h)
    ensures Gone(k, k0, [], exempt)
  {
    NothingCounted(k, k0);
  }

  lemma NothingCounted(k: K, k0: K)
    requires k0 == k.(rings := k0.rings) && k0.rings.Keys == k.rings.Keys && Shape(k0.rings)
    requires forall h: Addr | !h.PChild? :: k0.Q(h) == k.Q(h)
    ensures GoneCounted(k, k0, [])
  {
    SameTotal(k, k0);
  }

  // ---------- what the recursion carries along ----------

  /** Everything a call on the subtree t needs. (An equation, hence one proof obligation where it is used.) */
  ghost predicate Killing(k: K, t: Tree) {
    true == (
      && Doomed(k, PostOrder(t)) && TreeAt(k, t) && DevicesKnown(k)
      && (k.pcbs[t.root].parent.Some? ==>
            k.pcbs[t.root].parent.value !in PostOrder(t) && PChild(k.pcbs[t.root].parent.value) in k.rings))
  }

  /** Everything the loop needs while the children ts of p are left. */
  ghost predicate Remaining(k: K, p: PcbId, ts: seq<Tree>) {
    true == (
      && Doomed(k, Posts(ts)) && TreesAt(k, p, ts) && p !in Posts(ts) && DevicesKnown(k)
      && PChild(p) in k.rings && k.Q(PChild(p)) == Sibs(ts))
  }

  ghost predicate DevicesKnown(k: K) {
    forall p: PcbId :: 0 <= k.pcbs[p].dev < 8
  }

  lemma {:induction false} KillingStarts(k: K, t: Tree)
    requires Killing(k, t)
    ensures Remaining(k, t.root, t.kids) && PChild(t.root) in k.rings
    ensures t.root in PostOrder(t) && |Posts(t.kids)| < |PostOrder(t)|
            && forall x | x in Posts(t.kids) :: x in PostOrder(t)
  {
    var ps := Posts(t.kids);
    assert PostOrder(t)[|ps|] == t.root && forall i | 0 <= i < |ps| :: PostOrder(t)[i] == ps[i];
  }

  lemma {:induction false} RemainingFirst(k: K, p: PcbId, ts: seq<Tree>)
    requires Remaining(k, p, ts) && ts != []
    ensures k.Q(PChild(p)) == [PSib(ts[0].root)] + Sibs(ts[1..]) && PChild(p) in k.rings
    ensures var k0 := k.Take(PChild(p), PSib(ts[0].root));
            Killing(k0, ts[0]) && k0.pcbs[ts[0].root].parent == Some(p) && k0.Q(PChild(p)) == Sibs(ts[1..])
    ensures |PostOrder(ts[0])| <= |Posts(ts)| && forall x | x in PostOrder(ts[0]) :: x in Posts(ts)
  {
    FirstReady(k, p, ts);
    PostsSplit(ts);
  }

  lemma {:induction false} RemainingRest(k: K, p: PcbId, ts: seq<Tree>)
    requires Remaining(k, p, ts) && ts != []
    ensures var k1 := KillTree(k.Take(PChild(p), PSib(ts[0].root)), ts[0]);
            && Remaining(k1, p, ts[1..]) && k1.pcbs[p] == k.pcbs[p] && PChild(p) in k1.rings
            && (forall h: PcbId | h != p && h !in Posts(ts) :: k1.Q(PChild(h)) == k.Q(PChild(h)))
            && k1.rings.Keys == k.rings.Keys
    ensures |Posts(ts[1..])| <= |Posts(ts)| && forall x | x in Posts(ts[1..]) :: x in Posts(ts)
  {
    FirstKilled(k, p, ts);
    PostsSplit(ts);
    RestRemains(k, KillTree(k.Take(PChild(p), PSib(ts[0].root)), ts[0]), p, ts);
  }

  lemma {:induction false} RestRemains(k: K, k1: K, p: PcbId, ts: seq<Tree>)
    requires Remaining(k, p, ts) && ts != [] && Gone(k, k1, PostOrder(ts[0]), Some(p))
             && k1.Q(PChild(p)) == Sibs(ts[1..])
    requires Doomed(k1, Posts(ts[1..])) && TreesAt(k1, p, ts[1..]) && p !in Posts(ts[1..])
    requires forall x | x in PostOrder(ts[0]) :: x in Posts(ts)
    ensures Remaining(k1, p, ts[1..]) && k1.pcbs[p] == k.pcbs[p] && PChild(p) in k1.rings
            && k1.rings.Keys == k.rings.Keys
    ensures forall h: PcbId | h != p && h !in Posts(ts) :: k1.Q(PChild(h)) == k.Q(PChild(h))
  {
  }

  lemma {:induction false} KillingEnds(k: K, t: Tree)
    requires Killing(k, t)
    ensures var k1 := KillAll(k, t.root, t.kids);
            Doomed(k1, [t.root]) && k1.pcbs[t.root] == k.pcbs[t.root] && 0 <= k1.pcbs[t.root].dev < 8
  {
    KillingStarts(k, t);
    KillAllGone(k, t.root, t.kids);
    var ps := Posts(t.kids);
    assert PostOrder(t)[|ps|] == t.root && forall i | 0 <= i < |ps| :: PostOrder(t)[i] == ps[i];
    StillDoomed(k, KillAll(k, t.root, t.kids), ps, [t.root], Some(t.root));
  }
}
