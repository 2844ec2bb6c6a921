/** The subtree of a live process in a reachable state, and the invariant after killing it. */
module Subtrees {
  import opened Layout
  import opened Rings
  import opened Kernel
  import opened Invariant
  import opened Terminate
  import Devices

  ghost predicate Forest(k: K) {
    ListsOk(k) && PidsOk(k) && TreeOk(k)
  }

  /** Children are younger, so the descent ends. */
  function Build(k: K, p: PcbId): Tree
    requires Forest(k) && k.Live(p)
    decreases k.nextPid - k.pcbs[p].pid, |k.Q(PChild(p))| + 1
  {
    Node(p, BuildAll(k, p, k.Q(PChild(p))))
  }

  function BuildAll(k: K, p: PcbId, s: seq<Addr>): seq<Tree>
    requires Forest(k) && k.Live(p) && forall x | x in s :: x in k.Q(PChild(p))
    decreases k.nextPid - k.pcbs[p].pid, |s|
  {
    if s == [] then [] else
      assert s[0] in s;
      SibFacts(k, p, s[0]);
      [Build(k, PcbOf(s[0]))] + BuildAll(k, p, s[1..])
  }

  lemma SibFacts(k: K, p: PcbId, x: Addr)
    requires Forest(k) && x in k.Q(PChild(p))
    ensures var c := PcbOf(x);
            x == PSib(c) && k.Live(c) && k.pcbs[c].parent == Some(p) && k.pcbs[p].pid < k.pcbs[c].pid < k.nextPid
  {
    assert Fits(PChild(p), x);
  }

  lemma {:induction false} BuildAt(k: K, p: PcbId)
    requires Forest(k) && k.Live(p)
    ensures TreeAt(k, Build(k, p))
    decreases k.nextPid - k.pcbs[p].pid, |k.Q(PChild(p))| + 1
  {
    BuildAllAt(k, p, k.Q(PChild(p)));
  }

  lemma {:induction false} OneMoreTree(k: K, p: PcbId, t: Tree, ts: seq<Tree>)
    requires TreeAt(k, t) && TreesAt(k, p, ts) && k.pcbs[t.root].parent == Some(p)
    ensures TreesAt(k, p, [t] + ts) && Sibs([t] + ts) == [PSib(t.root)] + Sibs(ts)
  {
    assert ([t] + ts)[1..] == ts;
  }

  lemma {:induction false} BuildAllAt(k: K, p: PcbId, s: seq<Addr>)
    requires Forest(k) && k.Live(p) && forall x | x in s :: x in k.Q(PChild(p))
    ensures TreesAt(k, p, BuildAll(k, p, s)) && Sibs(BuildAll(k, p, s)) == s
    decreases k.nextPid - k.pcbs[p].pid, |s|
  {
    if s != [] {
      var x, r := s[0], s[1..];
      assert s == [x] + r;
      SibFacts(k, p, x);
      BuildAt(k, PcbOf(x));
      BuildAllAt(k, p, r);
      OneMoreTree(k, p, Build(k, PcbOf(x)), BuildAll(k, p, r));
    }
  }

  /** a is x or an ancestor of x. */
  ghost predicate Under(k: K, a: PcbId, x: PcbId)
    decreases k.pcbs[x].pid
  {
    || x == a
    || (k.pcbs[x].parent.Some? && 0 <= k.pcbs[k.pcbs[x].parent.value].pid < k.pcbs[x].pid
        && Under(k, a, k.pcbs[x].parent.value))
  }

  lemma {:induction false} UnderIsOlder(k: K, a: PcbId, x: PcbId)
    requires Under(k, a, x)
    ensures k.pcbs[a].pid <= k.pcbs[x].pid
    decreases k.pcbs[x].pid
  {
    if x != a {
      UnderIsOlder(k, a, k.pcbs[x].parent.value);
    }
  }

  lemma {:induction false} UnderParent(k: K, p: PcbId, c: PcbId, x: PcbId)
    requires Under(k, c, x) && k.pcbs[c].parent == Some(p) && 0 <= k.pcbs[p].pid < k.pcbs[c].pid
    ensures Under(k, p, x)
    decreases k.pcbs[x].pid
  {
    if x != c {
      UnderParent(k, p, c, k.pcbs[x].parent.value);
    }
  }

  /** Two children of one parent have no common progeny. */
  lemma {:induction false} SiblingsApart(k: K, p: PcbId, c: PcbId, d: PcbId, x: PcbId)
    requires k.pcbs[c].parent == Some(p) == k.pcbs[d].parent && c != d
    requires k.pcbs[p].pid < k.pcbs[c].pid && k.pcbs[p].pid < k.pcbs[d].pid
    ensures !(Under(k, c, x) && Under(k, d, x))
    decreases k.pcbs[x].pid
  {
    if Under(k, c, x) && Under(k, d, x) {
      if x == c {
        UnderIsOlder(k, d, p);
      } else if x == d {
        UnderIsOlder(k, c, p);
      } else {
        SiblingsApart(k, p, c, d, k.pcbs[x].parent.value);
      }
    }
  }

  lemma {:induction false} BuildUnder(k: K, p: PcbId, x: PcbId)
    requires Forest(k) && k.Live(p) && x in PostOrder(Build(k, p))
    ensures Under(k, p, x) && k.Live(x)
    decreases k.nextPid - k.pcbs[p].pid, |k.Q(PChild(p))| + 1
  {
    if x != p {
      var c := BuildAllUnder(k, p, k.Q(PChild(p)), x);
      SibFacts(k, p, PSib(c));
      UnderParent(k, p, c, x);
    }
  }

  lemma {:induction false} BuildAllUnder(k: K, p: PcbId, s: seq<Addr>, x: PcbId) returns (c: PcbId)
    requires Forest(k) && k.Live(p) && (forall y | y in s :: y in k.Q(PChild(p)))
    requires x in Posts(BuildAll(k, p, s))
    ensures PSib(c) in s && Under(k, c, x) && k.Live(x)
    decreases k.nextPid - k.pcbs[p].pid, |s|
  {
    assert s[0] in s;
    SibFacts(k, p, s[0]);
    c := PcbOf(s[0]);
    if x in PostOrder(Build(k, c)) {
      BuildUnder(k, c, x);
    } else {
      c := BuildAllUnder(k, p, s[1..], x);
    }
  }

  lemma NoDupConcat<T>(a: seq<T>, b: seq<T>)
    requires NoDup(a) && NoDup(b) && forall x | x in a :: x !in b
    ensures NoDup(a + b)
  {
    forall i, j | 0 <= i < j < |a + b| ensures (a + b)[i] != (a + b)[j] {
      if i < |a| <= j {
        assert a[i] in a && b[j - |a|] in b;
      }
    }
  }

  lemma {:induction false} BuildNoDup(k: K, p: PcbId)
    requires Forest(k) && k.Live(p)
    ensures NoDup(PostOrder(Build(k, p)))
    decreases k.nextPid - k.pcbs[p].pid, |k.Q(PChild(p))| + 1
  {
    var s := k.Q(PChild(p));
    BuildAllNoDup(k, p, s);
    if p in Posts(BuildAll(k, p, s)) {
      var c := BuildAllUnder(k, p, s, p);
      SibFacts(k, p, PSib(c));
      UnderIsOlder(k, c, p);
      assert false;
    }
    NoDupConcat(Posts(BuildAll(k, p, s)), [p]);
  }

  lemma {:induction false} BuildAllNoDup(k: K, p: PcbId, s: seq<Addr>)
    requires Forest(k) && k.Live(p) && NoDup(s) && (forall x | x in s :: x in k.Q(PChild(p)))
    ensures NoDup(Posts(BuildAll(k, p, s)))
    decreases k.nextPid - k.pcbs[p].pid, |s|
  {
    if s != [] {
      assert s[0] in s && s[0] !in s[1..];
      SibFacts(k, p, s[0]);
      var c := PcbOf(s[0]);
      BuildNoDup(k, c);
      BuildAllNoDup(k, p, s[1..]);
      forall x | x in PostOrder(Build(k, c)) ensures x !in Posts(BuildAll(k, p, s[1..])) {
        BuildUnder(k, c, x);
        if x in Posts(BuildAll(k, p, s[1..])) {
          var d := BuildAllUnder(k, p, s[1..], x);
          SibFacts(k, p, PSib(d));
          SiblingsApart(k, p, c, d, x);
          assert false;
        }
      }
      NoDupConcat(PostOrder(Build(k, c)), Posts(BuildAll(k, p, s[1..])));
    }
  }

  // ---------- closure ----------

  lemma {:induction false} SibsMember(ts: seq<Tree>, c: PcbId)
    requires PSib(c) in Sibs(ts)
    ensures c in Posts(ts)
  {
    if ts[0].root == c {
      assert c in PostOrder(ts[0]);
    } else {
      SibsMember(ts[1..], c);
    }
  }

  /** Every child of a member is a member. */
  lemma {:induction false} TreeClosed(k: K, t: Tree, x: PcbId, c: PcbId)
    requires TreeAt(k, t) && x in PostOrder(t) && PSib(c) in k.Q(PChild(x))
    ensures c in PostOrder(t)
    decreases t
  {
    if x == t.root {
      SibsMember(t.kids, c);
    } else {
      TreesClosed(k, t.root, t.kids, x, c);
    }
  }

  lemma {:induction false} TreesClosed(k: K, p: PcbId, ts: seq<Tree>, x: PcbId, c: PcbId)
    requires TreesAt(k, p, ts) && x in Posts(ts) && PSib(c) in k.Q(PChild(x))
    ensures c in Posts(ts)
    decreases ts
  {
    if x in PostOrder(ts[0]) {
      TreeClosed(k, ts[0], x, c);
    } else {
      TreesClosed(k, p, ts[1..], x, c);
    }
  }

  /** Every member but the root has its parent in the tree. */
  lemma {:induction false} TreeHasParents(k: K, t: Tree, x: PcbId)
    requires TreeAt(k, t) && x in PostOrder(t) && x != t.root
    ensures k.pcbs[x].parent.Some? && k.pcbs[x].parent.value in PostOrder(t)
    decreases t
  {
    TreesHaveParents(k, t.root, t.kids, x);
  }

  lemma {:induction false} TreesHaveParents(k: K, p: PcbId, ts: seq<Tree>, x: PcbId)
    requires TreesAt(k, p, ts) && x in Posts(ts)
    ensures k.pcbs[x].parent.Some? && (k.pcbs[x].parent.value == p || k.pcbs[x].parent.value in Posts(ts))
    decreases ts
  {
    if x in PostOrder(ts[0]) {
      if x != ts[0].root {
        TreeHasParents(k, ts[0], x);
      }
    } else {
      TreesHaveParents(k, p, ts[1..], x);
    }
  }

  /** Children are freed before their parents: the root is the last, and everybody else comes before its parent. */
  lemma {:induction false} ParentsComeLater(k: K, t: Tree, i: nat) returns (j: nat)
    requires TreeAt(k, t) && i < |PostOrder(t)| - 1
    ensures PostOrder(t)[|PostOrder(t)|-1] == t.root
    ensures i < j < |PostOrder(t)| && k.pcbs[PostOrder(t)[i]].parent == Some(PostOrder(t)[j])
    decreases t
  {
    var l := TreesLater(k, t.root, t.kids, i);
    j := if l == None then |Posts(t.kids)| else l.value;
  }

  lemma {:induction false} TreesLater(k: K, p: PcbId, ts: seq<Tree>, i: nat) returns (j: Option<nat>)
    requires TreesAt(k, p, ts) && i < |Posts(ts)|
    ensures j == None ==> k.pcbs[Posts(ts)[i]].parent == Some(p)
    ensures j.Some? ==> i < j.value < |Posts(ts)| && k.pcbs[Posts(ts)[i]].parent == Some(Posts(ts)[j.value])
    decreases ts
  {
    var first := PostOrder(ts[0]);
    if i < |first| - 1 {
      var l := ParentsComeLater(k, ts[0], i);
      j := Some(l);
    } else if i < |first| {
      j := None;
    } else {
      j := TreesLater(k, p, ts[1..], i - |first|);
      if j.Some? { j := Some(j.value + |first|); }
    }
  }

  // ---------- killing ----------

  /** The subtree of p, in the order in which it is freed. */
  function Progeny(k: K, p: PcbId): seq<PcbId>
    requires Forest(k) && k.Live(p)
  {
    PostOrder(Build(k, p))
  }

  /** terminateProcess(p). */
  function Kill(k: K, p: PcbId): K
    requires Forest(k) && k.Live(p)
  {
    KillTree(k, Build(k, p))
  }

  ghost predicate MayKill(k: K, p: PcbId) {
    Forest(k) && k.Live(p) && p != k.ssi && forall x | x in Progeny(k, p) :: Killable(k, x)
  }

  lemma KillDoomed(k: K, p: PcbId)
    requires MayKill(k, p)
    ensures Doomed(k, Progeny(k, p)) && TreeAt(k, Build(k, p))
    ensures k.pcbs[p].parent.Some? ==>
              k.pcbs[p].parent.value !in Progeny(k, p) && PChild(k.pcbs[p].parent.value) in k.rings
  {
    BuildAt(k, p);
    BuildNoDup(k, p);
    forall x | x in Progeny(k, p) ensures k.Live(x) && PChild(x) in k.rings {
      BuildUnder(k, p, x);
    }
    if k.pcbs[p].parent.Some? {
      var h := k.pcbs[p].parent.value;
      assert PSib(p) in k.Q(PChild(h));
      if h in Progeny(k, p) {
        BuildUnder(k, p, h);
        UnderIsOlder(k, p, h);
        assert false;
      }
    }
  }

  /** terminateProcess, in closed form, for every live process whose progeny is killable. */
  lemma KillGone(k: K, p: PcbId)
    requires MayKill(k, p)
    ensures var h := k.pcbs[p].parent;
            && Gone(k, Kill(k, p), Progeny(k, p), h)
            && (h.Some? ==> Kill(k, p).Q(PChild(h.value)) == Without(k.Q(PChild(h.value)), PSib(p)))
  {
    KillDoomed(k, p);
    KillTreeGone(k, Build(k, p));
  }

  /** The state the kernel goes on with: a killed process does not stay current. */
  function Dropped(k: K, dead: seq<PcbId>): K {
    if k.current.Some? && k.current.value in dead then k.(current := None) else k
  }

  lemma GoneLive(k: K, k2: K, dead: seq<PcbId>, e: Option<PcbId>, p: PcbId)
    requires Gone(k, k2, dead, e)
    ensures k2.Live(p) <==> k.Live(p) && p !in dead
  {
    NodesMembers(dead, p);
  }

  lemma KilledLists(k: K, k2: K, dead: seq<PcbId>, e: Option<PcbId>)
    requires ListsOk(k) && Gone(k, k2, dead, e)
    ensures ListsOk(Dropped(k2, dead))
  {
    forall p: PcbId ensures k2.Live(p) <==> k.Live(p) && p !in dead { GoneLive(k, k2, dead, e, p); }
    if Dropped(k2, dead).current.Some? {
      var c := k.current.value;
      GoneLive(k, k2, dead, e, c);
      forall q: Queue ensures PList(c) !in k2.Q(Head(q)) { SurvivorsMembers(k.Q(Head(q)), dead); }
      ProcessNodeLoose(k2, c);
    }
  }

  lemma {:induction false} NodesLength(ps: seq<PcbId>)
    ensures |Nodes(ps)| == |ps|
  {
    if ps != [] { NodesLength(ps[1..]); }
  }

  lemma KilledCounts(k: K, k2: K, dead: seq<PcbId>, e: Option<PcbId>)
    requires CountsOk(k) && Gone(k, k2, dead, e)
    ensures CountsOk(Dropped(k2, dead))
  {
    NodesLength(dead);
    assert Dropped(k2, dead).BlockedTotal() == k2.BlockedTotal();
  }

  lemma KilledPids(k: K, k2: K, dead: seq<PcbId>, e: Option<PcbId>)
    requires PidsOk(k) && Gone(k, k2, dead, e)
    ensures PidsOk(Dropped(k2, dead))
  {
    forall p: PcbId ensures k2.Live(p) ==> k.Live(p) { GoneLive(k, k2, dead, e, p); }
    GoneRows(k, k2, dead, e);
    SamePids(k, Dropped(k2, dead));
  }

  lemma GoneRows(k: K, k2: K, dead: seq<PcbId>, e: Option<PcbId>)
    requires Gone(k, k2, dead, e)
    ensures k2.nextPid == k.nextPid
    ensures forall p: PcbId :: k2.pcbs[p].pid == k.pcbs[p].pid && k2.pcbs[p].dev == k.pcbs[p].dev
  {
  }

  lemma SamePids(k: K, k2: K)
    requires PidsOk(k) && k2.nextPid == k.nextPid && forall p: PcbId :: k2.Live(p) ==> k.Live(p)
    requires forall p: PcbId :: k2.pcbs[p].pid == k.pcbs[p].pid && k2.pcbs[p].dev == k.pcbs[p].dev
    ensures PidsOk(k2)
  {
  }

  lemma KilledMail(k: K, k2: K, dead: seq<PcbId>, e: Option<PcbId>)
    requires MessagesOk(k) && WaitsOk(k) && Gone(k, k2, dead, e)
    ensures MessagesOk(Dropped(k2, dead)) && WaitsOk(Dropped(k2, dead))
  {
    var k3 := Dropped(k2, dead);
    assert forall p: PcbId :: k2.pcbs[p].pid == k.pcbs[p].pid && k2.pcbs[p].pending == k.pcbs[p].pending;
    MailKept(k, k3);
    forall p: PcbId | k3.AwaitsMessage(p) ensures k.AwaitsMessage(p) {
      GoneLive(k, k2, dead, e, p);
      forall q: Queue ensures PList(p) !in k.Q(Head(q)) {
        SurvivorsMembers(k.Q(Head(q)), dead);
        assert PList(p) !in k3.Q(Head(q));
      }
    }
    WaitsKept(k, k3);
  }

  lemma KilledTree(k: K, p: PcbId)
    requires MayKill(k, p)
    ensures TreeOk(Kill(k, p))
  {
    var k2, dead, e := Kill(k, p), Progeny(k, p), k.pcbs[p].parent;
    KillGone(k, p);
    BuildAt(k, p);
    forall x: PcbId ensures k2.Live(x) <==> k.Live(x) && x !in dead { GoneLive(k, k2, dead, e, x); }
    forall x: PcbId, c: PcbId | PSib(c) in k2.Q(PChild(x))
      ensures k2.Live(x) && k2.Live(c) && k2.pcbs[c].parent == Some(x) && k2.pcbs[x].pid < k2.pcbs[c].pid
    {
      KilledEdge(k, p, x, c);
    }
    forall c: PcbId | k2.pcbs[c].parent.Some? ensures PSib(c) in k2.Q(PChild(k2.pcbs[c].parent.value)) {
      KilledBackEdge(k, p, c);
    }
  }

  lemma KilledEdge(k: K, p: PcbId, x: PcbId, c: PcbId)
    requires MayKill(k, p) && PSib(c) in Kill(k, p).Q(PChild(x))
    ensures PSib(c) in k.Q(PChild(x)) && x !in Progeny(k, p) && c !in Progeny(k, p)
  {
    KillGone(k, p);
    KillDoomed(k, p);
    if k.pcbs[p].parent == Some(x) {
      WithoutMembers(k.rings[PChild(x)], PSib(p));
    }
    if c in Progeny(k, p) && c != p {
      TreeHasParents(k, Build(k, p), c);
    }
  }

  lemma KilledBackEdge(k: K, p: PcbId, c: PcbId)
    requires MayKill(k, p) && Kill(k, p).pcbs[c].parent.Some?
    ensures PSib(c) in Kill(k, p).Q(PChild(Kill(k, p).pcbs[c].parent.value))
  {
    KillGone(k, p);
    KillDoomed(k, p);
    var x := k.pcbs[c].parent.value;
    assert c !in Progeny(k, p) && PSib(c) in k.Q(PChild(x));
    if x in Progeny(k, p) {
      TreeClosed(k, Build(k, p), x, c);
    }
    if k.pcbs[p].parent == Some(x) {
      WithoutMembers(k.rings[PChild(x)], PSib(p));
      assert p in Progeny(k, p);
    }
  }

  lemma KilledSsi(k: K, p: PcbId)
    requires MayKill(k, p) && SsiOk(k)
    ensures SsiOk(Kill(k, p))
  {
    KillGone(k, p);
    BuildAt(k, p);
    if k.ssi in Progeny(k, p) {
      TreeHasParents(k, Build(k, p), k.ssi);
    }
    GoneLive(k, Kill(k, p), Progeny(k, p), k.pcbs[p].parent, k.ssi);
  }

  lemma KillKeeps(k: K, p: PcbId)
    requires Inv(k) && MayKill(k, p)
    ensures Inv(Dropped(Kill(k, p), Progeny(k, p)))
  {
    var k2, dead, e := Kill(k, p), Progeny(k, p), k.pcbs[p].parent;
    KillGone(k, p);
    KilledLists(k, k2, dead, e);
    KilledCounts(k, k2, dead, e);
    KilledPids(k, k2, dead, e);
    KilledMail(k, k2, dead, e);
    KilledTree(k, p);
    KilledSsi(k, p);
    DroppedForest(k2, dead);
  }

  lemma DroppedForest(k2: K, dead: seq<PcbId>)
    requires TreeOk(k2) && SsiOk(k2)
    ensures TreeOk(Dropped(k2, dead)) && SsiOk(Dropped(k2, dead))
  {
  }

  // ---------- killing what cannot be killed ----------

  /** x is on a queue that terminateProcess does not look at for it. */
  ghost predicate Stuck(k: K, x: PcbId, q: Queue) {
    PList(x) in k.Q(Head(q)) && q !in Tried(k.pcbs[x].dev)
  }

  lemma {:induction false} WithoutOther<T>(s: seq<T>, x: T, y: T)
    requires y in s && y != x
    ensures y in Without(s, x)
  {
    if s[0] != x && s[0] != y {
      WithoutOther(s[1..], x, y);
    }
  }

  lemma {:induction false} OutFirstLeaves(k: K, qs: seq<Queue>, y: PcbId, x: PcbId, q: Queue)
    requires PList(x) in k.Q(Head(q)) && (x == y ==> q !in qs)
    ensures var k1 := OutFirst(k, qs, y).0;
            PList(x) in k1.Q(Head(q)) && k1.pcbs == k.pcbs && k1.Q(PcbFree) == k.Q(PcbFree)
  {
    if qs != [] {
      assert qs[0] in qs;
      if PList(y) !in k.Q(Head(qs[0])) {
        OutFirstLeaves(k, qs[1..], y, x, q);
      } else if qs[0] == q {
        WithoutOther(k.Q(Head(q)), PList(y), PList(x));
      }
    }
  }

  /** Freeing y leaves x where it is, and puts y on the free list. */
  lemma KillOneStuck(k: K, y: PcbId, x: PcbId, q: Queue)
    requires Stuck(k, x, q)
    ensures Stuck(KillOne(k, y), x, q)
    ensures KillOne(k, y).Q(PcbFree) == k.Q(PcbFree) + [PList(y)]
  {
    OutFirstLeaves(k, Tried(k.pcbs[y].dev), y, x, q);
    OrphanRows(Unblock(k, y), y);
  }

  lemma {:induction false} OutFirstFrame(k: K, qs: seq<Queue>, y: PcbId)
    ensures var k1 := OutFirst(k, qs, y).0; k1.Q(PcbFree) == k.Q(PcbFree) && k1.ssi == k.ssi
  {
    if qs != [] && PList(y) !in k.Q(Head(qs[0])) { OutFirstFrame(k, qs[1..], y); }
  }

  /** Whatever y was doing, its PCB is appended to the free list. */
  lemma KillOneFrees(k: K, y: PcbId)
    ensures KillOne(k, y).Q(PcbFree) == k.Q(PcbFree) + [PList(y)] && KillOne(k, y).ssi == k.ssi
  {
    OutFirstFrame(k, Tried(k.pcbs[y].dev), y);
  }

  lemma {:induction false} KillTreeSsi(k: K, t: Tree)
    ensures KillTree(k, t).ssi == k.ssi
    decreases t
  {
    KillAllSsi(k, t.root, t.kids);
    KillOneFrees(KillAll(k, t.root, t.kids), t.root);
  }

  lemma {:induction false} KillAllSsi(k: K, p: PcbId, ts: seq<Tree>)
    ensures KillAll(k, p, ts).ssi == k.ssi
    decreases ts
  {
    if ts != [] {
      var k1 := k.Take(PChild(p), PSib(ts[0].root));
      KillTreeSsi(k1, ts[0]);
      KillAllSsi(KillTree(k1, ts[0]), p, ts[1..]);
    }
  }

  /** Without the SSI there is no kernel. */
  lemma SsiKillBreaks(k: K, p: PcbId)
    requires Forest(k) && k.Live(p) && p == k.ssi
    ensures !SsiOk(Dropped(Kill(k, p), Progeny(k, p)))
  {
    var t := Build(k, p);
    var k1 := KillAll(k, t.root, t.kids);
    KillTreeSsi(k, t);
    KillOneFrees(k1, t.root);
    assert Kill(k, p).Q(PcbFree)[|k1.Q(PcbFree)|] == PList(p);
  }

  /** A process that is dead already has no children; killing it frees its PCB a second time. */
  lemma DeadKillBreaks(k: K, p: PcbId)
    requires Inv(k) && !k.Live(p)
    ensures k.Q(PChild(p)) == [] && !ListsOk(KillTree(k, Node(p, [])))
  {
    ParentsAreAlive(k, p);
    FreedTwice(k, p);
  }

  lemma ParentsAreAlive(k: K, p: PcbId)
    requires ListsOk(k) && TreeOk(k)
    ensures k.Q(PChild(p)) != [] ==> k.Live(p)
  {
    if k.Q(PChild(p)) != [] {
      var x := k.Q(PChild(p))[0];
      assert x in k.Q(PChild(p)) && Fits(PChild(p), x);
      assert PSib(x.pcb) in k.Q(PChild(p));
    }
  }

  lemma FreedTwice(k: K, p: PcbId)
    requires !k.Live(p)
    ensures !ListsOk(KillTree(k, Node(p, [])))
  {
    var k2, none: seq<Tree> := KillTree(k, Node(p, [])), [];
    KillOneFrees(k, p);
    QueuedTwice(k.Q(PcbFree), PList(p));
    assert KillAll(k, p, none) == k && k2 == KillOne(k, p);
  }

  /** What a killed process is stuck on it stays on, while its row is freed. */
  ghost predicate FreedAndQueued(k: K, x: PcbId, q: Queue) {
    Stuck(k, x, q) && PList(x) in k.Q(PcbFree)
  }

  lemma {:induction false} KillTreeStuck(k: K, t: Tree, x: PcbId, q: Queue)
    requires Stuck(k, x, q)
    ensures Stuck(KillTree(k, t), x, q)
    ensures x in PostOrder(t) || PList(x) in k.Q(PcbFree) ==> FreedAndQueued(KillTree(k, t), x, q)
    decreases t
  {
    KillAllStuck(k, t.root, t.kids, x, q);
    KillOneStuck(KillAll(k, t.root, t.kids), t.root, x, q);
  }

  lemma {:induction false} KillAllStuck(k: K, p: PcbId, ts: seq<Tree>, x: PcbId, q: Queue)
    requires Stuck(k, x, q)
    ensures Stuck(KillAll(k, p, ts), x, q)
    ensures x in Posts(ts) || PList(x) in k.Q(PcbFree) ==> FreedAndQueued(KillAll(k, p, ts), x, q)
    decreases ts
  {
    if ts != [] {
      var k1 := k.Take(PChild(p), PSib(ts[0].root));
      KillTreeStuck(k1, ts[0], x, q);
      KillAllStuck(KillTree(k1, ts[0]), p, ts[1..], x, q);
    }
  }

  lemma UnkillableIsStuck(k: K, x: PcbId) returns (q: Queue)
    requires !Killable(k, x)
    ensures Stuck(k, x, q)
  {
    q :| PList(x) in k.Q(Head(q)) && !(q == PseudoClock || (q != Ready && Devices.QueueLine(q) == k.pcbs[x].dev));
  }

  /** The condition is exact: for a live process terminateProcess keeps the invariant exactly if it is not the SSI and
      every process killed is on no queue, waits for the clock, or is blocked on a device whose number is its line. */
  lemma KillKeepsIff(k: K, p: PcbId)
    requires Inv(k) && k.Live(p)
    ensures Inv(Dropped(Kill(k, p), Progeny(k, p))) <==> MayKill(k, p)
  {
    if MayKill(k, p) {
      KillKeeps(k, p);
    } else if p == k.ssi {
      SsiKillBreaks(k, p);
    } else {
      UnkillableBreaks(k, p);
    }
  }

  lemma UnkillableBreaks(k: K, p: PcbId)
    requires Forest(k) && k.Live(p) && p != k.ssi && !MayKill(k, p)
    ensures !ListsOk(Dropped(Kill(k, p), Progeny(k, p)))
  {
    var x :| x in Progeny(k, p) && !Killable(k, x);
    var q := UnkillableIsStuck(k, x);
    KillTreeStuck(k, Build(k, p), x, q);
    QueuedAndFree(Dropped(Kill(k, p), Progeny(k, p)), x, q);
  }

  lemma QueuedAndFree(k: K, x: PcbId, q: Queue)
    requires PList(x) in k.Q(Head(q)) && PList(x) in k.Q(PcbFree)
    ensures !ListsOk(k)
  {
  }
}
