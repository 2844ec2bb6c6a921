/** headers/listx.h: intrusive circular lists, relinked in place. */
module Listx {
  import opened Layout
  import opened Rings

  /** __list_add(x, p, n) on values. */
  function AddNext(next: Link, x: Addr, p: Addr, n: Addr): Link { next[x := n][p := x] }
  function AddPrev(prev: Link, x: Addr, p: Addr, n: Addr): Link { prev[n := x][x := p] }

  ghost predicate AllLinked(next: Link, prev: Link, rings: Heads)
    requires Total(next) && Total(prev)
  {
    forall h | h in rings :: Linked(next, prev, h, rings[h])
  }

  /** x is loose, yet its fields still point at two nodes of list h that are adjacent now:
      unlinking x a second time rewrites both neighbours with the values they already hold. */
  ghost predicate Bypassed(next: Link, prev: Link, rings: Heads, x: Addr, h: Addr)
    requires Total(next) && Total(prev)
  {
    && h in rings && Fits(h, x) && Loose(rings, x)
    && prev[x] in Around(h, rings[h]) && next[x] in Around(h, rings[h])
    && next[prev[x]] == next[x] && prev[next[x]] == prev[x]
  }

  /** Inserting x between positions k and k+1 of one walk threads x there. */
  lemma InsertLinked(next: Link, prev: Link, h: Addr, s: seq<Addr>, k: nat, x: Addr)
    requires Total(next) && Total(prev) && Linked(next, prev, h, s)
    requires NoDup(s) && h !in s && x !in s && x != h && k <= |s|
    ensures var c := Around(h, s);
            Total(AddNext(next, x, c[k], c[k+1])) && Total(AddPrev(prev, x, c[k], c[k+1])) &&
            Linked(AddNext(next, x, c[k], c[k+1]), AddPrev(prev, x, c[k], c[k+1]), h, Insert(s, k, x))
  {
    var c := Around(h, s);
    var d := Around(h, Insert(s, k, x));
    var next', prev' := AddNext(next, x, c[k], c[k+1]), AddPrev(prev, x, c[k], c[k+1]);
    forall i, j | 0 <= i && j == i + 1 && j < |d| ensures next'[d[i]] == d[j] && prev'[d[j]] == d[i] {
      assert d[i] == if i <= k then c[i] else if i == k + 1 then x else c[i-1];
      assert d[j] == if j <= k then c[j] else if j == k + 1 then x else c[j-1];
      if i < k {
        assert next[c[i]] == c[j] && prev[c[j]] == c[i];
      } else if i > k + 1 {
        assert next[c[i-1]] == c[j-1] && prev[c[j-1]] == c[i-1];
      }
    }
  }

  /** Bypassing position k unthreads that node and nothing else. */
  lemma DeleteLinked(next: Link, prev: Link, h: Addr, s: seq<Addr>, k: nat)
    requires Total(next) && Total(prev) && Linked(next, prev, h, s)
    requires NoDup(s) && h !in s && k < |s|
    ensures prev[s[k]] == Around(h, s)[k] && next[s[k]] == Around(h, s)[k+2]
    ensures Linked(next[prev[s[k]] := next[s[k]]], prev[next[s[k]] := prev[s[k]]], h, Delete(s, k))
    ensures prev[s[k]] in Around(h, Delete(s, k)) && next[s[k]] in Around(h, Delete(s, k))
  {
    var c := Around(h, s);
    var d := Around(h, Delete(s, k));
    assert c[k+1] == s[k];
    var p, n := c[k], c[k+2];
    assert next[c[k+1]] == n && prev[c[k+1]] == p;
    assert d[k] == p && d[k+1] == n;
    var next', prev' := next[p := n], prev[n := p];
    forall i, j | 0 <= i && j == i + 1 && j < |d| ensures next'[d[i]] == d[j] && prev'[d[j]] == d[i] {
      assert d[i] == if i <= k then c[i] else c[i+1];
      assert d[j] == if j <= k then c[j] else c[j+1];
      if i < k {
        assert next[c[i]] == c[j] && prev[c[j]] == c[i];
      } else if i > k {
        assert next[c[i+1]] == c[j+1] && prev[c[j+1]] == c[i+1];
      }
    }
  }

  /** The fields rewritten when list h becomes s: h itself, old nodes of h, or loose nodes. */
  ghost predicate Touches(rings: Heads, h: Addr, w: set<Addr>) {
    forall a | a in w :: a == h || a in On(rings, h) || (!a.IsHead() && Loose(rings, a))
  }

  ghost predicate SameOutside(next: Link, prev: Link, next': Link, prev': Link, w: set<Addr>)
    requires Total(next) && Total(prev) && Total(next') && Total(prev')
  {
    forall a: Addr | a !in w :: next'[a] == next[a] && prev'[a] == prev[a]
  }

  /** Such writes reach no other list. */
  lemma ElsewhereUntouched(rings: Heads, h: Addr, w: set<Addr>, g: Addr, a: Addr)
    requires Shape(rings) && h.IsHead() && Touches(rings, h, w)
    requires g in rings && g != h && a in Around(g, rings[g])
    ensures a !in w
  {
    if a != g {
      assert a in rings[g] && Fits(g, a);
    }
  }

  lemma OthersStayLinked(next: Link, prev: Link, next': Link, prev': Link,
                         rings: Heads, h: Addr, s: seq<Addr>, w: set<Addr>)
    requires Total(next) && Total(prev) && Total(next') && Total(prev')
    requires Shape(rings) && AllLinked(next, prev, rings) && h.IsHead()
    requires Touches(rings, h, w) && SameOutside(next, prev, next', prev', w)
    requires Linked(next', prev', h, s)
    ensures AllLinked(next', prev', rings[h := s])
  {
    forall g | g in rings && g != h ensures Linked(next', prev', g, rings[g]) {
      var c := Around(g, rings[g]);
      forall i, j | 0 <= i && j == i + 1 && j < |c| ensures next'[c[i]] == c[j] && prev'[c[j]] == c[i] {
        ElsewhereUntouched(rings, h, w, g, c[i]);
        ElsewhereUntouched(rings, h, w, g, c[j]);
      }
    }
  }

  lemma StaysBypassed(next: Link, prev: Link, next': Link, prev': Link,
                      rings: Heads, h: Addr, s: seq<Addr>, w: set<Addr>, x: Addr, g: Addr)
    requires Total(next) && Total(prev) && Total(next') && Total(prev')
    requires Shape(rings) && h.IsHead() && Touches(rings, h, w) && SameOutside(next, prev, next', prev', w)
    requires Bypassed(next, prev, rings, x, g) && g != h && x !in w && x !in s
    ensures Bypassed(next', prev', rings[h := s], x, g)
  {
    ElsewhereUntouched(rings, h, w, g, prev[x]);
    ElsewhereUntouched(rings, h, w, g, next[x]);
  }

  /** Stale nodes that survive a change of list h and of node x. */
  ghost function KeepStale(stale: map<Addr, Addr>, h: Addr, x: Addr): map<Addr, Addr> {
    map y | y in stale && stale[y] != h && y != x :: stale[y]
  }

  lemma InsertShape(rings: Heads, h: Addr, k: nat, x: Addr)
    requires Shape(rings) && h in rings && Fits(h, x) && Loose(rings, x) && k <= |rings[h]|
    ensures Shape(rings[h := Insert(rings[h], k, x)])
    ensures forall y :: y in Insert(rings[h], k, x) <==> y == x || y in rings[h]
  {
    var s := rings[h];
    var t := Insert(s, k, x);
    assert forall i | 0 <= i < |t| :: t[i] == if i < k then s[i] else if i == k then x else s[i-1];
    assert s == s[..k] + s[k..];
    assert NoDup(t);
  }

  lemma DeleteShape(rings: Heads, h: Addr, x: Addr)
    requires Shape(rings) && h in rings && x in rings[h]
    ensures Shape(rings[h := Without(rings[h], x)])
    ensures Loose(rings[h := Without(rings[h], x)], x)
    ensures forall y | y !in rings[h] && Loose(rings, y) :: Loose(rings[h := Without(rings[h], x)], y)
  {
    WithoutMembers(rings[h], x);
  }

  /** The fields thread exactly the lists of rings, and every stale node is still bypassed. */
  ghost predicate Sound(next: Link, prev: Link, rings: Heads, stale: map<Addr, Addr>) {
    && Total(next) && Total(prev) && Shape(rings) && AllLinked(next, prev, rings)
    && forall x | x in stale :: Bypassed(next, prev, rings, x, stale[x])
  }

  lemma AddSound(next: Link, prev: Link, rings: Heads, stale: map<Addr, Addr>, h: Addr, k: nat, x: Addr)
    requires Sound(next, prev, rings, stale) && h in rings && Fits(h, x) && Loose(rings, x) && k <= |rings[h]|
    ensures var c := Around(h, rings[h]);
            Sound(AddNext(next, x, c[k], c[k+1]), AddPrev(prev, x, c[k], c[k+1]),
                  rings[h := Insert(rings[h], k, x)], KeepStale(stale, h, x))
  {
    var s := Insert(rings[h], k, x);
    var p, n := Around(h, rings[h])[k], Around(h, rings[h])[k+1];
    var next', prev' := AddNext(next, x, p, n), AddPrev(prev, x, p, n);
    InsertLinked(next, prev, h, rings[h], k, x);
    InsertShape(rings, h, k, x);
    var w := {x, p, n};
    assert Touches(rings, h, w) by { assert !x.IsHead(); }
    assert SameOutside(next, prev, next', prev', w);
    OthersStayLinked(next, prev, next', prev', rings, h, s, w);
    StaleStayBypassed(next, prev, next', prev', rings, stale, h, s, w, x);
  }

  /** The stale nodes of other lists outlive a change of list h around x. */
  lemma StaleStayBypassed(next: Link, prev: Link, next': Link, prev': Link, rings: Heads, stale: map<Addr, Addr>,
                          h: Addr, s: seq<Addr>, w: set<Addr>, x: Addr)
    requires Sound(next, prev, rings, stale) && Total(next') && Total(prev') && h in rings && h.IsHead()
    requires Touches(rings, h, w) && SameOutside(next, prev, next', prev', w)
    requires forall a | a in w :: a in Around(h, rings[h]) || a == x
    requires forall y | y in s :: y in rings[h] || y == x
    ensures forall y | y in KeepStale(stale, h, x) :: Bypassed(next', prev', rings[h := s], y, stale[y])
  {
    forall y | y in KeepStale(stale, h, x) ensures Bypassed(next', prev', rings[h := s], y, stale[y]) {
      StaleAside(next, prev, rings, y, stale[y], h, w);
      StaysBypassed(next, prev, next', prev', rings, h, s, w, y, stale[y]);
    }
  }

  /** A stale node is none of the fields rewritten for another list. */
  lemma StaleAside(next: Link, prev: Link, rings: Heads, y: Addr, g: Addr, h: Addr, w: set<Addr>)
    requires Total(next) && Total(prev) && Bypassed(next, prev, rings, y, g) && h in rings && h.IsHead()
    requires forall a | a in w :: a in Around(h, rings[h]) || a != y
    ensures y !in w && y !in rings[h]
  {
  }

  /** The deleted node still points at its old neighbours, which are adjacent now. */
  lemma DeletedIsBypassed(next: Link, prev: Link, rings: Heads, h: Addr, k: nat)
    requires Total(next) && Total(prev) && Shape(rings) && h in rings && k < |rings[h]|
             && Linked(next, prev, h, rings[h])
    ensures var x, s := rings[h][k], Delete(rings[h], k);
            var next', prev' := next[prev[x] := next[x]], prev[next[x] := prev[x]];
            && s == Without(rings[h], x) && Linked(next', prev', h, s) && Bypassed(next', prev', rings[h := s], x, h)
            && Touches(rings, h, {prev[x], next[x]})
  {
    var x, s := rings[h][k], Delete(rings[h], k);
    HeadIsNoNode(rings, h);
    WithoutIsDelete(rings[h], k);
    WithoutMembers(rings[h], x);
    DeleteLinked(next, prev, h, rings[h], k);
    DeleteShape(rings, h, x);
    assert Fits(h, x) && x !in Around(h, s);
    assert forall a | a in Around(h, s) :: a == h || a in rings[h];
  }

  lemma DeleteSound(next: Link, prev: Link, rings: Heads, stale: map<Addr, Addr>, h: Addr, x: Addr)
    requires Sound(next, prev, rings, stale) && h in rings && x in rings[h]
    ensures Sound(next[prev[x] := next[x]], prev[next[x] := prev[x]],
                  rings[h := Without(rings[h], x)], KeepStale(stale, h, x)[x := h])
  {
    var k :| 0 <= k < |rings[h]| && rings[h][k] == x;
    var s, w := Delete(rings[h], k), {prev[x], next[x]};
    var next', prev' := next[prev[x] := next[x]], prev[next[x] := prev[x]];
    DeletedIsBypassed(next, prev, rings, h, k);
    DeleteShape(rings, h, x);
    OthersStayLinked(next, prev, next', prev', rings, h, s, w);
    WithoutMembers(rings[h], x);
    StaleStayBypassed(next, prev, next', prev', rings, stale, h, s, w, x);
  }

  lemma InitHeadSound(next: Link, prev: Link, rings: Heads, stale: map<Addr, Addr>, h: Addr)
    requires Sound(next, prev, rings, stale) && h.IsHead()
    ensures Sound(next[h := h], prev[h := h], rings[h := []], KeepStale(stale, h, h))
  {
    var n, p := next[h := h], prev[h := h];
    assert Linked(n, p, h, []) by { assert Around(h, []) == [h, h]; }
    OthersStayLinked(next, prev, n, p, rings, h, [], {h});
    forall x | x in KeepStale(stale, h, h) ensures Bypassed(n, p, rings[h := []], x, stale[x]) {
      StaysBypassed(next, prev, n, p, rings, h, [], {h}, x, stale[x]);
    }
  }

  lemma InitNodeSound(next: Link, prev: Link, rings: Heads, stale: map<Addr, Addr>, x: Addr)
    requires Sound(next, prev, rings, stale) && !x.IsHead() && Loose(rings, x)
    ensures Sound(next[x := x], prev[x := x], rings, map y | y in stale && y != x :: stale[y])
  {
    var n, p := next[x := x], prev[x := x];
    forall h | h in rings ensures Linked(n, p, h, rings[h]) {
      assert x !in Around(h, rings[h]);
      LinkedAside(next, prev, h, rings[h], x);
    }
    forall y | y in stale && y != x ensures Bypassed(n, p, rings, y, stale[y]) {
      BypassedAside(next, prev, rings, y, stale[y], x);
    }
  }

  lemma BypassedAside(next: Link, prev: Link, rings: Heads, y: Addr, h: Addr, x: Addr)
    requires Total(next) && Total(prev) && Bypassed(next, prev, rings, y, h)
    requires y != x && !x.IsHead() && Loose(rings, x)
    ensures Bypassed(next[x := x], prev[x := x], rings, y, h)
  {
    assert x !in Around(h, rings[h]);
  }

  lemma LinkedAside(next: Link, prev: Link, h: Addr, s: seq<Addr>, x: Addr)
    requires Total(next) && Total(prev) && Linked(next, prev, h, s) && x !in Around(h, s)
    ensures Linked(next[x := x], prev[x := x], h, s)
  {
  }

  /** The links before any list exists; static storage holds no pointers that are ever followed. */
  function SelfLinks(): Link {
    MsgLinks(MAXMESSAGES, PcbLinks(MAXPROC, HeadLinks()))
  }

  function HeadLinks(): Link {
    map[PcbFree := PcbFree, MsgFree := MsgFree,
        Head(Ready) := Head(Ready), Head(Disk) := Head(Disk), Head(Flash) := Head(Flash),
        Head(Ethernet) := Head(Ethernet), Head(Printer) := Head(Printer), Head(TermTransm) := Head(TermTransm),
        Head(TermRecv) := Head(TermRecv), Head(PseudoClock) := Head(PseudoClock)]
  }

  function PcbLinks(n: nat, m: Link): Link
    requires n <= MAXPROC
  {
    if n == 0 then m
    else PcbLinks(n - 1, m[PChild(n-1) := PChild(n-1)][Inbox(n-1) := Inbox(n-1)]
                          [PList(n-1) := PList(n-1)][PSib(n-1) := PSib(n-1)])
  }

  function MsgLinks(n: nat, m: Link): Link
    requires n <= MAXMESSAGES
  {
    if n == 0 then m else MsgLinks(n - 1, m[MList(n-1) := MList(n-1)])
  }

  lemma {:induction false} PcbLinksHave(n: nat, m: Link, a: Addr)
    requires n <= MAXPROC
    ensures a in m ==> a in PcbLinks(n, m)
    ensures (a.PChild? || a.Inbox? || a.PList? || a.PSib?) && a.pcb < n ==> a in PcbLinks(n, m)
  {
    if n > 0 {
      PcbLinksHave(n - 1, m[PChild(n-1) := PChild(n-1)][Inbox(n-1) := Inbox(n-1)]
                           [PList(n-1) := PList(n-1)][PSib(n-1) := PSib(n-1)], a);
    }
  }

  lemma {:induction false} MsgLinksHave(n: nat, m: Link, a: Addr)
    requires n <= MAXMESSAGES
    ensures a in m ==> a in MsgLinks(n, m)
    ensures a.MList? && a.msg < n ==> a in MsgLinks(n, m)
  {
    if n > 0 {
      MsgLinksHave(n - 1, m[MList(n-1) := MList(n-1)], a);
    }
  }

  lemma HeadLinksHave(a: Addr)
    ensures a.PcbFree? || a.MsgFree? || a.Head? ==> a in HeadLinks()
  {
    if a.Head? {
      match a.queue { case Ready => case Disk => case Flash => case Ethernet => case Printer =>
                      case TermTransm => case TermRecv => case PseudoClock => }
    }
  }

  lemma SelfLinksTotal()
    ensures Total(SelfLinks())
  {
    forall a: Addr ensures a in SelfLinks() {
      HeadLinksHave(a);
      PcbLinksHave(MAXPROC, HeadLinks(), a);
      MsgLinksHave(MAXMESSAGES, PcbLinks(MAXPROC, HeadLinks()), a);
    }
  }

  lemma EmptyPoolsSound(m: Link)
    requires Total(m)
    ensures var n := m[PcbFree := PcbFree][MsgFree := MsgFree]; Sound(n, n, map[PcbFree := [], MsgFree := []], map[])
  {
    var n := m[PcbFree := PcbFree][MsgFree := MsgFree];
    var rings: Heads := map[PcbFree := [], MsgFree := []];
    assert forall h | h in rings :: rings[h] == [] && (h == PcbFree || h == MsgFree);
    assert Total(n);
    forall h | h in rings ensures Linked(n, n, h, rings[h]) {
      assert Around(h, []) == [h, h];
    }
  }

  class Links {
    var next: Link
    var prev: Link
    ghost var rings: Heads             // contents of every initialised list
    ghost var stale: map<Addr, Addr>   // loose node -> list its fields still straddle

    ghost predicate Valid()
      reads this
    {
      Sound(next, prev, rings, stale)
    }

    /** LIST_HEAD for the two pools; no other list exists yet. */
    constructor ()
      ensures Valid() && rings == map[PcbFree := [], MsgFree := []] && stale == map[]
    {
      SelfLinksTotal();
      EmptyPoolsSound(SelfLinks());
      next := SelfLinks()[PcbFree := PcbFree][MsgFree := MsgFree];
      prev := SelfLinks()[PcbFree := PcbFree][MsgFree := MsgFree];
      rings := map[PcbFree := [], MsgFree := []];
      stale := map[];
    }

    /** INIT_LIST_HEAD on a list head: the list becomes empty, its former nodes loose. */
    method InitListHead(h: Addr)
      requires Valid() && h.IsHead()
      modifies this
      ensures Valid() && rings == old(rings)[h := []]
      ensures stale == KeepStale(old(stale), h, h)
    {
      InitHeadSound(next, prev, rings, stale, h);
      next := next[h := h];
      prev := prev[h := h];
      rings := rings[h := []];
      stale := KeepStale(stale, h, h);
    }

    /** INIT_LIST_HEAD on a loose node: no list changes. */
    method InitNode(x: Addr)
      requires Valid() && !x.IsHead() && Loose(rings, x)
      modifies this
      ensures Valid() && rings == old(rings)
      ensures stale == map y | y in old(stale) && y != x :: old(stale)[y]
    {
      InitNodeSound(next, prev, rings, stale, x);
      next := next[x := x];
      prev := prev[x := x];
      stale := map y | y in stale && y != x :: stale[y];
    }

    /** __list_add(x, p, n), where p and n are positions k and k+1 of one walk around h. */
    method AddBetween(x: Addr, p: Addr, n: Addr, ghost h: Addr, ghost k: nat)
      requires Valid() && h in rings && Fits(h, x) && Loose(rings, x)
      requires k <= |rings[h]| && p == Around(h, rings[h])[k] && n == Around(h, rings[h])[k+1]
      modifies this
      ensures Valid() && rings == old(rings)[h := Insert(old(rings)[h], k, x)]
      ensures stale == KeepStale(old(stale), h, x)
    {
      AddSound(next, prev, rings, stale, h, k, x);
      prev := prev[n := x];
      next := next[x := n];
      prev := prev[x := p];
      next := next[p := x];
      rings := rings[h := Insert(rings[h], k, x)];
      stale := KeepStale(stale, h, x);
    }

    /** list_add: x becomes the first node of h. */
    method ListAdd(x: Addr, h: Addr)
      requires Valid() && h in rings && Fits(h, x) && Loose(rings, x)
      modifies this
      ensures Valid() && rings == old(rings)[h := [x] + old(rings)[h]]
      ensures stale == KeepStale(old(stale), h, x)
    {
      assert next[Around(h, rings[h])[0]] == Around(h, rings[h])[1];
      assert Insert(rings[h], 0, x) == [x] + rings[h];
      AddBetween(x, h, next[h], h, 0);
    }

    /** list_add_tail: x becomes the last node of h. */
    method ListAddTail(x: Addr, h: Addr)
      requires Valid() && h in rings && Fits(h, x) && Loose(rings, x)
      modifies this
      ensures Valid() && rings == old(rings)[h := old(rings)[h] + [x]]
      ensures stale == KeepStale(old(stale), h, x)
    {
      ghost var k := |rings[h]|;
      assert prev[Around(h, rings[h])[k+1]] == Around(h, rings[h])[k];
      assert Insert(rings[h], k, x) == rings[h] + [x];
      AddBetween(x, prev[h], h, h, k);
    }

    /** list_del. A node threaded on h leaves it, its own fields staying as they were; a node that was
        unlinked before, and whose old neighbours are still adjacent, is unlinked again to no effect. */
    method ListDel(x: Addr, ghost h: Addr)
      requires Valid() && h in rings && (x in rings[h] || x in stale)
      modifies this
      ensures Valid() && Loose(rings, x)
      ensures x in old(stale) ==>
                rings == old(rings) && stale == old(stale) && next == old(next) && prev == old(prev)
      ensures x in old(rings)[h] ==>
                && rings == old(rings)[h := Without(old(rings)[h], x)]
                && stale == KeepStale(old(stale), h, x)[x := h]
    {
      if x in rings[h] {
        DeleteSound(next, prev, rings, stale, h, x);
        DeleteShape(rings, h, x);
      }
      Unlink(prev[x], next[x]);
      if x in rings[h] {
        rings := rings[h := Without(rings[h], x)];
        stale := KeepStale(stale, h, x)[x := h];
      } else {
        assert next == old(next) && prev == old(prev);
      }
    }

    /** __list_del(p, n). */
    method Unlink(p: Addr, n: Addr)
      requires Total(next) && Total(prev)
      modifies this`next, this`prev
      ensures next == old(next)[p := n] && prev == old(prev)[n := p]
    {
      prev := prev[n := p];
      next := next[p := n];
    }

    /** list_empty. */
    method ListEmpty(h: Addr) returns (r: bool)
      requires Valid() && h in rings
      ensures r <==> rings[h] == []
    {
      assert next[Around(h, rings[h])[0]] == Around(h, rings[h])[1];
      if rings[h] != [] { assert Fits(h, rings[h][0]); }
      r := next[h] == h;
    }

    lemma StaleFits(x: Addr)
      requires Valid()
      ensures x in stale ==> Fits(stale[x], x)
    {
    }

    lemma StaleIsLoose(x: Addr, h: Addr)
      requires Valid() && x in stale && h in rings
      ensures x !in rings[h] && rings[h := Without(rings[h], x)] == rings
    {
      assert Bypassed(next, prev, rings, x, stale[x]);
      WithoutAbsent(rings[h], x);
    }

    /** One step of list_for_each. */
    lemma WalkStep(h: Addr, i: nat)
      requires Valid() && h in rings && i <= |rings[h]|
      ensures next[Around(h, rings[h])[i]] == Around(h, rings[h])[i+1]
    {
    }

    /** The first node of a nonempty list. */
    method First(h: Addr) returns (x: Addr)
      requires Valid() && h in rings && rings[h] != []
      ensures x == rings[h][0] && Fits(h, x)
    {
      assert next[Around(h, rings[h])[0]] == Around(h, rings[h])[1];
      x := next[h];
    }
  }
}
