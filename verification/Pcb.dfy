/** phase1/pcb.c: the PCB pool, process queues and the process tree. */
module PcbPool {
  import opened Layout
  import opened Rings
  import opened Listx

  /** What a receive is waiting for: ANYMESSAGE or one sender. */
  datatype Filter = Any | From(pcb: PcbId)

  /** The PCB fields the nucleus decides with. pending is the receive that the process issues when it runs next;
      None once its program counter has moved past it. saved is the receive at which the state p_s stands, where the
      process slept last; None as long as p_s is the state it was created with. */
  datatype Pcb = Pcb(parent: Option<PcbId>, pid: int, dev: int, pending: Option<Filter>, saved: Option<Filter>)

  type PcbRows = s: seq<Pcb> | |s| == MAXPROC witness seq(MAXPROC, _ => Pcb(None, 0, 0, None, None))

  /** Static storage. */
  function ZeroPcbs(): PcbRows {
    seq(MAXPROC, _ => Pcb(None, 0, 0, None, None))
  }

  /** Lists of processes linked through p_list. */
  predicate IsProcQ(h: Addr) {
    h.PcbFree? || h.Head?
  }

  function Row(p: nat): Addr
  {
    if p < MAXPROC then PList(p) else PcbFree
  }

  /** Distinct PCBs cannot outnumber the table: the pigeonhole behind the cut-off of searchProcQ. */
  lemma {:induction false} AtMostTheTable(s: seq<Addr>, n: nat)
    requires NoDup(s) && n <= MAXPROC
    requires forall x | x in s :: x.PList? && x.pcb < n
    ensures |s| <= n
    decreases n
  {
    if s != [] {
      assert s[0] in s;
      var t := Without(s, PList(n - 1));
      WithoutMembers(s, PList(n - 1));
      forall x | x in t ensures x.PList? && x.pcb < n - 1 {
        assert x in s;
      }
      AtMostTheTable(t, n - 1);
    }
  }

  class PcbTable {
    const links: Links
    var rows: PcbRows
    var nextPid: int

    ghost predicate Valid()
      reads this, links
    {
      links.Valid() && PcbFree in links.rings
    }

    constructor (links: Links)
      ensures this.links == links && nextPid == 1
      ensures rows == ZeroPcbs()
    {
      this.links := links;
      rows := ZeroPcbs();
      nextPid := 1;
    }

    /** initPcbs: the free list holds the whole table in table order. */
    method InitPcbs()
      requires Valid() && links.rings == map[PcbFree := [], MsgFree := []]
      modifies links
      ensures Valid()
      ensures links.rings == map[PcbFree := seq(MAXPROC, i requires 0 <= i < MAXPROC => PList(i)), MsgFree := []]
    {
      var i := MAXPROC - 1;
      while i >= 0
        invariant -1 <= i < MAXPROC && Valid()
        invariant links.rings.Keys == {PcbFree, MsgFree} && links.rings[MsgFree] == []
        invariant |links.rings[PcbFree]| == MAXPROC - 1 - i
        invariant forall j | 0 <= j < MAXPROC - 1 - i :: links.rings[PcbFree][j] == Row(i + 1 + j)
      {
        forall h | h in links.rings ensures PList(i) !in links.rings[h] {
          assert h == PcbFree || h == MsgFree;
        }
        links.ListAdd(PList(i), PcbFree);
        i := i - 1;
      }
      assert links.rings[PcbFree] == seq(MAXPROC, j requires 0 <= j < MAXPROC => PList(j));
    }

    /** allocPcb with initPcbValues: the first free row, with empty lists and a fresh pid. */
    method AllocPcb() returns (r: Option<PcbId>)
      requires Valid()
      requires links.rings[PcbFree] != [] ==> Loose(links.rings, PSib(PcbOf(links.rings[PcbFree][0])))
      modifies this, links
      ensures Valid()
      ensures old(links.rings)[PcbFree] == [] ==>
                r == None && links.rings == old(links.rings) && rows == old(rows) && nextPid == old(nextPid)
      ensures old(links.rings)[PcbFree] != [] ==>
                var p := PcbOf(old(links.rings)[PcbFree][0]);
                && r == Some(p) && nextPid == old(nextPid) + 1
                && links.rings ==
                   old(links.rings)[PcbFree := old(links.rings)[PcbFree][1..]][PChild(p) := []][Inbox(p) := []]
                && rows == old(rows)[p := Pcb(None, old(nextPid), old(rows)[p].dev, None, None)]
                && Loose(links.rings, PList(p))
    {
      var empty := links.ListEmpty(PcbFree);
      if empty { return None; }
      var first := links.First(PcbFree);
      var p := PcbOf(first);
      links.ListDel(first, PcbFree);
      InitPcbValues(p);
      return Some(p);
    }

    /** initPcbValues: empty lists and a fresh pid; blockedOnDevice keeps its last value. */
    method InitPcbValues(p: PcbId)
      requires Valid() && Loose(links.rings, PList(p)) && Loose(links.rings, PSib(p))
      modifies this, links
      ensures Valid() && nextPid == old(nextPid) + 1
      ensures links.rings == old(links.rings)[PChild(p) := []][Inbox(p) := []]
      ensures rows == old(rows)[p := Pcb(None, old(nextPid), old(rows)[p].dev, None, None)]
    {
      links.InitNode(PList(p));
      links.InitListHead(PChild(p));
      links.InitNode(PSib(p));
      links.InitListHead(Inbox(p));
      rows := rows[p := Pcb(None, nextPid, rows[p].dev, None, None)];
      nextPid := nextPid + 1;
    }

    /** freePcb. */
    method FreePcb(p: PcbId)
      requires Valid() && Loose(links.rings, PList(p))
      modifies links
      ensures Valid() && links.rings == old(links.rings)[PcbFree := old(links.rings)[PcbFree] + [PList(p)]]
      ensures SibsKept(old(links.stale), links.stale)
    {
      links.StaleFits(PList(p));
      QueueingKeepsSibs(links.stale, PcbFree, p);
      links.ListAddTail(PList(p), PcbFree);
    }

    /** insertProcQ. */
    method InsertProcQ(h: Addr, p: PcbId)
      requires Valid() && IsProcQ(h) && h in links.rings && Loose(links.rings, PList(p))
      modifies links
      ensures Valid() && links.rings == old(links.rings)[h := old(links.rings)[h] + [PList(p)]]
      ensures SibsKept(old(links.stale), links.stale)
    {
      links.StaleFits(PList(p));
      QueueingKeepsSibs(links.stale, h, p);
      links.ListAddTail(PList(p), h);
    }

    /** removeProcQ. */
    method RemoveProcQ(h: Addr) returns (r: Option<PcbId>)
      requires Valid() && IsProcQ(h) && h in links.rings
      modifies links
      ensures Valid()
      ensures old(links.rings)[h] == [] ==> r == None && links.rings == old(links.rings)
      ensures old(links.rings)[h] != [] ==>
                && r == Some(PcbOf(old(links.rings)[h][0]))
                && links.rings == old(links.rings)[h := old(links.rings)[h][1..]]
                && Loose(links.rings, PList(r.value))
    {
      var empty := links.ListEmpty(h);
      if empty { return None; }
      var first := links.First(h);
      links.ListDel(first, h);
      return Some(PcbOf(first));
    }

    /** outProcQ: finds p by walking the queue, and unlinks it if it is there. */
    method OutProcQ(h: Addr, p: PcbId) returns (found: bool)
      requires Valid() && IsProcQ(h) && h in links.rings
      modifies links
      ensures Valid() && found == (PList(p) in old(links.rings)[h])
      ensures links.rings == old(links.rings)[h := Without(old(links.rings)[h], PList(p))]
      ensures found ==> Loose(links.rings, PList(p))
      ensures !found ==> links.rings == old(links.rings)
      ensures SibsKept(old(links.stale), links.stale)
    {
      ghost var s := links.rings[h];
      ghost var i := 0;
      links.WalkStep(h, 0);
      var iter := links.next[h];
      while iter != h
        invariant 0 <= i <= |s| && iter == Around(h, s)[i+1] && PList(p) !in s[..i]
        invariant links.rings == old(links.rings) && links.stale == old(links.stale) && Valid()
        decreases |s| - i
      {
        if iter == PList(p) {
          links.StaleFits(PList(p));
          QueueingKeepsSibs(links.stale, h, p);
          links.ListDel(iter, h);
          return true;
        }
        links.WalkStep(h, i + 1);
        iter := links.next[iter];
        i := i + 1;
      }
      WalkedRound(links.rings, h, i, p);
      return false;
    }

    /** searchProcQ: the iteration cut-off never changes the answer. */
    method SearchProcQ(p: PcbId, h: Addr) returns (r: int)
      requires Valid() && IsProcQ(h) && h in links.rings
      ensures r == if PList(p) in links.rings[h] then 1 else 0
    {
      var empty := links.ListEmpty(h);
      if empty { return 0; }
      ghost var s := links.rings[h];
      assert forall x | x in s :: x.PList? && x.pcb < MAXPROC by {
        forall x | x in s ensures x.PList? { assert Fits(h, x); }
      }
      AtMostTheTable(s, MAXPROC);
      links.WalkStep(h, 0);
      var iter := links.next[h];
      var i := 0;
      while iter != h
        invariant 0 <= i <= |s| && iter == Around(h, s)[i+1] && PList(p) !in s[..i]
        decreases |s| - i
      {
        if iter == PList(p) { return 1; }
        if i > MAXPROC { break; }
        links.WalkStep(h, i + 1);
        iter := links.next[iter];
        i := i + 1;
      }
      HeadIsNoNode(links.rings, h);
      return 0;
    }

    /** unlockPcbDevNo: the first process of the queue blocked on that device number. */
    method UnlockPcbDevNo(devNo: int, h: Addr) returns (r: Option<PcbId>)
      requires Valid() && IsProcQ(h) && h in links.rings
      modifies links
      ensures Valid() && r == FirstOnDev(rows, old(links.rings)[h], devNo)
      ensures r == None ==> links.rings == old(links.rings)
      ensures r.Some? ==>
                && links.rings == old(links.rings)[h := Without(old(links.rings)[h], PList(r.value))]
                && Loose(links.rings, PList(r.value))
    {
      ghost var s := links.rings[h];
      ghost var i := 0;
      links.WalkStep(h, 0);
      var iter := links.next[h];
      while iter != h
        invariant 0 <= i <= |s| && iter == Around(h, s)[i+1]
        invariant FirstOnDev(rows, s, devNo) == FirstOnDev(rows, s[i..], devNo)
        invariant links.rings == old(links.rings) && Valid()
        decreases |s| - i
      {
        assert s[i] in s && Fits(h, s[i]);
        assert s[i..][0] == s[i] && s[i..][1..] == s[i+1..];
        if rows[PcbOf(iter)].dev == devNo {
          forall x | x in s ensures x.PList? { assert Fits(h, x); }
          FirstOnDevIn(rows, s, devNo);
          var found := OutProcQ(h, PcbOf(iter));
          return Some(PcbOf(iter));
        }
        links.WalkStep(h, i + 1);
        iter := links.next[iter];
        i := i + 1;
      }
      HeadIsNoNode(links.rings, h);
      return None;
    }

    /** emptyChild. */
    method EmptyChild(p: PcbId) returns (r: bool)
      requires Valid() && PChild(p) in links.rings
      ensures r <==> links.rings[PChild(p)] == []
    {
      r := links.ListEmpty(PChild(p));
    }

    /** insertChild. */
    method InsertChild(prnt: PcbId, p: PcbId)
      requires Valid() && PChild(prnt) in links.rings && Loose(links.rings, PSib(p))
      modifies this`rows, links
      ensures Valid() && rows == old(rows)[p := old(rows)[p].(parent := Some(prnt))]
      ensures links.rings == old(links.rings)[PChild(prnt) := old(links.rings)[PChild(prnt)] + [PSib(p)]]
    {
      rows := rows[p := rows[p].(parent := Some(prnt))];
      links.ListAddTail(PSib(p), PChild(prnt));
    }

    /** removeChild: the first child leaves the list, but its parent field is not reset and its
        sibling links still straddle the gap. */
    method RemoveChild(p: PcbId) returns (r: Option<PcbId>)
      requires Valid() && PChild(p) in links.rings
      modifies links
      ensures Valid()
      ensures old(links.rings)[PChild(p)] == [] ==>
                r == None && links.rings == old(links.rings) && links.stale == old(links.stale)
      ensures old(links.rings)[PChild(p)] != [] ==>
                && r == Some(PcbOf(old(links.rings)[PChild(p)][0]))
                && links.rings == old(links.rings)[PChild(p) := old(links.rings)[PChild(p)][1..]]
                && links.stale == KeepStale(old(links.stale), PChild(p), PSib(r.value))[PSib(r.value) := PChild(p)]
    {
      var empty := links.ListEmpty(PChild(p));
      if empty { return None; }
      var first := links.First(PChild(p));
      links.ListDel(first, PChild(p));
      return Some(PcbOf(first));
    }

    /** outChild: p leaves its parent's list. It may have left it already through removeChild; then
        the second unlinking changes nothing. */
    method OutChild(p: PcbId)
      requires Valid()
      requires rows[p].parent.Some? ==>
                 var h := PChild(rows[p].parent.value);
                 h in links.rings
                   && (PSib(p) in links.rings[h] || (PSib(p) in links.stale && links.stale[PSib(p)] == h))
      modifies this`rows, links
      ensures Valid() && rows == old(rows)[p := old(rows)[p].(parent := None)]
      ensures old(rows)[p].parent == None ==> links.rings == old(links.rings) && links.stale == old(links.stale)
      ensures old(rows)[p].parent.Some? ==>
                var h := PChild(old(rows)[p].parent.value);
                && links.rings == old(links.rings)[h := Without(old(links.rings)[h], PSib(p))]
                && (PSib(p) in old(links.stale) ==> links.stale == old(links.stale))
                && (PSib(p) !in old(links.stale) ==>
                      links.stale == KeepStale(old(links.stale), h, PSib(p))[PSib(p) := h])
    {
      if rows[p].parent == None {
        assert rows == rows[p := rows[p].(parent := None)];
        return;
      }
      ghost var h := PChild(rows[p].parent.value);
      rows := rows[p := rows[p].(parent := None)];
      if PSib(p) in links.stale { links.StaleIsLoose(PSib(p), h); }
      links.ListDel(PSib(p), h);
    }
  }

  /** Sibling nodes that were stale stay so. */
  ghost predicate SibsKept(s: map<Addr, Addr>, t: map<Addr, Addr>) {
    forall x | x in s && s[x].PChild? :: x in t && t[x] == s[x]
  }

  lemma QueueingKeepsSibs(stale: map<Addr, Addr>, h: Addr, p: PcbId)
    requires IsProcQ(h) && (PList(p) in stale ==> !stale[PList(p)].PChild?)
    ensures SibsKept(stale, KeepStale(stale, h, PList(p)))
    ensures SibsKept(stale, KeepStale(stale, h, PList(p))[PList(p) := h])
  {
  }

  /** The walk is back at the head: it has seen the whole list. */
  lemma WalkedRound(rings: Heads, h: Addr, i: nat, p: PcbId)
    requires Shape(rings) && h in rings && i <= |rings[h]| && Around(h, rings[h])[i+1] == h
             && PList(p) !in rings[h][..i]
    ensures PList(p) !in rings[h] && rings[h := Without(rings[h], PList(p))] == rings
  {
    HeadIsNoNode(rings, h);
    assert rings[h][..|rings[h]|] == rings[h];
    WithoutAbsent(rings[h], PList(p));
  }

  lemma SibsKeptTwice(s: map<Addr, Addr>, t: map<Addr, Addr>, u: map<Addr, Addr>)
    requires SibsKept(s, t) && SibsKept(t, u)
    ensures SibsKept(s, u)
  {
  }

  function FirstOnDev(rows: PcbRows, s: seq<Addr>, devNo: int): Option<PcbId> {
    if s == [] then None
    else if rows[PcbOf(s[0])].dev == devNo then Some(PcbOf(s[0]))
    else FirstOnDev(rows, s[1..], devNo)
  }

  lemma {:induction false} FirstOnDevIn(rows: PcbRows, s: seq<Addr>, devNo: int)
    requires forall x | x in s :: x.PList?
    ensures FirstOnDev(rows, s, devNo).Some? ==>
              PList(FirstOnDev(rows, s, devNo).value) in s && rows[FirstOnDev(rows, s, devNo).value].dev == devNo
    ensures FirstOnDev(rows, s, devNo) == None ==> forall x | x in s :: rows[PcbOf(x)].dev != devNo
  {
    if s != [] {
      assert s[0] in s;
      FirstOnDevIn(rows, s[1..], devNo);
    }
  }

  /** Nobody before the process found waits for that device. */
  lemma {:induction false} FirstOnDevIsFirst(rows: PcbRows, s: seq<Addr>, devNo: int) returns (i: nat)
    requires (forall x | x in s :: x.PList?) && FirstOnDev(rows, s, devNo).Some?
    ensures i < |s| && s[i] == PList(FirstOnDev(rows, s, devNo).value) && rows[PcbOf(s[i])].dev == devNo
    ensures forall j | 0 <= j < i :: rows[PcbOf(s[j])].dev != devNo
  {
    i := 0;
    if rows[PcbOf(s[0])].dev != devNo {
      var k := FirstOnDevIsFirst(rows, s[1..], devNo);
      i := k + 1;
    } else {
      assert s[0] in s;
    }
  }
}
