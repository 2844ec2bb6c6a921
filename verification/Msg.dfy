/** phase1/msg.c: the message pool and message queues. */
module MsgPool {
  import opened Layout
  import opened Rings
  import opened Listx
  import opened PcbPool

  datatype Msg = Msg(sender: Option<PcbId>, payload: int)

  type MsgRows = s: seq<Msg> | |s| == MAXMESSAGES witness seq(MAXMESSAGES, _ => Msg(None, 0))

  /** Static storage. */
  function ZeroMsgs(): MsgRows {
    seq(MAXMESSAGES, _ => Msg(None, 0))
  }

  predicate IsMsgQ(h: Addr) {
    h.MsgFree? || h.Inbox?
  }

  /** The test popMessage makes: the pid that the sender's PCB holds now is the pid of the wanted PCB. */
  predicate Matches(pcbs: PcbRows, msgs: MsgRows, x: Addr, f: Filter) {
    match f
    case Any => true
    case From(p) => var s := msgs[MsgOf(x)].sender; s.Some? && pcbs[s.value].pid == pcbs[p].pid
  }

  function FirstMatch(pcbs: PcbRows, msgs: MsgRows, s: seq<Addr>, f: Filter): Option<Addr> {
    if s == [] then None
    else if Matches(pcbs, msgs, s[0], f) then Some(s[0])
    else FirstMatch(pcbs, msgs, s[1..], f)
  }

  lemma {:induction false} FirstMatchIn(pcbs: PcbRows, msgs: MsgRows, s: seq<Addr>, f: Filter)
    ensures var r := FirstMatch(pcbs, msgs, s, f);
            && (r.Some? ==> r.value in s && Matches(pcbs, msgs, r.value, f))
            && (r == None ==> forall x | x in s :: !Matches(pcbs, msgs, x, f))
  {
    if s != [] { FirstMatchIn(pcbs, msgs, s[1..], f); }
  }

  /** Nothing before the message selected matches. */
  lemma {:induction false} FirstMatchIsFirst(pcbs: PcbRows, msgs: MsgRows, s: seq<Addr>, f: Filter) returns (i: nat)
    requires FirstMatch(pcbs, msgs, s, f).Some?
    ensures i < |s| && FirstMatch(pcbs, msgs, s, f) == Some(s[i]) && Matches(pcbs, msgs, s[i], f)
    ensures forall j | 0 <= j < i :: !Matches(pcbs, msgs, s[j], f)
  {
    i := 0;
    if !Matches(pcbs, msgs, s[0], f) {
      var k := FirstMatchIsFirst(pcbs, msgs, s[1..], f);
      i := k + 1;
    }
  }

  function MRow(m: nat): Addr {
    if m < MAXMESSAGES then MList(m) else MsgFree
  }

  class MsgTable {
    const links: Links
    const pcbs: PcbTable
    var rows: MsgRows

    ghost predicate Valid()
      reads this, links
    {
      links.Valid() && MsgFree in links.rings && pcbs.links == links
    }

    constructor (links: Links, pcbs: PcbTable)
      ensures this.links == links && this.pcbs == pcbs
      ensures rows == ZeroMsgs()
    {
      this.links := links;
      this.pcbs := pcbs;
      rows := ZeroMsgs();
    }

    /** initMsgs: the free list holds the whole table, last row first. */
    method InitMsgs()
      requires Valid() && PcbFree in links.rings && links.rings.Keys == {PcbFree, MsgFree} && links.rings[MsgFree] == []
      modifies links
      ensures Valid()
      ensures var all := seq(MAXMESSAGES, i requires 0 <= i < MAXMESSAGES => MList(MAXMESSAGES - 1 - i));
              links.rings == old(links.rings)[MsgFree := all]
    {
      var i := 0;
      while i < MAXMESSAGES
        invariant 0 <= i <= MAXMESSAGES && Valid()
        invariant links.rings.Keys == {PcbFree, MsgFree} && links.rings[PcbFree] == old(links.rings)[PcbFree]
        invariant |links.rings[MsgFree]| == i
        invariant forall j | 0 <= j < i :: links.rings[MsgFree][j] == MRow(i - 1 - j)
      {
        forall h | h in links.rings ensures MList(i) !in links.rings[h] {
          assert h == PcbFree || h == MsgFree;
        }
        links.ListAdd(MList(i), MsgFree);
        i := i + 1;
      }
      assert links.rings[MsgFree] == seq(MAXMESSAGES, j requires 0 <= j < MAXMESSAGES => MList(MAXMESSAGES - 1 - j));
    }

    /** allocMsg: the first free message, cleared. */
    method AllocMsg() returns (r: Option<MsgId>)
      requires Valid()
      modifies this`rows, links
      ensures Valid()
      ensures old(links.rings)[MsgFree] == [] ==> r == None && links.rings == old(links.rings) && rows == old(rows)
      ensures old(links.rings)[MsgFree] != [] ==>
                && r == Some(MsgOf(old(links.rings)[MsgFree][0]))
                && old(links.rings)[MsgFree][0] == MList(r.value)
                && links.rings == old(links.rings)[MsgFree := old(links.rings)[MsgFree][1..]]
                && rows == old(rows)[r.value := Msg(None, 0)]
                && Loose(links.rings, MList(r.value))
    {
      var empty := links.ListEmpty(MsgFree);
      if empty { return None; }
      var first := links.First(MsgFree);
      links.ListDel(first, MsgFree);
      links.InitNode(first);
      rows := rows[MsgOf(first) := Msg(None, 0)];
      return Some(MsgOf(first));
    }

    /** insertMessage. */
    method InsertMessage(h: Addr, m: MsgId)
      requires Valid() && IsMsgQ(h) && h in links.rings && Loose(links.rings, MList(m))
      modifies links
      ensures Valid() && links.rings == old(links.rings)[h := old(links.rings)[h] + [MList(m)]]
    {
      links.ListAddTail(MList(m), h);
    }

    /** pushMessage. */
    method PushMessage(h: Addr, m: MsgId)
      requires Valid() && IsMsgQ(h) && h in links.rings && Loose(links.rings, MList(m))
      modifies links
      ensures Valid() && links.rings == old(links.rings)[h := [MList(m)] + old(links.rings)[h]]
    {
      links.ListAdd(MList(m), h);
    }

    /** popMessage: the first message that matches leaves the queue; its own links are not reset. */
    method PopMessage(h: Addr, f: Filter) returns (r: Option<MsgId>)
      requires Valid() && IsMsgQ(h) && h in links.rings
      requires f.From? ==> forall x | x in links.rings[h] :: rows[MsgOf(x)].sender.Some?
      modifies links
      ensures Valid()
      ensures var found := FirstMatch(pcbs.rows, rows, old(links.rings)[h], f);
              && r.Some? == found.Some?
              && (found == None ==> links.rings == old(links.rings))
              && (found.Some? ==>
                    && found.value == MList(r.value) && MList(r.value) in old(links.rings)[h]
                    && links.rings == old(links.rings)[h := Without(old(links.rings)[h], MList(r.value))]
                    && MList(r.value) in links.stale && links.stale[MList(r.value)] == h)
    {
      ghost var s := links.rings[h];
      var empty := links.ListEmpty(h);
      if empty { return None; }
      if f.Any? {
        var first := links.First(h);
        links.ListDel(first, h);
        return Some(MsgOf(first));
      }
      ghost var i := 0;
      links.WalkStep(h, 0);
      var iter := links.next[h];
      while iter != h
        invariant 0 <= i <= |s| && iter == Around(h, s)[i+1] && Valid()
        invariant FirstMatch(pcbs.rows, rows, s, f) == FirstMatch(pcbs.rows, rows, s[i..], f)
        invariant links.rings == old(links.rings)
        decreases |s| - i
      {
        assert s[i] in s && Fits(h, s[i]);
        assert s[i..][0] == s[i] && s[i..][1..] == s[i+1..];
        if pcbs.rows[rows[MsgOf(iter)].sender.value].pid == pcbs.rows[f.pcb].pid {
          links.ListDel(iter, h);
          return Some(MsgOf(iter));
        }
        links.WalkStep(h, i + 1);
        iter := links.next[iter];
        i := i + 1;
      }
      HeadIsNoNode(links.rings, h);
      return None;
    }

    /** freeMsg: unlinks the message, which popMessage has already done, and appends it to the pool. */
    method FreeMsg(m: MsgId, ghost h: Addr)
      requires Valid() && h in links.rings && h != MsgFree && (MList(m) in links.stale || MList(m) in links.rings[h])
      modifies links
      ensures Valid()
      ensures MList(m) in old(links.rings)[h] ==>
                links.rings == old(links.rings)[h := Without(old(links.rings)[h], MList(m))]
                                               [MsgFree := old(links.rings)[MsgFree] + [MList(m)]]
      ensures MList(m) in old(links.stale) ==>
                links.rings == old(links.rings)[MsgFree := old(links.rings)[MsgFree] + [MList(m)]]
    {
      links.ListDel(MList(m), h);
      links.ListAddTail(MList(m), MsgFree);
    }

    /** recv's use of the two: the first matching message moves from the queue to the tail of the pool. */
    method PopAndFree(h: Addr, f: Filter) returns (r: Option<MsgId>)
      requires Valid() && h.Inbox? && h in links.rings
      requires f.From? ==> forall x | x in links.rings[h] :: rows[MsgOf(x)].sender.Some?
      modifies links
      ensures Valid()
      ensures var found := FirstMatch(pcbs.rows, rows, old(links.rings)[h], f);
              && r.Some? == found.Some?
              && (found == None ==> links.rings == old(links.rings))
              && (found.Some? ==>
                    && found.value == MList(r.value)
                    && links.rings == old(links.rings)[h := Without(old(links.rings)[h], MList(r.value))]
                                                      [MsgFree := old(links.rings)[MsgFree] + [MList(r.value)]])
    {
      r := PopMessage(h, f);
      if r.Some? {
        FreeMsg(r.value, h);
      }
    }

    /** headMessage. */
    method HeadMessage(h: Addr) returns (r: Option<MsgId>)
      requires Valid() && IsMsgQ(h) && h in links.rings
      ensures r == if links.rings[h] == [] then None else Some(MsgOf(links.rings[h][0]))
    {
      var empty := links.ListEmpty(h);
      if empty { return None; }
      var first := links.First(h);
      return Some(MsgOf(first));
    }
  }
}
