/** Runs in which pages lose their frames: from the counter's initial value there is none, from any other
    there are runs that fill the pool, evict a page, and find it as it was. */
module Evictions {
  import opened Layout
  import opened PageTable
  import opened Paging

  // ---------- no eviction while the counter is -1 ----------

  /** pick_frame has never been asked for a victim. */
  ghost predicate Unasked(m: M) {
    m.counter == -1 && (m.phase.Picked? && 0 <= m.phase.frame < POOLSIZE ==> m.Free(m.phase.frame))
      && !m.phase.Cleared?
  }

  lemma StepUnasked(m: M, e: Event)
    requires Unasked(m) && Enabled(m, e)
    ensures Unasked(Apply(m, e)) && !e.ClearsVictim? && !e.SavesVictim?
  {
    PickFromIs(m.swap, m.counter, 0);
  }

  /** With the counter as it is initialised the pager never evicts: the first call of pick_frame on a full pool
      names row -1, which is none, and there the code leaves the table. */
  lemma {:induction false} NothingIsEvicted(m: M, es: seq<Event>)
    requires Unasked(m) && IsRun(m, es)
    ensures Unasked(End(m, es)) && forall e | e in es :: !e.ClearsVictim? && !e.SavesVictim?
    decreases |es|
  {
    if es != [] {
      StepUnasked(m, es[0]);
      NothingIsEvicted(Apply(m, es[0]), es[1..]);
      assert forall e | e in es :: e == es[0] || e in es[1..];
    }
  }

  /** So it is from the state that the initialisation leaves. */
  lemma NoEvictionAfterBoot(m: M, es: seq<Event>)
    requires Initial(m) && m.counter == -1 && IsRun(m, es)
    ensures End(m, es).counter == -1 && forall e | e in es :: !e.ClearsVictim? && !e.SavesVictim?
  {
    NothingIsEvicted(m, es);
  }

  // ---------- building runs ----------

  ghost predicate Calm(es: seq<Event>) {
    true == (forall e | e in es :: !e.Writes? && !e.Traps?)
  }

  lemma {:induction false} Joined(m: M, a: seq<Event>, k: M, b: seq<Event>, l: M)
    requires Leads(m, a, k) && Leads(k, b, l)
    ensures Leads(m, a + b, l) && (Calm(a) && Calm(b) ==> Calm(a + b))
    decreases |a|
  {
    if a == [] {
      assert a + b == b;
    } else {
      assert (a + b)[0] == a[0] && (a + b)[1..] == a[1..] + b;
      Joined(Apply(m, a[0]), a[1..], k, b, l);
    }
  }

  lemma Single(m: M, e: Event)
    requires Enabled(m, e) && Orderly(m, e)
    ensures Leads(m, [e], Apply(m, e)) && (!e.Writes? && !e.Traps? ==> Calm([e]))
  {
    assert [e][1..] == [];
    assert IsRun(Apply(m, e), []) && End(Apply(m, e), []) == Apply(m, e);
  }

  /** One more step at the end. */
  lemma Then(m: M, es: seq<Event>, k: M, e: Event)
    requires Leads(m, es, k) && Enabled(k, e) && Orderly(k, e)
    ensures Leads(m, es + [e], Apply(k, e)) && (Calm(es) && !e.Writes? && !e.Traps? ==> Calm(es + [e]))
  {
    Single(k, e);
    Joined(m, es, k, [e], Apply(k, e));
  }

  /** Without writes and traps no page changes. */
  lemma {:induction false} NothingWritten(m: M, es: seq<Event>, k: M)
    requires Inv(m) && Leads(m, es, k) && Calm(es)
    ensures Inv(k) && k.dead == m.dead && forall s: Slot | Alive(m, s) :: Contents(k, s) == Contents(m, s)
    decreases |es|
  {
    if es != [] {
      assert es[0] in es && forall e | e in es[1..] :: e in es;
      StepKeeps(m, es[0]);
      SameDead(m, es[0]);
      NothingWritten(Apply(m, es[0]), es[1..], k);
    }
  }

  // ---------- page faults ----------

  ghost predicate MayFault(m: M, s: Slot) {
    Inv(m) && m.phase == Open && Alive(m, s) && s in m.ptes && !Valid(m.ptes[s].lo)
  }

  /** A fault up to the choice of its frame. */
  lemma Chosen(m: M, s: Slot) returns (k: M, es: seq<Event>)
    requires MayFault(m, s) && 0 <= Pick(m).0 < POOLSIZE
    ensures Leads(m, es, k) && Calm(es)
    ensures Inv(k) && k == m.(phase := Picked(s, Pick(m).0), counter := Pick(m).1)
  {
    var m1 := Apply(m, Fault(s));
    FaultKeeps(m, s);
    PickKeeps(m1);
    k := Apply(m1, PicksFrame);
    Single(m, Fault(s));
    Then(m, [Fault(s)], m1, PicksFrame);
    es := [Fault(s)] + [PicksFrame];
  }

  /** From an empty frame to the mapped page. */
  lemma Finish(m: M, s: Slot, f: int) returns (k: M, es: seq<Event>)
    requires Inv(m) && m.phase == Phase.Saved(s, f)
    ensures Leads(m, es, k) && Calm(es) && Inv(k)
    ensures s in k.ptes && Valid(k.ptes[s].lo) && k.ptes == m.ptes[s := k.ptes[s]] && k.tlb.Keys == m.tlb.Keys
    ensures k == m.(phase := Open, swap := m.swap[f := Row(s.asid, s.page, Some(s))], ptes := k.ptes, tlb := k.tlb,
              ram := k.ram)
  {
    var m1 := Apply(m, Fetches);
    FetchKeeps(m);
    var m2 := Apply(m1, Records);
    RecordKeeps(m1);
    MapKeeps(m2);
    MappedIsValid(m2.ptes[s].lo, f);
    k := Apply(m2, Maps);
    Single(m, Fetches);
    Then(m, [Fetches], m1, Records);
    Then(m, [Fetches] + [Records], m2, Maps);
    es := [Fetches] + [Records] + [Maps];
  }

  /** What a completed page fault leaves: the page in frame f, and whoever was there gone. */
  ghost predicate Loaded(m: M, k: M, s: Slot, f: int) {
    && 0 <= f < POOLSIZE && Inv(k) && k.phase == Open && k.dead == m.dead && k.tlb.Keys == m.tlb.Keys
    && k.swap == m.swap[f := Row(s.asid, s.page, Some(s))]
    && s in k.ptes && Valid(k.ptes[s].lo)
    && (forall t: Slot | t != s && t in m.ptes && !(m.swap[f].asid == t.asid && m.swap[f].page == t.page) ::
          t in k.ptes && k.ptes[t] == m.ptes[t])
    && (forall t: Slot | t != s && t in m.ptes && !m.Free(f) && m.swap[f].asid == t.asid && m.swap[f].page == t.page ::
          t in k.ptes && !Valid(k.ptes[t].lo))
  }

  /** A fault that finds a free frame. */
  lemma LoadFree(m: M, s: Slot) returns (k: M, es: seq<Event>)
    requires MayFault(m, s) && exists f | 0 <= f < POOLSIZE :: m.Free(f)
    ensures Leads(m, es, k) && Calm(es) && Loaded(m, k, s, Pick(m).0) && m.Free(Pick(m).0)
    ensures k.counter == m.counter && k.flash == m.flash
  {
    PickFromIs(m.swap, m.counter, 0);
    var m1, a := Chosen(m, s);
    SkipKeeps(m1);
    Then(m, a, m1, SkipsVictim);
    var m2 := Apply(m1, SkipsVictim);
    var l, b := Finish(m2, s, Pick(m).0);
    k := l;
    Joined(m, a + [SkipsVictim], m2, b, k);
    es := (a + [SkipsVictim]) + b;
  }

  /** Clearing the victim, whose entry is the only one that changes. */
  lemma ClearStep(m: M, s: Slot, f: int) returns (k: M, v: Slot)
    requires Inv(m) && m.phase == Picked(s, f) && 0 <= f < POOLSIZE && !m.Free(f)
    ensures Enabled(m, ClearsVictim) && k == Apply(m, ClearsVictim) && Orderly(m, ClearsVictim)
    ensures Named(m.swap[f]) && v == Owner(m.swap[f]) && v in m.ptes && Alive(m, v)
    ensures Inv(k) && v in k.ptes && !Valid(k.ptes[v].lo) && k.ptes == m.ptes[v := k.ptes[v]]
            && k.tlb.Keys == m.tlb.Keys
    ensures k == m.(ptes := k.ptes, tlb := k.tlb, phase := Phase.Cleared(s, f))
  {
    v := Owner(m.swap[f]);
    assert Resident(m, v, f);
    ClearKeeps(m);
    InvalidatedIsInvalid(m.ptes[v].lo);
    k := Apply(m, ClearsVictim);
  }

  /** k is m with a fault on s under way that has just invalidated v in frame f. */
  ghost predicate Evicting(m: M, k: M, s: Slot, v: Slot, f: int) {
    && 0 <= f < POOLSIZE && Inv(k) && Named(m.swap[f]) && v == Owner(m.swap[f]) && v in m.ptes && Alive(m, v)
    && v in k.ptes && !Valid(k.ptes[v].lo) && k.ptes == m.ptes[v := k.ptes[v]] && k.tlb.Keys == m.tlb.Keys
    && k == m.(ptes := k.ptes, tlb := k.tlb, counter := m.counter + 1, phase := Phase.Cleared(s, f))
  }

  lemma ChosenThenCleared(m: M, m2: M, k: M, s: Slot, v: Slot)
    requires m.counter >= 0 && m2 == m.(phase := Picked(s, m.counter % POOLSIZE), counter := m.counter + 1)
    requires Inv(k) && v in k.ptes && !Valid(k.ptes[v].lo) && k.ptes == m2.ptes[v := k.ptes[v]]
             && k.tlb.Keys == m2.tlb.Keys
    requires k == m2.(ptes := k.ptes, tlb := k.tlb, phase := Phase.Cleared(s, m.counter % POOLSIZE))
    requires var f := m.counter % POOLSIZE; Named(m2.swap[f]) && v == Owner(m2.swap[f]) && v in m2.ptes && Alive(m2, v)
    ensures Evicting(m, k, s, v, m.counter % POOLSIZE)
  {
  }

  /** A fault on a full pool, up to the point where its victim is invalid but not yet saved. */
  lemma ClearOne(m: M, s: Slot) returns (k: M, v: Slot, es: seq<Event>)
    requires MayFault(m, s) && Full(m.swap) && m.counter >= 0
    ensures Leads(m, es, k) && Calm(es) && ClearsVictim in es && Evicting(m, k, s, v, m.counter % POOLSIZE)
  {
    PickFromIs(m.swap, m.counter, 0);
    var m2, a := Chosen(m, s);
    k, v := ClearStep(m2, s, m.counter % POOLSIZE);
    ChosenThenCleared(m, m2, k, s, v);
    Then(m, a, m2, ClearsVictim);
    es := a + [ClearsVictim];
    assert es[|a|] == ClearsVictim;
  }

  /** The victim saved, and the fault completed. */
  lemma SaveAndFinish(m: M, s: Slot, f: int) returns (k: M, es: seq<Event>)
    requires Inv(m) && m.phase == Phase.Cleared(s, f)
    ensures Leads(m, es, k) && Calm(es) && SavesVictim in es && Inv(k)
    ensures s in k.ptes && Valid(k.ptes[s].lo) && k.ptes == m.ptes[s := k.ptes[s]] && k.tlb.Keys == m.tlb.Keys
    ensures k.phase == Open && k.dead == m.dead && k.counter == m.counter
            && k.swap == m.swap[f := Row(s.asid, s.page, Some(s))]
  {
    SaveKeeps(m);
    var m1 := Apply(m, SavesVictim);
    Single(m, SavesVictim);
    var l, b := Finish(m1, s, f);
    k := l;
    Joined(m, [SavesVictim], m1, b, k);
    es := [SavesVictim] + b;
    assert es[0] == SavesVictim;
  }

  /** A fault on a full pool: the page in the frame whose turn it is loses it. */
  lemma LoadEvicting(m: M, s: Slot) returns (k: M, es: seq<Event>)
    requires MayFault(m, s) && Full(m.swap) && m.counter >= 0
    ensures Leads(m, es, k) && Calm(es) && Loaded(m, k, s, m.counter % POOLSIZE) && k.counter == m.counter + 1
    ensures ClearsVictim in es && SavesVictim in es
  {
    var m1, v, a := ClearOne(m, s);
    var l, b := SaveAndFinish(m1, s, m.counter % POOLSIZE);
    k := l;
    Joined(m, a, m1, b, k);
    es := a + b;
    EvictedThenLoaded(m, m1, k, s, v, m.counter % POOLSIZE);
  }

  lemma EvictedThenLoaded(m: M, m1: M, k: M, s: Slot, v: Slot, f: int)
    requires MayFault(m, s) && Evicting(m, m1, s, v, f)
    requires Inv(k) && k.phase == Open && k.dead == m1.dead && k.tlb.Keys == m1.tlb.Keys
    requires k.swap == m1.swap[f := Row(s.asid, s.page, Some(s))]
    requires s in k.ptes && Valid(k.ptes[s].lo) && k.ptes == m1.ptes[s := k.ptes[s]]
    ensures Loaded(m, k, s, f)
  {
  }

  // ---------- a full pool ----------

  /** Frames 0 to n - 1 hold the first n pages of space 1, and nothing else has happened. */
  ghost predicate Filled(m: M, n: nat) {
    && n <= POOLSIZE && Inv(m) && m.phase == Open && m.dead == {} && m.tlb == map[]
    && (forall f | 0 <= f < n :: m.swap[f] == Row(1, f, Some(Slot(1, f))))
    && (forall f | n <= f < POOLSIZE :: m.swap[f].asid == NOASID)
    && (forall s: Slot | !(s.asid == 1 && s.page < n) :: s in m.ptes && !Valid(m.ptes[s].lo))
  }

  lemma InitialFilled(m: M)
    requires Initial(m)
    ensures Filled(m, 0)
  {
  }

  lemma FillOne(m: M, n: nat) returns (k: M, es: seq<Event>)
    requires Filled(m, n) && n < POOLSIZE
    ensures Leads(m, es, k) && Filled(k, n + 1) && k.counter == m.counter && k.flash == m.flash
  {
    assert m.Free(n);
    PickFromIs(m.swap, m.counter, 0);
    k, es := LoadFree(m, Slot(1, n));
    OneMoreFilled(m, k, n);
  }

  lemma OneMoreFilled(m: M, k: M, n: nat)
    requires Filled(m, n) && n < POOLSIZE && Loaded(m, k, Slot(1, n), n)
    ensures Filled(k, n + 1)
  {
    assert k.tlb == map[];
  }

  lemma {:induction false} FillUp(m: M, n: nat) returns (k: M, es: seq<Event>)
    requires Filled(m, n)
    ensures Leads(m, es, k) && Filled(k, POOLSIZE) && k.counter == m.counter && k.flash == m.flash
    decreases POOLSIZE - n
  {
    if n == POOLSIZE {
      k, es := m, [];
    } else {
      var m1, a := FillOne(m, n);
      var l, b := FillUp(m1, n + 1);
      k := l;
      Joined(m, a, m1, b, k);
      es := a + b;
    }
  }

  // ---------- a page that is written, evicted and read again ----------

  /** Page s is cached, holds v in its first word, and is the next victim of a full pool. */
  ghost predicate Written(m: M, s: Slot, v: int) {
    && Inv(m) && m.phase == Open && m.dead == {} && Full(m.swap) && m.counter >= 0
    && m.swap[m.counter % POOLSIZE] == Row(s.asid, s.page, Some(s))
    && HiOf(s) in m.tlb && Contents(m, s)[0] == v
    && s.asid == 1 && s.page < POOLSIZE && (forall t: Slot | t.asid != 1 || t.page >= POOLSIZE :: !Valid(m.ptes[t].lo))
  }

  lemma WriteToNextVictim(m: M, v: int) returns (k: M, s: Slot, es: seq<Event>)
    requires Filled(m, POOLSIZE) && m.counter >= 0
    ensures s == Slot(1, m.counter % POOLSIZE) && es == [Refill(s, None)] + [Writes(s, 0, v)]
    ensures Leads(m, es, k) && Written(k, s, v) && k.flash == m.flash
  {
    s := Slot(1, m.counter % POOLSIZE);
    assert Resident(m, s, m.counter % POOLSIZE);
    RefillKeeps(m, s, None);
    var m1 := Apply(m, Refill(s, None));
    HitIsResident(m1, s);
    WriteKeeps(m1, s, 0, v);
    k := Apply(m1, Writes(s, 0, v));
    Single(m, Refill(s, None));
    Then(m, [Refill(s, None)], m1, Writes(s, 0, v));
    es := [Refill(s, None)] + [Writes(s, 0, v)];
  }

  /** After one more fault the page is out of memory, after another it is back. */
  lemma OutAndBack(m: M, s: Slot, v: int) returns (k1: M, k2: M, a: seq<Event>, b: seq<Event>)
    requires Written(m, s, v)
    ensures Leads(m, a, k1) && Leads(k1, b, k2) && Calm(a) && Calm(b) && ClearsVictim in a && SavesVictim in a
    ensures s in k1.ptes && !Valid(k1.ptes[s].lo)
    ensures Inv(k2) && Alive(k2, s) && Hits(k2, s) && Contents(k2, s)[0] == v
  {
    k1, a := LoadEvicting(m, Slot(1, POOLSIZE));
    FullAgain(m, k1, Slot(1, POOLSIZE), m.counter % POOLSIZE);
    NothingWritten(m, a, k1);
    k2, b := LoadEvicting(k1, s);
    NothingWritten(k1, b, k2);
  }

  lemma FullAgain(m: M, k: M, s: Slot, f: int)
    requires Full(m.swap) && Loaded(m, k, s, f)
    ensures Full(k.swap)
  {
  }

  /** There is a run, from the initial state with a counter that has left its initial value, in which a process
      writes a word, loses the page to an eviction, gets it back, and reads what it wrote. */
  lemma EvictedPageComesBack(m: M, v: int)
      returns (s: Slot, before: seq<Event>, out: seq<Event>, back: seq<Event>)
    requires Initial(m) && m.counter >= 0
    ensures ClearsVictim in out && SavesVictim in out && Calm(out) && Calm(back)
    ensures IsRun(m, before + [Writes(s, 0, v)] + out)
    ensures var k := End(m, before + [Writes(s, 0, v)] + out); s in k.ptes && !Valid(k.ptes[s].lo)
    ensures IsRun(m, before + [Writes(s, 0, v)] + out + back + [Reads(s, 0, v)])
  {
    InitialFilled(m);
    var m1, fill := FillUp(m, 0);
    var m2, p, w := WriteToNextVictim(m1, v);
    s := p;
    Joined(m, fill, m1, w, m2);
    before := fill + [Refill(s, None)];
    assert fill + w == before + [Writes(s, 0, v)];
    var m3, m4, a, b := OutAndBack(m2, s, v);
    out, back := a, b;
    Joined(m, fill + w, m2, out, m3);
    Joined(m, fill + w + out, m3, back, m4);
    HitIsResident(m4, s);
    Then(m, fill + w + out + back, m4, Reads(s, 0, v));
  }

  /** There is a run at whose end a trap loses a page: space 2 traps while the word that space 1 wrote is neither
      in a valid frame nor on flash. */
  lemma TrapLosesPage(m: M, v: int) returns (s: Slot, es: seq<Event>, k: M)
    requires Initial(m) && m.counter >= 0 && m.flash[Slot(1, m.counter % POOLSIZE)][0] != v
    ensures IsRun(m, es) && k == End(m, es) && Inv(k) && Alive(k, s) && Contents(k, s)[0] == v
    ensures Enabled(k, Traps(2)) && s.asid != 2
    ensures var k2 := Apply(k, Traps(2)); Sized(k2) && Alive(k2, s) && Contents(k2, s)[0] != v && !Inv(k2)
  {
    InitialFilled(m);
    var m1, fill := FillUp(m, 0);
    var m2, p, w := WriteToNextVictim(m1, v);
    s := p;
    Joined(m, fill, m1, w, m2);
    var m3, u, c := ClearOne(m2, Slot(2, 0));
    Joined(m, fill + w, m2, c, m3);
    es, k := fill + w + c, m3;
    NothingWritten(m2, c, m3);
    CaughtInTransit(m2, m3, s, v);
  }

  lemma CaughtInTransit(m: M, k: M, s: Slot, v: int)
    requires Written(m, s, v) && Evicting(m, k, Slot(2, 0), s, m.counter % POOLSIZE)
    requires Contents(k, s)[0] == v && k.flash[s][0] != v
    ensures Alive(k, s) && Enabled(k, Traps(2))
    ensures var k2 := Apply(k, Traps(2)); Sized(k2) && Alive(k2, s) && Contents(k2, s)[0] != v && !Inv(k2)
  {
    TrapKeepsIff(k, 2);
  }
}
