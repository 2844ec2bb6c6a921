/** Demand paging as values: the swap pool, page tables, TLB, frames and flash devices, what each phase of the
    pager does to them, and why a process cannot tell them from one flat memory. */
module Paging {
  import opened Layout
  import opened PageTable

  const NOASID := -1
  const NOPAGE := -1

  type Page = s: seq<int> | |s| == 1024 witness seq(1024, _ => 0)

  /** A row of swapPoolTable; pte is the address of a page-table entry. */
  datatype Row = Row(asid: int, page: int, pte: Option<Slot>)

  type Swap = s: seq<Row> | |s| == POOLSIZE witness seq(POOLSIZE, _ => Row(0, 0, None))

  datatype Pte = Pte(hi: nat, lo: nat)

  /** How far the holder of the swap mutex is. want is the page it faulted on, frame the frame it picked. */
  datatype Phase =
    | Open
    | Granted(want: Slot)
    | Picked(want: Slot, frame: int)
    | Cleared(want: Slot, frame: int)
    | Saved(want: Slot, frame: int)
    | Fetched(want: Slot, frame: int)
    | Recorded(want: Slot, frame: int)

  /** dead holds the address spaces whose process has trapped. */
  datatype M = M(swap: Swap, ptes: map<Slot, Pte>, tlb: map<nat, nat>, ram: map<int, Page>, flash: map<Slot, Page>,
                 counter: int, phase: Phase, dead: set<int>)
  {
    predicate Free(f: int)
      requires 0 <= f < POOLSIZE
    {
      swap[f].asid == NOASID
    }
  }

  // ---------- the code ----------

  /** C's remainder truncates towards zero. */
  function CRem(a: int, b: int): int
    requires b > 0
  {
    if a >= 0 then a % b else -((-a) % b)
  }

  /** pick_frame from row i on: the frame, and the new counter. */
  function PickFrom(swap: Swap, counter: int, i: nat): (int, int)
    requires i <= POOLSIZE
    decreases POOLSIZE - i
  {
    if i == POOLSIZE then (CRem(counter, POOLSIZE), counter + 1)
    else if swap[i].asid == NOASID then (i, counter)
    else PickFrom(swap, counter, i + 1)
  }

  function Pick(m: M): (int, int) { PickFrom(m.swap, m.counter, 0) }

  /** updateTLB: a cached entry is rewritten, any other is not loaded. */
  function UpdateTlb(tlb: map<nat, nat>, e: Pte): map<nat, nat> {
    if e.hi in tlb then tlb[e.hi := e.lo] else tlb
  }

  /** TLBWR puts an entry into the TLB in the place of another one, if all places are taken. */
  function Loaded(tlb: map<nat, nat>, e: Pte, out: Option<nat>): map<nat, nat> {
    (match out case None => tlb case Some(h) => tlb - {h})[e.hi := e.lo]
  }

  /** What the processor and the pager do, one step between two points where others can run. */
  datatype Event =
    | Fault(want: Slot)
    | PicksFrame
    | ClearsVictim
    | SkipsVictim
    | SavesVictim
    | Fetches
    | Records
    | Maps
    | Refill(slot: Slot, out: Option<nat>)
    | Reads(slot: Slot, offset: int, value: int)
    | Writes(slot: Slot, offset: int, value: int)
    | Traps(space: Asid)

  /** An access goes through when the TLB has a valid entry for it. */
  predicate Hits(m: M, s: Slot) {
    HiOf(s) in m.tlb && Valid(m.tlb[HiOf(s)])
  }

  function HitFrame(m: M, s: Slot): int
    requires Hits(m, s)
  {
    FrameOf(m.tlb[HiOf(s)])
  }

  predicate Named(r: Row) {
    1 <= r.asid <= UPROCMAX && 0 <= r.page < MAXPAGES
  }

  /** The page a row is about. */
  function Owner(r: Row): Slot
    requires Named(r)
  {
    Slot(r.asid, r.page)
  }

  /** The memory the step refers to exists. */
  ghost predicate Sized(m: M) {
    && (forall s: Slot :: s in m.ptes && s in m.flash)
    && (forall f | 0 <= f < POOLSIZE :: f in m.ram)
    && (m.phase.Picked? || m.phase.Cleared? || m.phase.Saved? || m.phase.Fetched? || m.phase.Recorded? ==>
          0 <= m.phase.frame < POOLSIZE)
  }

  ghost predicate Enabled(m: M, e: Event) {
    && Sized(m)
    && match e
       case Fault(w) => m.phase == Open && w.asid !in m.dead && !Valid(m.ptes[w].lo)
       case PicksFrame => m.phase.Granted? && 0 <= Pick(m).0 < POOLSIZE
       case ClearsVictim =>
         m.phase.Picked? && !m.Free(m.phase.frame) && m.swap[m.phase.frame].pte.Some?
       case SkipsVictim => m.phase.Picked? && m.Free(m.phase.frame)
       case SavesVictim => m.phase.Cleared? && Named(m.swap[m.phase.frame])
       case Fetches => m.phase.Saved?
       case Records => m.phase.Fetched?
       case Maps => m.phase.Recorded?
       case Refill(s, _) => s.asid !in m.dead && HiOf(s) !in m.tlb
       case Reads(s, o, v) =>
         s.asid !in m.dead && Hits(m, s) && HitFrame(m, s) in m.ram && 0 <= o < 1024 && v == m.ram[HitFrame(m, s)][o]
       case Writes(s, o, _) => s.asid !in m.dead && Hits(m, s) && HitFrame(m, s) in m.ram && 0 <= o < 1024
       case Traps(a) => a !in m.dead
  }

  /** The swap mutex is in the hands of the process of space a. */
  predicate Holds(m: M, a: Asid) {
    m.phase != Open && m.phase.want.asid == a
  }

  /** programTrapHandler clears the frames of its own address space. */
  function Cleaned(swap: Swap, asid: int): Swap {
    seq(POOLSIZE, i requires 0 <= i < POOLSIZE => if swap[i].asid == asid then swap[i].(asid := NOASID) else swap[i])
  }

  function VictimCleared(m: M): M
    requires m.phase.Picked? && 0 <= m.phase.frame < POOLSIZE && m.swap[m.phase.frame].pte.Some?
    requires m.swap[m.phase.frame].pte.value in m.ptes
  {
    var v := m.swap[m.phase.frame].pte.value;
    var e := m.ptes[v].(lo := Invalidated(m.ptes[v].lo));
    m.(ptes := m.ptes[v := e], tlb := UpdateTlb(m.tlb, e), phase := Phase.Cleared(m.phase.want, m.phase.frame))
  }

  function WantMapped(m: M): M
    requires m.phase.Recorded? && m.phase.want in m.ptes && m.phase.frame >= 0
  {
    var w := m.phase.want;
    var e := m.ptes[w].(lo := MappedTo(m.ptes[w].lo, FrameAddr(m.phase.frame)));
    m.(ptes := m.ptes[w := e], tlb := UpdateTlb(m.tlb, e), phase := Open)
  }

  ghost function Apply(m: M, e: Event): M
    requires Enabled(m, e)
  {
    match e
    case Fault(w) => m.(phase := Granted(w))
    case PicksFrame => m.(phase := Picked(m.phase.want, Pick(m).0), counter := Pick(m).1)
    case ClearsVictim => VictimCleared(m)
    case SkipsVictim => m.(phase := Saved(m.phase.want, m.phase.frame))
    case SavesVictim =>
      m.(flash := m.flash[Owner(m.swap[m.phase.frame]) := m.ram[m.phase.frame]],
         phase := Saved(m.phase.want, m.phase.frame))
    case Fetches =>
      m.(ram := m.ram[m.phase.frame := m.flash[m.phase.want]], phase := Fetched(m.phase.want, m.phase.frame))
    case Records =>
      var w := m.phase.want;
      m.(swap := m.swap[m.phase.frame := Row(w.asid, w.page, Some(w))], phase := Recorded(w, m.phase.frame))
    case Maps => WantMapped(m)
    case Refill(s, out) => m.(tlb := Loaded(m.tlb, m.ptes[s], out))
    case Reads(_, _, _) => m
    case Writes(s, o, v) => m.(ram := m.ram[HitFrame(m, s) := m.ram[HitFrame(m, s)][o := v]])
    case Traps(a) =>
      m.(swap := Cleaned(m.swap, a), phase := if Holds(m, a) then Open else m.phase, dead := m.dead + {a as int})
  }

  // ---------- the invariant ----------

  predicate Alive(m: M, s: Slot) { s.asid !in m.dead }

  /** The frame in the hands of the pager: neither its row nor its contents can be trusted. */
  predicate InTransit(m: M, f: int) {
    (m.phase.Cleared? || m.phase.Saved? || m.phase.Fetched? || m.phase.Recorded?) && m.phase.frame == f
  }

  /** Page s is in frame f, by its entry and by the swap table. */
  ghost predicate Resident(m: M, s: Slot, f: int) {
    && 0 <= f < POOLSIZE && s in m.ptes && Valid(m.ptes[s].lo) && FrameOf(m.ptes[s].lo) == f
    && m.swap[f] == Row(s.asid, s.page, Some(s))
  }

  /** Occupied rows and valid entries of live address spaces are in bijection, but for the frame in transit. */
  ghost predicate RowsOk(m: M) {
    && (forall f | 0 <= f < POOLSIZE && !m.Free(f) && !InTransit(m, f) ::
          Named(m.swap[f]) && Alive(m, Owner(m.swap[f])) && Resident(m, Owner(m.swap[f]), f))
    && (forall s: Slot | Alive(m, s) && s in m.ptes && Valid(m.ptes[s].lo) ::
          Resident(m, s, FrameOf(m.ptes[s].lo)) && !InTransit(m, FrameOf(m.ptes[s].lo)))
  }

  /** A victim on its way out belongs to a live space and is not valid. */
  ghost predicate VictimOk(m: M) {
    m.phase.Cleared? && 0 <= m.phase.frame < POOLSIZE ==>
      var r := m.swap[m.phase.frame];
      && Named(r) && Alive(m, Owner(r)) && Owner(r) in m.ptes && !Valid(m.ptes[Owner(r)].lo)
      && Owner(r) != m.phase.want
  }

  /** The faulting page stays invalid until it is mapped, and its copy in the frame is good once fetched. */
  ghost predicate WantOk(m: M) {
    m.phase != Open ==>
      && Alive(m, m.phase.want) && m.phase.want in m.ptes && !Valid(m.ptes[m.phase.want].lo)
      && (m.phase.Fetched? || m.phase.Recorded? ==>
            m.phase.frame in m.ram && m.phase.want in m.flash && m.ram[m.phase.frame] == m.flash[m.phase.want])
      && (m.phase.Recorded? && 0 <= m.phase.frame < POOLSIZE ==>
            m.swap[m.phase.frame] == Row(m.phase.want.asid, m.phase.want.page, Some(m.phase.want)))
  }

  /** Entries never change their name, and the TLB agrees with the page tables. */
  ghost predicate TlbOk(m: M) {
    && (forall s: Slot | s in m.ptes :: m.ptes[s].hi == HiOf(s))
    && (forall s: Slot | s in m.ptes && HiOf(s) in m.tlb :: m.tlb[HiOf(s)] == m.ptes[s].lo)
  }

  ghost predicate Inv(m: M) {
    Sized(m) && RowsOk(m) && VictimOk(m) && WantOk(m) && TlbOk(m)
  }

  // ---------- the flat memory ----------

  /** The page as its process sees it: in its frame while it has one, on flash otherwise; between losing its
      frame and being written back it is still in the frame. */
  ghost function Contents(m: M, s: Slot): Page
    requires Sized(m)
  {
    if Valid(m.ptes[s].lo) then InRam(m, FrameOf(m.ptes[s].lo))
    else if m.phase.Cleared? && m.swap[m.phase.frame].asid == s.asid && m.swap[m.phase.frame].page == s.page
      then m.ram[m.phase.frame]
    else m.flash[s]
  }

  function InRam(m: M, f: int): Page {
    if f in m.ram then m.ram[f] else seq(1024, _ => 0)
  }

  /** The live pages look the same, but for what the event wrote. */
  ghost predicate SameMemory(m: M, m2: M, e: Event)
    requires Sized(m) && Sized(m2)
  {
    forall s: Slot | Alive(m2, s) ::
      Contents(m2, s) ==
        if e.Writes? && e.slot == s && 0 <= e.offset < 1024 then Contents(m, s)[e.offset := e.value] else Contents(m, s)
  }

  // ---------- pick_frame ----------

  lemma {:induction false} PickFromIs(swap: Swap, counter: int, i: nat)
    requires i <= POOLSIZE
    ensures var (f, c) := PickFrom(swap, counter, i);
            || (i <= f < POOLSIZE && swap[f].asid == NOASID && c == counter
                && forall g | i <= g < f :: swap[g].asid != NOASID)
            || ((forall g | i <= g < POOLSIZE :: swap[g].asid != NOASID) && f == CRem(counter, POOLSIZE)
                && c == counter + 1)
    decreases POOLSIZE - i
  {
    if i < POOLSIZE { PickFromIs(swap, counter, i + 1); }
  }

  // ---------- every step keeps the invariant and the memory ----------

  lemma FaultKeeps(m: M, w: Slot)
    requires Inv(m) && Enabled(m, Fault(w))
    ensures var m2 := Apply(m, Fault(w)); Inv(m2) && SameMemory(m, m2, Fault(w))
  {
  }

  lemma PickKeeps(m: M)
    requires Inv(m) && Enabled(m, PicksFrame)
    ensures var m2 := Apply(m, PicksFrame); Inv(m2) && SameMemory(m, m2, PicksFrame)
  {
  }

  /** Only v's entry and its TLB copy changed: v is not valid any more. */
  lemma ClearRows(m: M)
    requires Inv(m) && Enabled(m, ClearsVictim)
    ensures var m2 := Apply(m, ClearsVictim); Sized(m2) && RowsOk(m2) && VictimOk(m2) && WantOk(m2)
  {
    var f := m.phase.frame;
    var v := m.swap[f].pte.value;
    InvalidatedIsInvalid(m.ptes[v].lo);
    assert Resident(m, Owner(m.swap[f]), f);
    assert v == Owner(m.swap[f]);
  }

  /** Rewriting one entry and its cached copy together keeps the TLB in step. */
  lemma UpdateTlbOk(m: M, m2: M, s: Slot)
    requires TlbOk(m) && s in m.ptes && s in m2.ptes && m2.ptes == m.ptes[s := m2.ptes[s]]
             && m2.ptes[s].hi == m.ptes[s].hi
    requires m2.tlb == UpdateTlb(m.tlb, m2.ptes[s])
    ensures TlbOk(m2)
  {
    forall t: Slot | t in m2.ptes && HiOf(t) in m2.tlb ensures m2.tlb[HiOf(t)] == m2.ptes[t].lo {
      if HiOf(t) == HiOf(s) { HiInjective(t, s); }
    }
  }

  lemma ClearMemory(m: M)
    requires Inv(m) && Enabled(m, ClearsVictim)
    ensures var m2 := Apply(m, ClearsVictim); Sized(m2) && SameMemory(m, m2, ClearsVictim)
  {
    var f := m.phase.frame;
    InvalidatedIsInvalid(m.ptes[m.swap[f].pte.value].lo);
    assert Resident(m, Owner(m.swap[f]), f);
  }

  lemma ClearKeeps(m: M)
    requires Inv(m) && Enabled(m, ClearsVictim)
    ensures var m2 := Apply(m, ClearsVictim); Inv(m2) && SameMemory(m, m2, ClearsVictim)
  {
    ClearRows(m);
    ClearMemory(m);
    UpdateTlbOk(m, Apply(m, ClearsVictim), m.swap[m.phase.frame].pte.value);
  }

  lemma SkipKeeps(m: M)
    requires Inv(m) && Enabled(m, SkipsVictim)
    ensures var m2 := Apply(m, SkipsVictim); Inv(m2) && SameMemory(m, m2, SkipsVictim)
  {
  }

  lemma SaveKeeps(m: M)
    requires Inv(m) && Enabled(m, SavesVictim)
    ensures var m2 := Apply(m, SavesVictim); Inv(m2) && SameMemory(m, m2, SavesVictim)
  {
  }

  lemma FetchKeeps(m: M)
    requires Inv(m) && Enabled(m, Fetches)
    ensures var m2 := Apply(m, Fetches); Inv(m2) && SameMemory(m, m2, Fetches)
  {
  }

  lemma RecordKeeps(m: M)
    requires Inv(m) && Enabled(m, Records)
    ensures var m2 := Apply(m, Records); Inv(m2) && SameMemory(m, m2, Records)
  {
  }

  lemma MapKeeps(m: M)
    requires Inv(m) && Enabled(m, Maps)
    ensures var m2 := Apply(m, Maps); Inv(m2) && SameMemory(m, m2, Maps)
  {
    MappedIsValid(m.ptes[m.phase.want].lo, m.phase.frame);
    UpdateTlbOk(m, Apply(m, Maps), m.phase.want);
  }

  lemma RefillKeeps(m: M, s: Slot, out: Option<nat>)
    requires Inv(m) && Enabled(m, Refill(s, out))
    ensures var m2 := Apply(m, Refill(s, out)); Inv(m2) && SameMemory(m, m2, Refill(s, out))
  {
    var m2 := Apply(m, Refill(s, out));
    forall t: Slot | t in m2.ptes && HiOf(t) in m2.tlb ensures m2.tlb[HiOf(t)] == m2.ptes[t].lo {
      if HiOf(t) == HiOf(s) { HiInjective(t, s); }
    }
  }

  /** Whatever entry TLBWR displaces, the refill leaves the entry of the page in the TLB, so that the access goes
      through exactly if the page is valid; and no entry but the displaced one is lost or changed. */
  lemma RefillLoads(m: M, s: Slot, out: Option<nat>)
    requires TlbOk(m) && Enabled(m, Refill(s, out))
    ensures var m2 := Apply(m, Refill(s, out));
            && m2 == m.(tlb := m2.tlb)
            && HiOf(s) in m2.tlb && m2.tlb[HiOf(s)] == m.ptes[s].lo && (Hits(m2, s) <==> Valid(m.ptes[s].lo))
            && (forall h | h != HiOf(s) :: h in m2.tlb <==> h in m.tlb && Some(h) != out)
            && (forall h | h in m2.tlb && h != HiOf(s) :: m2.tlb[h] == m.tlb[h])
  {
    assert m.ptes[s].hi == HiOf(s);
  }

  /** The pager loads nothing: after it the access goes through at once exactly if the TLB had an entry of the page,
      which it has brought up to date, and otherwise after a refill. */
  lemma MapsHitIff(m: M)
    requires Inv(m) && Enabled(m, Maps)
    ensures var m2, w := Apply(m, Maps), m.phase.want;
            m2.tlb.Keys == m.tlb.Keys && (Hits(m2, w) <==> HiOf(w) in m.tlb)
  {
    var w := m.phase.want;
    MappedIsValid(m.ptes[w].lo, m.phase.frame);
    assert m.ptes[w].hi == HiOf(w);
  }

  /** The TLB leads an access to the frame of the page. */
  lemma HitIsResident(m: M, s: Slot)
    requires Inv(m) && Alive(m, s) && Hits(m, s)
    ensures Resident(m, s, HitFrame(m, s)) && !InTransit(m, HitFrame(m, s))
    ensures Contents(m, s) == m.ram[HitFrame(m, s)]
  {
  }

  /** No other live page is in that frame. */
  lemma WriteKeeps(m: M, s: Slot, o: int, v: int)
    requires Inv(m) && Enabled(m, Writes(s, o, v))
    ensures var m2 := Apply(m, Writes(s, o, v)); Inv(m2) && SameMemory(m, m2, Writes(s, o, v))
  {
    HitIsResident(m, s);
  }

  /** The state that the initialisation leaves: no frame used, no page valid, everything on flash. It starts the
      counter of pick_frame at -1; what follows holds for any value. */
  ghost predicate Initial(m: M) {
    && Sized(m) && m.phase == Open && m.tlb == map[] && m.dead == {}
    && (forall f | 0 <= f < POOLSIZE :: m.swap[f] == Row(NOASID, NOPAGE, None))
    && (forall s: Slot :: m.ptes[s] == Pte(HiOf(s), DIRTYON))
  }

  lemma InitialInv(m: M)
    requires Initial(m)
    ensures Inv(m)
  {
  }

  // ---------- program traps ----------

  /** What the process of space a may leave behind: if it holds the mutex, a frame that was free or its own; if
      somebody else does, no page of a on its way out. */
  ghost predicate LeavesNothing(m: M, a: Asid)
    requires Sized(m)
  {
    if Holds(m, a) then
      m.phase.Granted? || m.phase.Picked? || m.Free(m.phase.frame) || m.swap[m.phase.frame].asid == a
    else
      !(m.phase.Cleared? && m.swap[m.phase.frame].asid == a)
  }

  /** programTrapHandler leaves the table in order exactly then. A holder's row for another space's victim would
      stay occupied by a page that is not valid any more; and another space's pager, which reads the row again to
      write the victim back, would find its address space gone. */
  lemma TrapKeepsIff(m: M, a: Asid)
    requires Inv(m) && Enabled(m, Traps(a))
    ensures Inv(Apply(m, Traps(a))) <==> LeavesNothing(m, a)
  {
    if LeavesNothing(m, a) {
      TrapRows(m, a);
    } else if Holds(m, a) {
      HolderLeaves(m, a);
    }
  }

  lemma TrapRows(m: M, a: Asid)
    requires Inv(m) && Enabled(m, Traps(a)) && LeavesNothing(m, a)
    ensures Inv(Apply(m, Traps(a)))
  {
  }

  lemma HolderLeaves(m: M, a: Asid)
    requires Inv(m) && Enabled(m, Traps(a)) && Holds(m, a) && !LeavesNothing(m, a)
    ensures !RowsOk(Apply(m, Traps(a)))
  {
    var m2, f := Apply(m, Traps(a)), m.phase.frame;
    assert !m2.Free(f) && !InTransit(m2, f);
    if Named(m2.swap[f]) && Resident(m2, Owner(m2.swap[f]), f) {
      OrphanedVictim(m);
    }
  }

  /** In those phases no valid entry points at the frame. */
  lemma OrphanedVictim(m: M)
    requires Inv(m) && m.phase != Open && !LeavesNothing(m, m.phase.want.asid)
    ensures var r := m.swap[m.phase.frame]; Named(r) && Alive(m, Owner(r)) ==> !Resident(m, Owner(r), m.phase.frame)
  {
  }

  /** The trap itself changes what a live process sees exactly when the holder traps between the clearing of
      another space's page and its write-back, and the page differs from its copy on flash. */
  lemma TrapLosesIff(m: M, a: Asid)
    requires Inv(m) && Enabled(m, Traps(a))
    ensures Sized(Apply(m, Traps(a)))
    ensures SameMemory(m, Apply(m, Traps(a)), Traps(a)) <==>
              !(Holds(m, a) && m.phase.Cleared? && m.swap[m.phase.frame].asid != a
                && m.ram[m.phase.frame] != m.flash[Owner(m.swap[m.phase.frame])])
  {
    var m2 := Apply(m, Traps(a));
    if m.phase.Cleared? && Holds(m, a) {
      var v := Owner(m.swap[m.phase.frame]);
      assert Contents(m, v) == m.ram[m.phase.frame] && Contents(m2, v) == m.flash[v];
      forall s: Slot | Alive(m2, s) && s != v ensures Contents(m2, s) == Contents(m, s) { }
    }
  }

  // ---------- whole runs ----------

  /** Nobody traps at a time at which that breaks the table. */
  ghost predicate Orderly(m: M, e: Event)
    requires Enabled(m, e)
  {
    e.Traps? ==> LeavesNothing(m, e.space)
  }

  lemma StepKeeps(m: M, e: Event)
    requires Inv(m) && Enabled(m, e) && Orderly(m, e)
    ensures Inv(Apply(m, e)) && SameMemory(m, Apply(m, e), e)
  {
    match e {
      case Fault(w) => FaultKeeps(m, w);
      case PicksFrame => PickKeeps(m);
      case ClearsVictim => ClearKeeps(m);
      case SkipsVictim => SkipKeeps(m);
      case SavesVictim => SaveKeeps(m);
      case Fetches => FetchKeeps(m);
      case Records => RecordKeeps(m);
      case Maps => MapKeeps(m);
      case Refill(s, out) => RefillKeeps(m, s, out);
      case Reads(_, _, _) =>
      case Writes(s, o, v) => WriteKeeps(m, s, o, v);
      case Traps(a) => TrapKeepsIff(m, a); TrapLosesIff(m, a);
    }
  }

  lemma SameDead(m: M, e: Event)
    requires Enabled(m, e) && !e.Traps?
    ensures Apply(m, e).dead == m.dead
  {
  }

  ghost predicate IsRun(m: M, es: seq<Event>)
    decreases |es|
  {
    es == [] || (Enabled(m, es[0]) && Orderly(m, es[0]) && IsRun(Apply(m, es[0]), es[1..]))
  }

  ghost function End(m: M, es: seq<Event>): M
    requires IsRun(m, es)
    decreases |es|
  {
    if es == [] then m else End(Apply(m, es[0]), es[1..])
  }

  /** The run es leads from m to k. (An equation, hence one proof obligation where it is used.) */
  ghost predicate Leads(m: M, es: seq<Event>, k: M) {
    true == (IsRun(m, es) && End(m, es) == k)
  }

  /** One more step in front. */
  lemma LeadsOn(m: M, e: Event, es: seq<Event>, k: M)
    requires Enabled(m, e) && Orderly(m, e) && Leads(Apply(m, e), es, k)
    ensures Leads(m, [e] + es, k)
  {
    assert ([e] + es)[0] == e && ([e] + es)[1..] == es;
  }

  /** One flat memory per process. */
  type Flat = map<Slot, Page>

  function FlatStep(flat: Flat, e: Event): Flat {
    if e.Writes? && 0 <= e.offset < 1024 && e.slot in flat
    then flat[e.slot := flat[e.slot][e.offset := e.value]]
    else flat
  }

  ghost predicate FlatAnswer(flat: Flat, e: Event) {
    e.Reads? ==> e.slot in flat && 0 <= e.offset < 1024 && e.value == flat[e.slot][e.offset]
  }

  /** The reads of a run return what a flat memory would return after the same writes. */
  ghost predicate FlatTrace(flat: Flat, es: seq<Event>)
    decreases |es|
  {
    es == [] || (FlatAnswer(flat, es[0]) && FlatTrace(FlatStep(flat, es[0]), es[1..]))
  }

  ghost predicate Represents(m: M, flat: Flat) {
    && Sized(m) && (forall s: Slot :: s in flat)
    && (forall s: Slot | Alive(m, s) :: Contents(m, s) == flat[s])
  }

  lemma StepRepresents(m: M, flat: Flat, e: Event)
    requires Inv(m) && Enabled(m, e) && Orderly(m, e) && Represents(m, flat)
    ensures Represents(Apply(m, e), FlatStep(flat, e))
    ensures e.Reads? ==> e.value == flat[e.slot][e.offset]
  {
    StepKeeps(m, e);
    StillAlive(m, e);
    if e.Reads? { HitIsResident(m, e.slot); }
  }

  lemma StillAlive(m: M, e: Event)
    requires Enabled(m, e)
    ensures m.dead <= Apply(m, e).dead
  {
  }

  lemma {:induction false} RunIsFlat(m: M, flat: Flat, es: seq<Event>)
    requires Inv(m) && Represents(m, flat) && IsRun(m, es)
    ensures FlatTrace(flat, es) && Inv(End(m, es))
    decreases |es|
  {
    if es != [] {
      StepKeeps(m, es[0]);
      StepRepresents(m, flat, es[0]);
      RunIsFlat(Apply(m, es[0]), FlatStep(flat, es[0]), es[1..]);
    }
  }

  /** Paging is transparent: in every run from the initial state, with any interleaving of faults, pager phases,
      refills and accesses, each read returns what was last written, or what was on flash at the start. */
  lemma Transparent(m: M, es: seq<Event>)
    requires Initial(m) && IsRun(m, es)
    ensures FlatTrace(m.flash, es) && Inv(End(m, es))
  {
    RunIsFlat(m, m.flash, es);
  }

  /** No two pages of live processes ever share a frame. */
  lemma FramesAreNotShared(m: M, es: seq<Event>, s: Slot, t: Slot)
    requires Initial(m) && IsRun(m, es)
    requires var k := End(m, es); Alive(k, s) && Alive(k, t) && s in k.ptes && t in k.ptes
    requires var k := End(m, es);
             Valid(k.ptes[s].lo) && Valid(k.ptes[t].lo) && FrameOf(k.ptes[s].lo) == FrameOf(k.ptes[t].lo)
    ensures s == t
  {
    Transparent(m, es);
  }

  // ---------- the replacement order ----------

  ghost predicate Full(swap: Swap) {
    forall f | 0 <= f < POOLSIZE :: swap[f].asid != NOASID
  }

  /** With a full pool the result is a frame of the pool exactly once the counter is past its initial value. */
  lemma FullPickIsFrame(swap: Swap, counter: int)
    requires Full(swap) && counter >= -1
    ensures 0 <= PickFrom(swap, counter, 0).0 < POOLSIZE <==> counter != -1
  {
    PickFromIs(swap, counter, 0);
  }

  /** The very first call on a full pool, with the counter as it is initialised. */
  lemma FirstFullPick(swap: Swap)
    requires Full(swap)
    ensures PickFrom(swap, -1, 0) == (-1, 0)
  {
    PickFromIs(swap, -1, 0);
  }

  lemma PickIsFrame(m: M)
    requires m.counter >= 0 || exists f | 0 <= f < POOLSIZE :: m.Free(f)
    ensures 0 <= Pick(m).0 < POOLSIZE
  {
    PickFromIs(m.swap, m.counter, 0);
  }

  /** The frames that calls on these tables name one after the other; the pager rewrites rows between calls. */
  function Victims(tables: seq<Swap>, counter: int): seq<int> {
    if tables == [] then []
    else [PickFrom(tables[0], counter, 0).0] + Victims(tables[1..], PickFrom(tables[0], counter, 0).1)
  }

  lemma {:induction false} VictimsAre(tables: seq<Swap>, counter: nat)
    requires forall t | t in tables :: Full(t)
    ensures |Victims(tables, counter)| == |tables|
    ensures forall j | 0 <= j < |tables| :: Victims(tables, counter)[j] == (counter + j) % POOLSIZE
  {
    if tables != [] {
      assert tables[0] in tables;
      PickFromIs(tables[0], counter, 0);
      VictimsAre(tables[1..], counter + 1);
    }
  }

  /** Any POOLSIZE calls in a row on full pools name every frame exactly once. */
  lemma VictimsCycle(tables: seq<Swap>, counter: nat, f: int)
    requires |tables| == POOLSIZE && (forall t | t in tables :: Full(t)) && 0 <= f < POOLSIZE
    ensures |Victims(tables, counter)| == POOLSIZE && f in Victims(tables, counter)
    ensures forall i, j | 0 <= i < j < POOLSIZE :: Victims(tables, counter)[i] != Victims(tables, counter)[j]
  {
    VictimsAre(tables, counter);
    var j := TurnOf(counter, f);
    assert Victims(tables, counter)[j] == f;
    forall i, j | 0 <= i < j < POOLSIZE ensures Victims(tables, counter)[i] != Victims(tables, counter)[j] {
      TurnsDiffer(counter, i, j);
    }
  }

  lemma TurnOf(counter: nat, f: nat) returns (j: nat)
    requires f < POOLSIZE
    ensures j < POOLSIZE && (counter + j) % POOLSIZE == f
  {
    var r := counter % POOLSIZE;
    j := if f >= r then f - r else f - r + POOLSIZE;
  }

  lemma TurnsDiffer(counter: nat, i: nat, j: nat)
    requires i < j < POOLSIZE
    ensures (counter + i) % POOLSIZE != (counter + j) % POOLSIZE
  {
  }
}
