/** Many pagers, one at a time: the processes of the nucleus page over one memory and keep to the protocol of the
    swap mutex. That makes them one pager, the one of module Paging. */
module Pagers {
  import opened Layout
  import opened PageTable
  import opened Kernel
  import Boot
  import SwapMutex
  import Paging
  import Runs
  import Rounds
  import Slices

  type Phases = s: seq<Paging.Phase> | |s| == MAXPROC witness seq(MAXPROC, _ => Paging.Open)
  type Spaces = s: seq<Option<Asid>> | |s| == MAXPROC witness seq(MAXPROC, _ => None)

  /** How far each process is in its own call of the pager, over one memory. (The phase field of memory is not used.)
      spaces gives the address space of each user process. */
  datatype System = System(mutex: SwapMutex.State, memory: Paging.M, phases: Phases, spaces: Spaces)

  /** A step of the nucleus, or a piece of the pager, an access, a refill or a trap of the running process. */
  datatype Step = Nucleus(event: Runs.Event) | Pages(paging: Paging.Event)

  predicate Working(y: System, c: PcbId) { y.phases[c] != Paging.Open }

  /** The memory as process c finds it. */
  function Own(y: System, c: PcbId): Paging.M { y.memory.(phase := y.phases[c]) }

  /** The pieces of pager() after its call of askMutex. */
  predicate NeedsMutex(e: Paging.Event) {
    !e.Refill? && !e.Reads? && !e.Writes? && !e.Traps?
  }

  /** The address space an event of process c is about is its own. */
  predicate Concerns(e: Paging.Event, a: Asid) {
    match e
    case Fault(w) => w.asid == a
    case Refill(s, _) => s.asid == a
    case Reads(s, _, _) => s.asid == a
    case Writes(s, _, _) => s.asid == a
    case Traps(b) => b == a
    case _ => true
  }

  /** The protocol: the pager works between grant and release, and half-way it neither releases, nor is killed, nor
      loses what it did to the end of a time slice. */
  ghost predicate Allowed(y: System, st: Step) {
    match st
    case Nucleus(e) =>
      && SwapMutex.May(y.mutex, e)
      && (e.Sends? && e.dest == y.mutex.server && y.mutex.k.current.Some? ==> !Working(y, y.mutex.k.current.value))
      && (forall x | x in SwapMutex.Victims(y.mutex.k, e) :: !Working(y, x))
      && (e.Slice? && Working(y, y.mutex.k.current.value) ==> y.mutex.k.pcbs[y.mutex.k.current.value].pending.Some?)
    case Pages(e) =>
      && y.mutex.k.current.Some?
      && var c := y.mutex.k.current.value;
      && y.mutex.k.pcbs[c].pending == None
      && c != y.mutex.server && y.spaces[c].Some? && Concerns(e, y.spaces[c].value)
      && (NeedsMutex(e) ==> y.mutex.roles[c] == SwapMutex.Inside)
      && Paging.Enabled(Own(y, c), e)
  }

  ghost function Next(y: System, st: Step): System
    requires Allowed(y, st)
  {
    match st
    case Nucleus(e) => y.(mutex := SwapMutex.Next(y.mutex, e))
    case Pages(e) =>
      var c := y.mutex.k.current.value;
      var m := Paging.Apply(Own(y, c), e);
      y.(memory := m, phases := y.phases[c := m.phase])
  }

  /** Whoever works is inside, on a page of its own space. */
  ghost predicate WorkersInside(y: System) {
    && (forall c: PcbId | Working(y, c) ::
          c != y.mutex.server && y.mutex.roles[c] == SwapMutex.Inside && y.spaces[c] == Some(y.phases[c].want.asid))
    && (forall c: PcbId, d: PcbId | y.spaces[c].Some? && y.spaces[c] == y.spaces[d] :: c == d)
  }

  /** The protocol of the mutex gives that at most one process is inside. */
  ghost predicate Alone(y: System) {
    forall c: PcbId, d: PcbId | c != y.mutex.server && d != y.mutex.server
        && y.mutex.roles[c] == SwapMutex.Inside && y.mutex.roles[d] == SwapMutex.Inside :: c == d
  }

  ghost predicate Sound(y: System) {
    SwapMutex.Safe(y.mutex) && WorkersInside(y)
  }

  lemma SafeIsAlone(y: System)
    requires SwapMutex.AllSeated(y.mutex)
    ensures Alone(y)
  {
    forall c: PcbId, d: PcbId | c != y.mutex.server && d != y.mutex.server
        && y.mutex.roles[c] == SwapMutex.Inside && y.mutex.roles[d] == SwapMutex.Inside ensures c == d
    {
      assert SwapMutex.Seated(y.mutex, c) && SwapMutex.Seated(y.mutex, d);
    }
  }

  /** The phase of the one process that works. */
  ghost function Current(y: System): Paging.Phase {
    if c: PcbId :| Working(y, c) then y.phases[c] else Paging.Open
  }

  /** The system seen as one pager. */
  ghost function One(y: System): Paging.M { y.memory.(phase := Current(y)) }

  lemma OneIsOwn(y: System, c: PcbId)
    requires forall d: PcbId | Working(y, d) :: d == c
    ensures One(y) == Own(y, c)
  {
    if d: PcbId :| Working(y, d) {
      assert d == c;
    } else {
      assert !Working(y, c);
    }
  }

  /** Only the phase of c changed. */
  lemma StillOnly(y: System, y2: System, c: PcbId, d: PcbId)
    requires (forall b: PcbId | b != c :: y2.phases[b] == y.phases[b]) && Working(y2, d) && d != c
    ensures Working(y, d)
  {
  }

  // ---------- each step is a step of one pager ----------

  /** Steps that do not need the mutex do not look at the phase. */
  lemma AccessIgnoresPhase(m: Paging.M, e: Paging.Event, p: Paging.Phase)
    requires Paging.Enabled(m, e) && !NeedsMutex(e) && !e.Traps? && Paging.Sized(m.(phase := p))
    ensures Paging.Enabled(m.(phase := p), e)
    ensures Paging.Apply(m.(phase := p), e) == Paging.Apply(m, e).(phase := p) && Paging.Apply(m, e).phase == m.phase
  {
  }

  /** Nor does a trap of somebody who does not hold it. */
  lemma OutsiderTraps(m: Paging.M, a: Asid, p: Paging.Phase)
    requires Paging.Enabled(m, Paging.Traps(a)) && m.phase == Paging.Open && Paging.Sized(m.(phase := p))
    requires p != Paging.Open ==> p.want.asid != a
    ensures Paging.Enabled(m.(phase := p), Paging.Traps(a))
    ensures Paging.Apply(m.(phase := p), Paging.Traps(a)) == Paging.Apply(m, Paging.Traps(a)).(phase := p)
    ensures Paging.Apply(m, Paging.Traps(a)).phase == Paging.Open
  {
  }

  lemma WorkerSteps(y: System, e: Paging.Event, c: PcbId)
    requires y.mutex.k.current == Some(c) && Allowed(y, Pages(e)) && forall d: PcbId | Working(y, d) :: d == c
    ensures Paging.Enabled(One(y), e) && One(Next(y, Pages(e))) == Paging.Apply(One(y), e)
  {
    var y2 := Next(y, Pages(e));
    OneIsOwn(y, c);
    forall d: PcbId | Working(y2, d) ensures d == c {
      if d != c { StillOnly(y, y2, c, d); }
    }
    OneIsOwn(y2, c);
  }

  lemma BystanderSteps(y: System, e: Paging.Event, c: PcbId, d: PcbId)
    requires y.mutex.k.current == Some(c) && Allowed(y, Pages(e)) && !NeedsMutex(e)
    requires WorkersInside(y) && !Working(y, c) && Working(y, d) && (forall b: PcbId | Working(y, b) :: b == d)
    requires Paging.Sized(One(y))
    ensures Paging.Enabled(One(y), e) && One(Next(y, Pages(e))) == Paging.Apply(One(y), e)
  {
    var y2 := Next(y, Pages(e));
    OneIsOwn(y, d);
    if e.Traps? {
      OutsiderTraps(Own(y, c), e.space, y.phases[d]);
    } else {
      AccessIgnoresPhase(Own(y, c), e, y.phases[d]);
    }
    assert y2.phases == y.phases;
    forall b: PcbId | Working(y2, b) ensures b == d { assert Working(y, b); }
    OneIsOwn(y2, d);
  }

  lemma PageSteps(y: System, e: Paging.Event)
    requires WorkersInside(y) && Alone(y) && Allowed(y, Pages(e)) && Paging.Sized(One(y))
    ensures Paging.Enabled(One(y), e) && One(Next(y, Pages(e))) == Paging.Apply(One(y), e)
  {
    var c := y.mutex.k.current.value;
    if d: PcbId :| Working(y, d) && d != c {
      BystanderSteps(y, e, c, d);
    } else {
      WorkerSteps(y, e, c);
    }
  }

  // ---------- what every step keeps ----------

  lemma PageKeepsWorkers(y: System, e: Paging.Event)
    requires WorkersInside(y) && Allowed(y, Pages(e))
    ensures WorkersInside(Next(y, Pages(e)))
  {
    var c, y2 := y.mutex.k.current.value, Next(y, Pages(e));
    if Working(y2, c) { PhaseMoves(Own(y, c), e); }
    forall d: PcbId | Working(y2, d)
      ensures d != y2.mutex.server && y2.mutex.roles[d] == SwapMutex.Inside
              && y2.spaces[d] == Some(y2.phases[d].want.asid)
    {
      if d != c { StillOnly(y, y2, c, d); }
    }
  }

  /** Only the pager's own pieces change the phase, and all but the first go on with the same page. */
  lemma PhaseMoves(m: Paging.M, e: Paging.Event)
    requires Paging.Enabled(m, e) && Paging.Apply(m, e).phase != Paging.Open
    ensures NeedsMutex(e) || Paging.Apply(m, e).phase == m.phase
    ensures if e.Fault? then Paging.Apply(m, e).phase.want == e.want
            else m.phase != Paging.Open && Paging.Apply(m, e).phase.want == m.phase.want
  {
  }

  /** Roles of workers do not change under their hands. */
  lemma RoleKept(s: SwapMutex.State, e: Runs.Event, c: PcbId)
    requires SwapMutex.May(s, e) && c != s.server && s.roles[c] == SwapMutex.Inside
    requires c !in SwapMutex.Victims(s.k, e) && !(e.Sends? && e.dest == s.server && s.k.current == Some(c))
    ensures SwapMutex.Next(s, e).roles[c] == SwapMutex.Inside && SwapMutex.Next(s, e).server == s.server
  {
  }

  lemma NucleusKeepsWorkers(y: System, e: Runs.Event)
    requires WorkersInside(y) && Allowed(y, Nucleus(e))
    ensures WorkersInside(Next(y, Nucleus(e)))
  {
    forall c: PcbId | Working(y, c)
      ensures SwapMutex.Next(y.mutex, e).roles[c] == SwapMutex.Inside
              && SwapMutex.Next(y.mutex, e).server == y.mutex.server
    {
      RoleKept(y.mutex, e, c);
    }
    SwapMutex.StepServerSame(y.mutex, e);
  }

  lemma StepSound(y: System, st: Step)
    requires Sound(y) && Allowed(y, st)
    ensures Sound(Next(y, st))
  {
    match st {
      case Nucleus(e) =>
        SwapMutex.StepSafe(y.mutex, e);
        NucleusKeepsWorkers(y, e);
      case Pages(e) => PageKeepsWorkers(y, e);
    }
  }

  // ---------- whole runs ----------

  /** No trap breaks the swap table. */
  ghost predicate Orderly(y: System, st: Step)
  {
    st.Pages? && Paging.Enabled(One(y), st.paging) ==> Paging.Orderly(One(y), st.paging)
  }

  ghost predicate IsRun(y: System, sts: seq<Step>)
    decreases |sts|
  {
    sts == [] || (Allowed(y, sts[0]) && Orderly(y, sts[0]) && IsRun(Next(y, sts[0]), sts[1..]))
  }

  ghost function End(y: System, sts: seq<Step>): System
    requires IsRun(y, sts)
    decreases |sts|
  {
    if sts == [] then y else End(Next(y, sts[0]), sts[1..])
  }

  /** What the run does to the memory. */
  function Paged(sts: seq<Step>): seq<Paging.Event> {
    if sts == [] then [] else if sts[0].Pages? then [sts[0].paging] + Paged(sts[1..]) else Paged(sts[1..])
  }

  lemma StepProjects(y: System, st: Step)
    requires Sound(y) && Allowed(y, st) && Orderly(y, st) && Paging.Inv(One(y))
    ensures Paging.Inv(One(Next(y, st)))
    ensures if st.Nucleus? then One(Next(y, st)) == One(y)
            else Paging.Enabled(One(y), st.paging) && Paging.Orderly(One(y), st.paging)
                 && One(Next(y, st)) == Paging.Apply(One(y), st.paging)
  {
    SafeIsAlone(y);
    match st {
      case Nucleus(e) => SameOne(y, Next(y, st));
      case Pages(e) =>
        PageSteps(y, e);
        Paging.StepKeeps(One(y), e);
    }
  }

  lemma SameOne(y: System, y2: System)
    requires WorkersInside(y) && Alone(y) && y2 == y.(mutex := y2.mutex)
    ensures One(y2) == One(y)
  {
    forall c: PcbId ensures Working(y2, c) == Working(y, c) { }
    if c: PcbId :| Working(y, c) {
      OneIsOwn(y, c);
      OneIsOwn(y2, c);
    } else {
      assert !Working(y2, 0);
      OneIsOwn(y, 0);
      OneIsOwn(y2, 0);
    }
  }

  /** The first step of a run. */
  lemma FirstStep(y: System, sts: seq<Step>) returns (y2: System, m: Paging.M, m2: Paging.M)
    requires Sound(y) && Paging.Inv(One(y)) && IsRun(y, sts) && sts != []
    ensures Sound(y2) && Paging.Inv(m2) && IsRun(y2, sts[1..]) && End(y2, sts[1..]) == End(y, sts)
    ensures m == One(y) && m2 == One(y2)
    ensures if sts[0].Nucleus? then m2 == m
            else (
              && Paging.Enabled(m, sts[0].paging) && Paging.Orderly(m, sts[0].paging)
              && m2 == Paging.Apply(m, sts[0].paging))
  {
    y2 := Next(y, sts[0]);
    StepSound(y, sts[0]);
    StepProjects(y, sts[0]);
    m, m2 := One(y), One(y2);
  }

  /** A run of many pagers is a run of one. */
  lemma {:induction false} RunProjects(y: System, sts: seq<Step>)
    requires Sound(y) && Paging.Inv(One(y)) && IsRun(y, sts)
    ensures Sound(End(y, sts)) && Paging.Leads(One(y), Paged(sts), One(End(y, sts)))
    decreases |sts|
  {
    if sts == [] {
      assert Paged(sts) == [];
    } else {
      var y2, m, m2 := FirstStep(y, sts);
      RunProjects(y2, sts[1..]);
      FirstPaged(m, m2, sts, One(End(y, sts)));
    }
  }

  lemma FirstPaged(m: Paging.M, m2: Paging.M, sts: seq<Step>, k: Paging.M)
    requires sts != [] && Paging.Leads(m2, Paged(sts[1..]), k)
    requires if sts[0].Nucleus? then m2 == m
             else (
               && Paging.Enabled(m, sts[0].paging) && Paging.Orderly(m, sts[0].paging)
               && m2 == Paging.Apply(m, sts[0].paging))
    ensures Paging.Leads(m, Paged(sts), k)
  {
    match sts[0] {
      case Nucleus(_) =>
      case Pages(e) =>
        var es := Paged(sts[1..]);
        assert Paged(sts) == [e] + es;
        Paging.LeadsOn(m, e, es, k);
    }
  }

  /** The mutex serves, nobody pages yet, and user processes have spaces of their own. */
  ghost predicate Start(y: System) {
    && SwapMutex.Start(y.mutex) && Paging.Initial(y.memory)
    && (forall c: PcbId :: !Working(y, c))
    && (forall c: PcbId, d: PcbId | y.spaces[c].Some? && y.spaces[c] == y.spaces[d] :: c == d)
  }

  /** It can come to that: with the state that follows the first dispatch and any initial memory. */
  lemma CanStart(k: K, roles: SwapMutex.Roles, m: Paging.M, phases: Phases, spaces: Spaces)
    requires k == Schedule(Boot.Spawn(Boot.Spawn(Boot.Cleared()))) && Paging.Initial(m)
    requires forall c: PcbId :: roles[c] == SwapMutex.Outside && phases[c] == Paging.Open
    requires forall c: PcbId, d: PcbId | spaces[c].Some? && spaces[c] == spaces[d] :: c == d
    ensures Start(System(SwapMutex.State(k, 1, SwapMutex.AnyRequest, roles, [], [], false), m, phases, spaces))
  {
    SwapMutex.CanStart(k, roles);
  }

  // ---------- somebody pages ----------

  function OfNucleus(es: seq<Runs.Event>): seq<Step> {
    if es == [] then [] else [Nucleus(es[0])] + OfNucleus(es[1..])
  }

  /** While nobody pages, a run of the nucleus and the mutex is a run of the whole. */
  lemma {:induction false} OnlyNucleus(y: System, es: seq<Runs.Event>, s: SwapMutex.State)
    requires Rounds.Reaches(y.mutex, es, s) && forall c: PcbId :: !Working(y, c)
    ensures IsRun(y, OfNucleus(es)) && End(y, OfNucleus(es)) == y.(mutex := s)
    decreases |es|
  {
    if es != [] {
      var y2 := Next(y, Nucleus(es[0]));
      forall c: PcbId ensures !Working(y2, c) { assert !Working(y, c); }
      OnlyNucleus(y2, es[1..], s);
    }
  }

  lemma {:induction false} OneMore(y: System, sts: seq<Step>, st: Step)
    requires IsRun(y, sts) && Allowed(End(y, sts), st) && Orderly(End(y, sts), st)
    ensures IsRun(y, sts + [st]) && End(y, sts + [st]) == Next(End(y, sts), st)
    decreases |sts|
  {
    if sts == [] {
      assert [] + [st] == [st] && [st][1..] == [];
    } else {
      assert (sts + [st])[0] == sts[0] && (sts + [st])[1..] == sts[1..] + [st];
      OneMore(Next(y, sts[0]), sts[1..], st);
    }
  }

  /** From every initial state of the kernel and of the memory there is a run in which process 2 gets the mutex and
      starts to page. */
  lemma SomebodyPages(k0: K, roles: SwapMutex.Roles, m: Paging.M, phases: Phases, spaces: Spaces, w: Slot)
      returns (y: System, sts: seq<Step>)
    requires Boot.Initial(k0) && Paging.Initial(m) && spaces[2] == Some(w.asid)
    requires forall c: PcbId :: roles[c] == SwapMutex.Outside && phases[c] == Paging.Open
    requires forall c: PcbId, d: PcbId | spaces[c].Some? && spaces[c] == spaces[d] :: c == d
    ensures y == System(SwapMutex.State(Schedule(k0), 1, SwapMutex.AnyRequest, roles, [], [], false), m, phases, spaces)
    ensures Start(y) && IsRun(y, sts) && Working(End(y, sts), 2)
  {
    var s, es, held, left := Rounds.SomebodyGetsIn(k0, roles);
    y := System(s, m, phases, spaces);
    OnlyNucleus(y, es, held);
    CanFault(y.(mutex := held), w);
    OneMore(y, OfNucleus(es), Pages(Paging.Fault(w)));
    sts := OfNucleus(es) + [Pages(Paging.Fault(w))];
  }

  lemma CanFault(y: System, w: Slot)
    requires Slices.Works(y.mutex, 2) && y.mutex.k.pcbs[2].pending == None && Paging.Initial(y.memory)
    requires y.spaces[2] == Some(w.asid) && !Working(y, 2)
    ensures var st := Pages(Paging.Fault(w)); Allowed(y, st) && Orderly(y, st) && Working(Next(y, st), 2)
  {
  }

  lemma StartSound(y: System)
    requires Start(y)
    ensures Sound(y) && One(y) == y.memory && Paging.Inv(One(y))
  {
    SwapMutex.StartSafe(y.mutex);
    NobodyWorks(y);
    Paging.InitialInv(y.memory);
  }

  lemma NobodyWorks(y: System)
    requires (forall c: PcbId :: !Working(y, c)) && y.memory.phase == Paging.Open
    ensures One(y) == y.memory
  {
    assert !Working(y, 0);
    OneIsOwn(y, 0);
  }

  /** In every run of the whole system at most one process is between the grant of the swap mutex and the end of
      its pager: this is what mutex() and askMutex() are for. */
  lemma OnePagerAtATime(y: System, sts: seq<Step>, c: PcbId, d: PcbId)
    requires Start(y) && IsRun(y, sts) && Working(End(y, sts), c) && Working(End(y, sts), d)
    ensures c == d && End(y, sts).mutex.turn == SwapMutex.Awaiting(c)
  {
    StartSound(y);
    RunProjects(y, sts);
    var z := End(y, sts);
    assert SwapMutex.Seated(z.mutex, c) && SwapMutex.Seated(z.mutex, d);
  }

  /** Hence what is true of one pager is true of all: every process reads what it last wrote, and no two valid
      pages of live processes share a frame. */
  lemma TransparentForAll(y: System, sts: seq<Step>)
    requires Start(y) && IsRun(y, sts)
    ensures Paging.FlatTrace(y.memory.flash, Paged(sts))
    ensures Paging.Inv(One(End(y, sts)))
  {
    StartSound(y);
    RunProjects(y, sts);
    Paging.Transparent(y.memory, Paged(sts));
  }
}
