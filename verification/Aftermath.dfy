/** Runs of the swap mutex after its protocol was broken: the server follows its loop, one promise is kept about one
    process, and of all others nothing is asked. */
module Aftermath {
  import opened Layout
  import opened Invariant
  import opened Mail
  import opened Runs
  import opened SwapMutex

  /** c sends the server nothing more. Or: x sends c nothing, and the PCB of c is not used for another process. */
  datatype Promise = SaysNothing(c: PcbId) | HearsNothing(c: PcbId, x: PcbId)

  /** That the server sends nothing to the one whose release it waits for need not be promised. */
  ghost predicate Kept(s: State, e: Event, p: Promise)
    requires Enabled(s.k, e)
  {
    match p
    case SaysNothing(c) => !(e.Sends? && e.dest == s.server && s.k.current == Some(c))
    case HearsNothing(c, x) => !Bears(s.k, e, c) && (x != s.server ==> InFlight(Apply(s.k, e), x, c) == [])
  }

  ghost predicate Goes(s: State, e: Event, p: Promise) {
    && ServerGoes(s, e) && Kept(s, e, p)
    && (e.Slice? && s.k.current == Some(s.server) ==> TurnBack(s.k, s.server) == s.turn)
  }

  lemma StepUp(s: State, e: Event)
    requires Inv(s.k) && ServerUp(s) && ServerGoes(s, e)
    ensures Inv(Next(s, e).k) && ServerUp(Next(s, e))
  {
    NextK(s, e);
    StepKeeps(s.k, e);
    ServerStays(s.k, e, s.server);
    StepServerSame(s, e);
  }

  ghost predicate GoesOn(s: State, es: seq<Event>, p: Promise)
    decreases |es|
  {
    es == [] || (Goes(s, es[0], p) && GoesOn(Next(s, es[0]), es[1..], p))
  }

  ghost function After(s: State, es: seq<Event>, p: Promise): State
    requires GoesOn(s, es, p)
    decreases |es|
  {
    if es == [] then s else After(Next(s, es[0]), es[1..], p)
  }
}
