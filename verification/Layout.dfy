/** Static tables, queue heads and the addresses of the list_head structures embedded in them. */
module Layout {

  const MAXPROC: nat := 50
  const MAXMESSAGES: nat := 50

  /** A row of pcbTable; a pcb_PTR is identified with the row it points at. */
  type PcbId = i: nat | i < MAXPROC

  /** A row of msgTable. */
  type MsgId = i: nat | i < MAXMESSAGES

  datatype Option<+T> = None | Some(value: T)

  /** The ready queue, the six device queues and the pseudo-clock queue. */
  datatype Queue = Ready | Disk | Flash | Ethernet | Printer | TermTransm | TermRecv | PseudoClock

  /** The address of a list_head, named by the variable or the structure field that embeds it.
      container_of is then the constructor's argument. */
  datatype Addr =
    | PcbFree
    | MsgFree
    | Head(queue: Queue)
    | PChild(pcb: PcbId)
    | Inbox(pcb: PcbId)
    | PList(pcb: PcbId)
    | PSib(pcb: PcbId)
    | MList(msg: MsgId)
  {
    /** List heads, as opposed to nodes that are threaded through lists. */
    predicate IsHead() {
      PcbFree? || MsgFree? || Head? || PChild? || Inbox?
    }
  }

  /** Which nodes may be threaded on which list. */
  predicate Fits(h: Addr, x: Addr) {
    match h
    case PcbFree => x.PList?
    case Head(_) => x.PList?
    case MsgFree => x.MList?
    case Inbox(_) => x.MList?
    case PChild(_) => x.PSib?
    case _ => false
  }

  /** container_of for the three list_head fields threaded through lists of processes. */
  function PcbOf(x: Addr): PcbId {
    if x.PChild? || x.Inbox? || x.PList? || x.PSib? then x.pcb else 0
  }

  /** container_of for messages. */
  function MsgOf(x: Addr): MsgId {
    if x.MList? then x.msg else 0
  }
}
