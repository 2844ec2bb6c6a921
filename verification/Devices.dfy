/** Device register addresses: interrupt lines 3 to 7, eight devices a line. */
module Devices {
  import opened Layout

  const DEVREGSTART := 0x10000054
  const DEVREGSIZE := 16
  const DEVPERLINE := 8
  const TERMINALLINE := 7

  datatype Register = Register(queue: Queue, devNo: nat)

  /** DEV_REG_ADDR. */
  function DevRegAddr(line: int, devNo: int): int {
    DEVREGSTART + (line - 3) * DEVPERLINE * DEVREGSIZE + devNo * DEVREGSIZE
  }

  /** COMMAND is the second word of a device register, for a terminal RECV_COMMAND; TRANSM_COMMAND is the fourth. */
  function CommandAddr(line: int, devNo: int): int { DevRegAddr(line, devNo) + 4 }
  function TransmCommandAddr(devNo: int): int { DevRegAddr(TERMINALLINE, devNo) + 12 }

  /** The queue a nonterminal line blocks its processes on. */
  function LineQueue(line: int): Queue
    requires 3 <= line < 7
  {
    if line == 3 then Disk else if line == 4 then Flash else if line == 5 then Ethernet else Printer
  }

  /** The line whose device registers a queue stands for. */
  function QueueLine(q: Queue): int {
    match q
    case Disk => 3
    case Flash => 4
    case Ethernet => 5
    case Printer => 6
    case TermTransm => 7
    case TermRecv => 7
    case _ => 0
  }

  function Command(r: Register): int
  {
    if r.queue == TermTransm then TransmCommandAddr(r.devNo) else CommandAddr(QueueLine(r.queue), r.devNo)
  }

  ghost predicate IsDevice(r: Register) {
    r.queue != Ready && r.queue != PseudoClock && r.devNo < DEVPERLINE
  }

  /** The device whose command register has this address, if any. */
  function Decode(command: int): Option<Register> {
    var off := command - DEVREGSTART;
    var line, devNo, field := 3 + off / 128, off % 128 / 16, off % 16;
    if off < 0 || line > 7 then None
    else if line == 7 && field == 12 then Some(Register(TermTransm, devNo))
    else if line == 7 && field == 4 then Some(Register(TermRecv, devNo))
    else if line < 7 && field == 4 then Some(Register(LineQueue(line), devNo))
    else None
  }

  /** Decode is exactly the inverse of Command on the devices there are. */
  lemma DecodeInvertsCommand(command: int, r: Register)
    ensures Decode(command) == Some(r) <==> IsDevice(r) && Command(r) == command
  {
  }

  /** DEV0ON to DEV7ON. */
  const DEVON: seq<bv32> := [0x01, 0x02, 0x04, 0x08, 0x10, 0x20, 0x40, 0x80]

  /** getDeviceNo: the highest device with its bit set in the bitmap, -1 if there is none. */
  function GetDeviceNo(mask: bv32): (r: int)
    ensures -1 <= r < 8
    ensures r >= 0 ==> mask & DEVON[r] != 0
    ensures forall j | r < j < 8 :: mask & DEVON[j] == 0
  {
    if mask & DEVON[7] != 0 then 7
    else if mask & DEVON[6] != 0 then 6
    else if mask & DEVON[5] != 0 then 5
    else if mask & DEVON[4] != 0 then 4
    else if mask & DEVON[3] != 0 then 3
    else if mask & DEVON[2] != 0 then 2
    else if mask & DEVON[1] != 0 then 1
    else if mask & DEVON[0] != 0 then 0
    else -1
  }

  /** The low byte of the bitmap has bit n and no higher one exactly if the interrupt is taken for device n. */
  lemma HighestDevice(mask: bv32, n: nat)
    requires n < 8
    ensures GetDeviceNo(mask) == n <==> (mask & 0xFF) >> n == 1
  {
    match n {
      case 0 => case 1 => case 2 => case 3 => case 4 => case 5 => case 6 => case _ =>
    }
  }

  /** The last byte of a terminal status: a character was received (CHARRECV) or sent (OKCHARTRANS). */
  predicate Succeeded(status: nat) {
    status % 256 == 5
  }

  /** The queue an interrupt on this line looks at; on a terminal reception goes before transmission. */
  function InterruptQueue(line: int, recvStatus: nat): Queue
    requires 3 <= line <= 7
  {
    if line < 7 then LineQueue(line) else if Succeeded(recvStatus) then TermRecv else TermTransm
  }

  /** The status that goes with it. */
  function InterruptStatus(line: int, recvStatus: nat, transmStatus: nat, status: nat): nat {
    if line < 7 then status else if Succeeded(recvStatus) then recvStatus else transmStatus
  }
}
