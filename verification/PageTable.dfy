/** Page-table words: EntryHI names an address space and a page, EntryLO holds a frame address and flags. */
module PageTable {

  const PAGESIZE := 4096
  const MAXPAGES := 32
  const UPROCMAX := 8
  const POOLSIZE := 16
  const KUSEG := 0x8000_0000
  const GETSHAREFLAG := 0xC000_0000
  const SWAPPOOL := 0x2002_0000
  const DIRTYON := 0x400
  const VALIDON := 0x200
  const TOPFLAG := 0x800

  type Asid = a: nat | 1 <= a <= UPROCMAX witness 1
  type PageNo = p: nat | p < MAXPAGES

  /** A page-table entry, named by the table it is in and its index. */
  datatype Slot = Slot(asid: Asid, page: PageNo)

  /** x |= bit and x &= ~bit, for one bit of a word. */
  function SetBit(x: nat, bit: nat): nat
    requires bit > 0
  {
    if x / bit % 2 == 1 then x else x + bit
  }

  function ClearBit(x: nat, bit: nat): nat
    requires bit > 0
  {
    if x / bit % 2 == 1 then x - bit else x
  }

  // ---------- EntryHI ----------

  /** What initSupportStruct writes into entry s; the last entry is the stack page. */
  function HiOf(s: Slot): nat {
    (if s.page < MAXPAGES - 1 then KUSEG + s.page * PAGESIZE else GETSHAREFLAG - PAGESIZE) + s.asid * 64
  }

  /** ENTRYHI_GET_VPN with the bound check that both the refill handler and the pager make. */
  function PageOf(hi: nat): PageNo {
    var p := hi % 0x4000_0000 / PAGESIZE;
    if p > MAXPAGES - 1 then MAXPAGES - 1 else p
  }

  /** What the processor puts into EntryHI when the address space a touches the virtual address va. */
  function HiOfAccess(a: Asid, va: nat): nat {
    va / PAGESIZE * PAGESIZE + a * 64
  }

  /** Entry i decodes to i, so refill and pager find the entry that an access needs. */
  lemma PageOfHi(s: Slot)
    ensures PageOf(HiOf(s)) == s.page
  {
  }

  /** No two entries of all page tables look alike to the TLB. */
  lemma HiInjective(s: Slot, t: Slot)
    requires HiOf(s) == HiOf(t)
    ensures s == t
  {
  }

  /** The entry that the bound check selects for a user address is the entry of that address exactly on the first
      31 pages and the stack page; on every other page the refill handler loads an entry that does not match. */
  lemma RefillFits(a: Asid, va: nat)
    requires KUSEG <= va < GETSHAREFLAG
    ensures (HiOf(Slot(a, PageOf(HiOfAccess(a, va)))) == HiOfAccess(a, va)) <==>
            (va < KUSEG + (MAXPAGES - 1) * PAGESIZE || va >= GETSHAREFLAG - PAGESIZE)
  {
  }

  // ---------- EntryLO ----------

  predicate Valid(lo: nat) {
    lo / VALIDON % 2 == 1
  }

  function FrameAddr(f: nat): nat {
    SWAPPOOL + f * PAGESIZE
  }

  /** The frame of the swap pool that a valid entry points at. */
  function FrameOf(lo: nat): int {
    (lo / PAGESIZE * PAGESIZE - SWAPPOOL) / PAGESIZE
  }

  /** lo &= ~VALIDON. */
  function Invalidated(lo: nat): nat {
    ClearBit(lo, VALIDON)
  }

  /** lo |= VALIDON | DIRTYON, then lo &= 0xFFF, then lo |= addr. */
  function MappedTo(lo: nat, addr: nat): nat {
    SetBit(SetBit(lo, VALIDON), DIRTYON) % PAGESIZE + addr
  }

  lemma InvalidatedIsInvalid(lo: nat)
    ensures !Valid(Invalidated(lo))
  {
  }

  /** All bits above and below the valid bit stay: the frame, the dirty bit and the rest. */
  lemma InvalidatedKeepsRest(lo: nat)
    ensures Invalidated(lo) / DIRTYON == lo / DIRTYON && Invalidated(lo) % VALIDON == lo % VALIDON
  {
    var q, r := lo / DIRTYON, lo % DIRTYON;
    assert lo == DIRTYON * q + r;
    if lo / VALIDON % 2 == 1 {
      ValidQuotient(lo, 2 * q + r / VALIDON, r % VALIDON);
      assert r >= VALIDON;
      DirtyQuotient(lo - VALIDON, q, r - VALIDON);
      ValidRemainder(lo - VALIDON);
    }
  }

  lemma ValidRemainder(x: nat)
    ensures (x + VALIDON) % VALIDON == x % VALIDON
  {
  }

  lemma BothBits(lo: nat)
    ensures var x := SetBit(SetBit(lo, VALIDON), DIRTYON); x / VALIDON % 2 == 1 && x / DIRTYON % 2 == 1
  {
    ValidIsSet(lo);
    DirtyIsSet(SetBit(lo, VALIDON));
    ValidStaysSet(SetBit(lo, VALIDON));
  }

  lemma ValidQuotient(x: nat, q: nat, r: nat)
    requires x == VALIDON * q + r && r < VALIDON
    ensures x / VALIDON == q
  {
  }

  lemma DirtyQuotient(x: nat, q: nat, r: nat)
    requires x == DIRTYON * q + r && r < DIRTYON
    ensures x / DIRTYON == q
  {
  }

  lemma SameParity(q: nat, n: nat)
    ensures (2 * n + q) % 2 == q % 2
  {
  }

  lemma ValidIsSet(lo: nat)
    ensures SetBit(lo, VALIDON) / VALIDON % 2 == 1
  {
    ValidQuotient(lo + VALIDON, lo / VALIDON + 1, lo % VALIDON);
  }

  lemma DirtyIsSet(lo: nat)
    ensures SetBit(lo, DIRTYON) / DIRTYON % 2 == 1
  {
    DirtyQuotient(lo + DIRTYON, lo / DIRTYON + 1, lo % DIRTYON);
  }

  lemma ValidStaysSet(lo: nat)
    ensures SetBit(lo, DIRTYON) / VALIDON % 2 == lo / VALIDON % 2
  {
    ValidQuotient(lo + DIRTYON, lo / VALIDON + 2, lo % VALIDON);
    SameParity(lo / VALIDON, 1);
  }

  lemma ValidBelow(page: nat, y: nat)
    ensures (page * PAGESIZE + y) / VALIDON % 2 == y / VALIDON % 2
  {
    ValidQuotient(page * PAGESIZE + y, page * 8 + y / VALIDON, y % VALIDON);
    SameParity(y / VALIDON, page * 4);
  }

  lemma DirtyBelow(page: nat, y: nat)
    ensures (page * PAGESIZE + y) / DIRTYON % 2 == y / DIRTYON % 2
  {
    DirtyQuotient(page * PAGESIZE + y, page * 4 + y / DIRTYON, y % DIRTYON);
    SameParity(y / DIRTYON, page * 2);
  }

  /** Flags of a word do not depend on its page number. */
  lemma FlagsBelow(page: nat, y: nat)
    requires y < PAGESIZE
    ensures var w := page * PAGESIZE + y;
            w / VALIDON % 2 == y / VALIDON % 2 && w / DIRTYON % 2 == y / DIRTYON % 2 && w / PAGESIZE == page
  {
    ValidBelow(page, y);
    DirtyBelow(page, y);
  }

  /** Mapping forgets the old frame and makes the entry valid, writable and point at frame f. */
  lemma MappedIsValid(lo: nat, f: nat)
    ensures var lo2 := MappedTo(lo, FrameAddr(f)); Valid(lo2) && lo2 / DIRTYON % 2 == 1 && FrameOf(lo2) == f
  {
    var x := SetBit(SetBit(lo, VALIDON), DIRTYON);
    BothBits(lo);
    FlagsBelow(x / PAGESIZE, x % PAGESIZE);
    FlagsBelow(SWAPPOOL / PAGESIZE + f, x % PAGESIZE);
  }

  lemma RemainderBelow(page: nat, y: nat)
    ensures (page * PAGESIZE + y) % VALIDON == y % VALIDON
  {
    var q, r := y / VALIDON, y % VALIDON;
    assert page * PAGESIZE + y == VALIDON * (page * 8 + q) + r;
    RemainderIs(page * PAGESIZE + y, page * 8 + q, r);
  }

  lemma RemainderIs(x: nat, q: nat, r: nat)
    requires x == VALIDON * q + r && r < VALIDON
    ensures x % VALIDON == r
  {
  }

  /** Setting a bit that is below the top flag of the word carries nothing into it. */
  lemma NoCarry(x: nat, bit: nat)
    requires bit == VALIDON || bit == DIRTYON
    ensures SetBit(x, bit) / TOPFLAG == x / TOPFLAG
  {
    var q, r := x / TOPFLAG, x % TOPFLAG;
    assert x == TOPFLAG * q + r;
    if bit == VALIDON {
      ValidQuotient(x, 4 * q + r / VALIDON, r % VALIDON);
      if x / bit % 2 == 0 { TopQuotient(x + bit, q, r + bit); }
    } else {
      DirtyQuotient(x, 2 * q + r / DIRTYON, r % DIRTYON);
      if x / bit % 2 == 0 { TopQuotient(x + bit, q, r + bit); }
    }
  }

  lemma TopQuotient(x: nat, q: nat, r: nat)
    requires x == TOPFLAG * q + r && r < TOPFLAG
    ensures x / TOPFLAG == q
  {
  }

  lemma TopBelow(page: nat, y: nat)
    requires y < PAGESIZE
    ensures (page * PAGESIZE + y) / TOPFLAG % 2 == y / TOPFLAG % 2
  {
    TopQuotient(page * PAGESIZE + y, page * 2 + y / TOPFLAG, y % TOPFLAG);
    SameParity(y / TOPFLAG, page);
  }

  /** The other flags, below the two bits and above, survive the mapping. */
  lemma MappedKeepsFlags(lo: nat, f: nat)
    ensures var lo2 := MappedTo(lo, FrameAddr(f));
            lo2 % VALIDON == lo % VALIDON && lo2 / TOPFLAG % 2 == lo / TOPFLAG % 2
  {
    NoCarry(lo, VALIDON);
    NoCarry(SetBit(lo, VALIDON), DIRTYON);
    var z := SetBit(SetBit(lo, VALIDON), DIRTYON);
    TopBelow(z / PAGESIZE, z % PAGESIZE);
    TopBelow(SWAPPOOL / PAGESIZE + f, z % PAGESIZE);
    var x := SetBit(lo, VALIDON);
    ValidRemainder(lo);
    var y := SetBit(x, DIRTYON);
    ValidRemainder(x);
    ValidRemainder(x + VALIDON);
    RemainderBelow(y / PAGESIZE, y % PAGESIZE);
    RemainderBelow(SWAPPOOL / PAGESIZE + f, y % PAGESIZE);
  }
}
