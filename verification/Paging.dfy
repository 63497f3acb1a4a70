/** Physical memory as frames of 1024 words, the two-level page walk of 32-bit paging (Intel
    SDM Volume 3A, section 4.3), and the recursive self-map the kernel edits it through.

    Masks and shifts by constants are written as the division and remainder by powers of two
    they are on unsigned 32-bit values. */
module Paging {
  import opened Common

  type FrameNo = n: nat | n < 0x10_0000
  type Index = n: nat | n < 1024

  function Zeros(): (s: seq<Word>)
    ensures |s| == 1024 && forall i :: 0 <= i < 1024 ==> s[i] == 0
  {
    seq(1024, _ => 0)
  }

  type Frame = s: seq<Word> | |s| == 1024 witness Zeros()

  /** Frames not in the map hold zeros; every statement is for an arbitrary map. */
  type Ram = map<FrameNo, Frame>

  function Page(ram: Ram, f: FrameNo): Frame {
    if f in ram then ram[f] else Zeros()
  }

  function Rd(ram: Ram, f: FrameNo, i: Index): Word {
    Page(ram, f)[i]
  }

  function Wr(ram: Ram, f: FrameNo, i: Index, w: Word): (r: Ram)
    ensures forall g: FrameNo, j: Index :: Rd(r, g, j) == if g == f && j == i then w else Rd(ram, g, j)
  {
    ram[f := Page(ram, f)[i := w]]
  }

  function ZeroFrame(ram: Ram, f: FrameNo): (r: Ram)
    ensures forall g: FrameNo, j: Index :: Rd(r, g, j) == if g == f then 0 else Rd(ram, g, j)
  {
    ram[f := Zeros()]
  }

  predicate Present(w: Word) {
    w % 2 == 1
  }

  function FrameOf(w: Word): FrameNo {
    w / PAGE
  }

  /** The R/W and U/S flags of an entry, bits 1 and 2: where both are set in both entries, user mode may
      read and write (Intel SDM Volume 3A, section 4.6). */
  predicate Writable(w: Word) {
    w % 4 >= 2
  }

  predicate ForUser(w: Word) {
    w % 8 >= 4
  }

  /** Both at once. */
  predicate Permits(w: Word) {
    w % 8 >= 6
  }

  lemma PermitsIs(w: Word)
    ensures Permits(w) <==> Writable(w) && ForUser(w)
  {
    assert w % 8 == w % 4 || w % 8 == w % 4 + 4;
  }

  /** `address | 0b0111` for a page-aligned address: present, writable, user. */
  function Entry(f: FrameNo): (w: Word)
    ensures Present(w) && FrameOf(w) == f && Permits(w)
  {
    f * PAGE + 7
  }

  /** memory.c:19. */
  function PdeIdx(va: Word): Index {
    va / 0x40_0000
  }

  /** memory.c:21. */
  function PteIdx(va: Word): Index {
    va / PAGE % 1024
  }

  /** The word of its page that an address points to. */
  function WordIdx(va: Word): Index {
    va % PAGE / 4
  }

  /** The page walk: directory entry, table entry, frame. */
  function Walk(ram: Ram, dir: FrameNo, va: Word): Option<FrameNo> {
    var pde := Rd(ram, dir, PdeIdx(va));
    if !Present(pde) then None else
    var pte := Rd(ram, FrameOf(pde), PteIdx(va));
    if !Present(pte) then None else Some(FrameOf(pte))
  }

  /** User mode may read and write the address: both entries of its walk are present and permit it. */
  predicate UserAccess(ram: Ram, dir: FrameNo, va: Word) {
    var pde := Rd(ram, dir, PdeIdx(va));
    && Present(pde) && Writable(pde) && ForUser(pde)
    && var pte := Rd(ram, FrameOf(pde), PteIdx(va)); Present(pte) && Writable(pte) && ForUser(pte)
  }

  lemma AccessIs(ram: Ram, dir: FrameNo, va: Word)
    ensures UserAccess(ram, dir, va) <==>
      && Walk(ram, dir, va).Some? && Permits(Rd(ram, dir, PdeIdx(va)))
      && Permits(Rd(ram, FrameOf(Rd(ram, dir, PdeIdx(va))), PteIdx(va)))
  {
    PermitsIs(Rd(ram, dir, PdeIdx(va)));
    PermitsIs(Rd(ram, FrameOf(Rd(ram, dir, PdeIdx(va))), PteIdx(va)));
  }

  /** memory.c:89-94. */
  function PtePtr(va: Word): (p: Word)
    ensures p % 4 == 0
  {
    0xffc0_0000 + PdeIdx(va) * 0x1000 + PteIdx(va) * 4
  }

  /** memory.c:99-103. */
  function PdePtr(va: Word): (p: Word)
    ensures p % 4 == 0
  {
    0xffff_f000 + PdeIdx(va) * 4
  }

  predicate SelfMapped(ram: Ram, dir: FrameNo) {
    Present(Rd(ram, dir, 1023)) && FrameOf(Rd(ram, dir, 1023)) == dir
  }

  /** The address whose walk has directory index d, table index t and word w. */
  function AddressOf(d: Index, t: Index, w: Index): Word {
    d * 0x40_0000 + t * 0x1000 + w * 4
  }

  lemma Split(d: Index, t: Index, w: Index)
    ensures PdeIdx(AddressOf(d, t, w)) == d
    ensures PteIdx(AddressOf(d, t, w)) == t
    ensures WordIdx(AddressOf(d, t, w)) == w && AddressOf(d, t, w) % PAGE == w * 4
  {
    var va := AddressOf(d, t, w);
    assert va / PAGE == d * 1024 + t && va % PAGE == w * 4;
  }

  /** In a directory that maps itself at entry 1023, pde_ptr reaches v's directory entry, and
      pte_ptr reaches v's table entry just when there is a table to reach it in. */
  lemma SelfMap(ram: Ram, dir: FrameNo, v: Word)
    requires SelfMapped(ram, dir)
    ensures Walk(ram, dir, PdePtr(v)) == Some(dir) && WordIdx(PdePtr(v)) == PdeIdx(v)
    ensures Walk(ram, dir, PtePtr(v)) ==
      if Present(Rd(ram, dir, PdeIdx(v))) then Some(FrameOf(Rd(ram, dir, PdeIdx(v)))) else None
    ensures WordIdx(PtePtr(v)) == PteIdx(v)
    ensures PtePtr(v) - PtePtr(v) % PAGE == 0xffc0_0000 + PdeIdx(v) * 0x1000
  {
    assert PdePtr(v) == AddressOf(1023, 1023, PdeIdx(v));
    assert PtePtr(v) == AddressOf(1023, PdeIdx(v), PteIdx(v));
    Split(1023, 1023, PdeIdx(v));
    Split(1023, PdeIdx(v), PteIdx(v));
  }

  /** The table of v shows at the page of pte_ptr(v). */
  lemma TableShows(ram: Ram, dir: FrameNo, v: Word)
    requires SelfMapped(ram, dir) && Present(Rd(ram, dir, PdeIdx(v)))
    ensures var pte, t := PtePtr(v), FrameOf(Rd(ram, dir, PdeIdx(v)));
      && (pte - pte % PAGE) % PAGE == 0 && WordIdx(pte) == PteIdx(v)
      && Walk(ram, dir, pte) == Walk(ram, dir, pte - pte % PAGE) == Some(t)
  {
    SelfMap(ram, dir, v);
    var first := PtePtr(v) - PtePtr(v) % PAGE;
    assert first == AddressOf(1023, PdeIdx(v), 0);
    Split(1023, PdeIdx(v), 0);
  }

  /** memory.c:266-270; None is a page fault on the table. */
  function VaddrToPaddr(ram: Ram, dir: FrameNo, va: Word): Option<Word> {
    var f := Walk(ram, dir, PtePtr(va));
    if f == None then None else
    Some(FrameOf(Rd(ram, f.value, WordIdx(PtePtr(va)))) * PAGE + va % PAGE)
  }

  /** vaddr_to_paddr is the page walk for every mapped address. */
  lemma VaddrToPaddrIsWalk(ram: Ram, dir: FrameNo, va: Word)
    requires SelfMapped(ram, dir)
    ensures Walk(ram, dir, va).Some? ==> VaddrToPaddr(ram, dir, va) == Some(Walk(ram, dir, va).value * PAGE + va % PAGE)
    ensures VaddrToPaddr(ram, dir, va).Some? <==> Present(Rd(ram, dir, PdeIdx(va)))
  {
    SelfMap(ram, dir, va);
  }
}
