/** loader.asm, setup_page: the page directory and tables paging starts with. */
module Boot {
  import opened Common
  import opened Paging
  import opened MemoryState

  /** Address v of the first megabyte shows at v and at 0xc0000000 + v, and user mode may read and write it
      at both. */
  predicate ShownTwice(ram: Ram, v: Word)
    requires v < 0x10_0000
  {
    && Walk(ram, BOOT_DIR, v) == Walk(ram, BOOT_DIR, 0xc000_0000 + v) == Some(v / PAGE)
    && UserAccess(ram, BOOT_DIR, v) && UserAccess(ram, BOOT_DIR, 0xc000_0000 + v)
  }

  lemma FirstMegabyte(ram: Ram, v: Word)
    requires v < 0x10_0000 && Rd(ram, BOOT_DIR, 0) == Entry(FIRST_TABLE) == Rd(ram, BOOT_DIR, KERNEL_PDE)
    requires forall j: Index :: j < 256 ==> Rd(ram, FIRST_TABLE, j) == Entry(j)
    ensures ShownTwice(ram, v)
  {
    AccessIs(ram, BOOT_DIR, v);
    AccessIs(ram, BOOT_DIR, 0xc000_0000 + v);
    assert PteIdx(v) == PteIdx(0xc000_0000 + v) == v / PAGE && PdeIdx(0xc000_0000 + v) == KERNEL_PDE;
  }

  /** loader.asm:228-267, on physical memory. The directory is cleared a word at a time. */
  method SetupPage(before: Ram) returns (ram: Ram)
    ensures KernelHalf(ram, BOOT_DIR) && Rd(ram, BOOT_DIR, 0) == Entry(FIRST_TABLE)
    ensures forall i: Index :: 0 < i < KERNEL_PDE ==> Rd(ram, BOOT_DIR, i) == 0
    ensures forall j: Index :: j < 256 ==> Rd(ram, FIRST_TABLE, j) == Entry(j)
    ensures forall f: FrameNo, j: Index :: f != BOOT_DIR && (f != FIRST_TABLE || j >= 256) ==>
      Rd(ram, f, j) == Rd(before, f, j)
    ensures forall v: Word :: v < 0x10_0000 ==> ShownTwice(ram, v)
  {
    ram := before;
    var esi := 0;
    while esi < 1024
      invariant 0 <= esi <= 1024
      invariant forall i: Index :: i < esi ==> Rd(ram, BOOT_DIR, i) == 0
      invariant forall f: FrameNo, j: Index :: f != BOOT_DIR ==> Rd(ram, f, j) == Rd(before, f, j)
    {
      ram := Wr(ram, BOOT_DIR, esi, 0);
      esi := esi + 1;
    }
    ram := Wr(ram, BOOT_DIR, 0, Entry(FIRST_TABLE));
    ram := Wr(ram, BOOT_DIR, 0xc00 / 4, Entry(FIRST_TABLE));
    ram := Wr(ram, BOOT_DIR, 4092 / 4, Entry(BOOT_DIR));
    ghost var withDir := ram;
    esi := 0;
    var edx: nat := 7;
    while esi < 256
      invariant 0 <= esi <= 256 && edx == 7 + 0x1000 * esi
      invariant forall j: Index :: j < esi ==> Rd(ram, FIRST_TABLE, j) == Entry(j)
      invariant forall f: FrameNo, j: Index :: f != FIRST_TABLE || j >= esi ==> Rd(ram, f, j) == Rd(withDir, f, j)
    {
      ram := Wr(ram, FIRST_TABLE, esi, edx);
      edx := edx + 0x1000;
      esi := esi + 1;
    }
    ghost var withTable := ram;
    var eax: nat := (BOOT_DIR as nat) * PAGE + 0x2000 + 7;
    esi := 769;
    while esi < 769 + 254
      invariant 769 <= esi <= 1023 && eax == (BOOT_DIR as nat) * PAGE + 0x2000 + 7 + 0x1000 * (esi - 769)
      invariant forall i: Index :: 769 <= i < esi ==> Rd(ram, BOOT_DIR, i) == Entry(KernelTable(i))
      invariant forall f: FrameNo, j: Index :: f != BOOT_DIR || j < 769 || j >= esi ==>
        Rd(ram, f, j) == Rd(withTable, f, j)
    {
      ram := Wr(ram, BOOT_DIR, esi, eax);
      esi := esi + 1;
      eax := eax + 0x1000;
    }
    assert KernelTable(KERNEL_PDE) == FIRST_TABLE;
    forall v: Word | v < 0x10_0000 ensures ShownTwice(ram, v) {
      FirstMegabyte(ram, v);
    }
  }
}
