/** bitmap.c: a bit map packed into bytes, and the first-fit search for a run of clear bits.

    The memory behind the bitmap is part of the model: the search looks at one byte past the
    end, and for runs of two or more it treats the lowest bit of that byte, the guard, as one
    more bit of the map. */
module Bitmaps {

  datatype Found = At(start: nat) | Nowhere | Panic

  predicate Bit(byte: bv8, k: nat)
    requires k < 8
  {
    byte & (1 << k) != 0
  }

  function Changed(byte: bv8, k: nat, value: int): bv8
    requires k < 8
  {
    if value != 0 then byte | (1 << k) else byte & !(1 << k)
  }

  lemma ChangeBit(byte: bv8, k: nat, value: int, j: nat)
    requires k < 8 && j < 8
    ensures Bit(Changed(byte, k, value), j) == if j == k then value != 0 else Bit(byte, j)
  {
    Masks(k, j);
    Masked(byte, 1 << k, 1 << j);
  }

  /** One-bit masks differ in the bit they have. */
  lemma Masks(k: nat, j: nat)
    requires k < 8 && j < 8
    ensures 1 as bv8 << k != 0 && (1 as bv8 << k) & (1 << j) == if j == k then 1 << k else 0
  {
  }

  lemma Masked(byte: bv8, mask: bv8, other: bv8)
    requires mask & other == 0 || mask == other
    ensures (byte | mask) & other == if mask == other then mask else byte & other
    ensures (byte & !mask) & other == if mask == other then 0 else byte & other
  {
  }

  lemma AllSet(byte: bv8)
    ensures byte == 0xff <==> forall k: nat :: k < 8 ==> Bit(byte, k)
  {
    if forall k: nat :: k < 8 ==> Bit(byte, k) {
      assert Bit(byte, 0) && Bit(byte, 1) && Bit(byte, 2) && Bit(byte, 3);
      assert Bit(byte, 4) && Bit(byte, 5) && Bit(byte, 6) && Bit(byte, 7);
    }
  }

  // ----- what a search means, on a sequence of used-flags

  ghost predicate ClearRun(used: seq<bool>, start: nat, n: nat) {
    start + n <= |used| && forall i :: start <= i < start + n ==> !used[i]
  }

  /** No run of n clear flags among the first `end` ones. */
  ghost predicate NoRun(used: seq<bool>, n: nat, end: nat) {
    forall q: nat :: q + n <= end ==> !ClearRun(used, q, n)
  }

  ghost predicate FirstRun(used: seq<bool>, start: nat, n: nat) {
    ClearRun(used, start, n) && forall q: nat :: q < start ==> !ClearRun(used, q, n)
  }

  ghost predicate AllUsed(used: seq<bool>) {
    forall i :: 0 <= i < |used| ==> used[i]
  }

  /** What the search may answer for a bitmap and the bit behind it. */
  ghost predicate Answers(found: Found, bits: seq<bool>, guard: bool, n: nat) {
    && (found == Panic <==> AllUsed(bits))
    && (found.At? ==> FirstRun(bits + [guard], found.start, n))
    && (found == Nowhere ==> NoRun(bits + [guard], n, |bits| + 1))
  }

  /** First fit from index `from` on. */
  function FirstFit(used: seq<bool>, n: nat, from: nat): (found: Found)
    requires n > 0
    ensures found != Panic
    ensures found.At? ==> from <= found.start && ClearRun(used, found.start, n)
    ensures forall q: nat :: from <= q && (found.At? ==> q < found.start) ==> !ClearRun(used, q, n)
    decreases |used| - from
  {
    if from + n > |used| then Nowhere
    else if forall i :: from <= i < from + n ==> !used[i] then At(from)
    else FirstFit(used, n, from + 1)
  }

  /** The answer as a function of the flags. */
  function Search(bits: seq<bool>, guard: bool, n: nat): (found: Found)
    requires n > 0
    ensures Answers(found, bits, guard, n)
  {
    if forall i :: 0 <= i < |bits| ==> bits[i] then Panic else FirstFit(bits + [guard], n, 0)
  }

  /** After the first clear bit, the place behind the next used one, if there is one. */
  ghost predicate NextUsed(found: Found, used: seq<bool>, first: nat) {
    match found
    case At(start) => first + 2 <= start <= |used| && used[start - 1] && forall i :: first < i < start - 1 ==> !used[i]
    case Nowhere => forall i :: first < i < |used| ==> !used[i]
    case Panic => false
  }

  /** What a request for no bits answers. */
  ghost predicate AnswersNone(found: Found, bits: seq<bool>, guard: bool) {
    if AllUsed(bits) then found == Panic else
    exists first: nat :: first < |bits| && !bits[first] && (forall i :: 0 <= i < first ==> bits[i]) &&
      NextUsed(found, bits + [guard], first)
  }

  lemma AnswersUnique(found: Found, bits: seq<bool>, guard: bool, n: nat)
    requires n > 0 && Answers(found, bits, guard, n)
    ensures found == Search(bits, guard, n)
  {
    var other := Search(bits, guard, n);
    if found.At? && other.At? {
      assert !(found.start < other.start) && !(other.start < found.start);
    }
  }

  /** The search answers for the bitmap alone, whatever lies behind it, unless the guard is
      clear, no run fits inside, and the last n - 1 bits are clear: then, and only then, it
      returns a run that ends one bit past the end. */
  lemma OverrunExactly(bits: seq<bool>, guard: bool, n: nat)
    requires n > 0
    ensures Search(bits, guard, n) != Search(bits, true, n) <==>
      !guard && 1 < n <= |bits| + 1 && NoRun(bits, n, |bits|) && ClearRun(bits, |bits| + 1 - n, n - 1)
    ensures Search(bits, guard, n) != Search(bits, true, n) ==> Search(bits, guard, n) == At(|bits| + 1 - n)
  {
    RunsInside(bits, guard, n);
    RunsInside(bits, true, n);
    var there := Search(bits, true, n);
    var last := |bits| + 1 - n;
    var here := if there != Nowhere then there
                else if last >= 0 && ClearRun(bits + [guard], last, n) then At(last) else Nowhere;
    assert Answers(here, bits, guard, n);
    AnswersUnique(here, bits, guard, n);
    if there == Panic && n > 1 && last >= 0 {
      assert bits != [] ==> bits[|bits| - 1];
    }
    if there == Nowhere && n == 1 {
      forall i | 0 <= i < |bits| ensures bits[i] { assert !ClearRun(bits, i, 1); }
    }
  }

  /** It can: two bits asked of a bitmap with only the last one clear, and a clear bit behind. */
  lemma OverrunHappens()
    ensures var bits := [true, true, true, true, true, true, true, false];
      Search(bits, false, 2) == At(7) && Search(bits, true, 2) == Nowhere
  {
    var bits := [true, true, true, true, true, true, true, false];
    forall q: nat | q + 2 <= |bits| ensures !ClearRun(bits, q, 2) {
      assert bits[q];
    }
    OverrunExactly(bits, false, 2);
    assert !bits[7];
    forall q: nat ensures !ClearRun(bits + [true], q, 2) {
      assert q + 2 <= 9 ==> (bits + [true])[q] || (bits + [true])[q + 1];
    }
    assert Answers(Nowhere, bits, true, 2);
    AnswersUnique(Nowhere, bits, true, 2);
  }

  lemma RunsInside(bits: seq<bool>, guard: bool, n: nat)
    requires n > 0
    ensures forall q: nat :: ClearRun(bits + [guard], q, n) <==>
      ClearRun(bits, q, n) || (q + n == |bits| + 1 && !guard && ClearRun(bits, q, n - 1))
  {
    forall q: nat
      ensures ClearRun(bits + [guard], q, n) <==>
        ClearRun(bits, q, n) || (q + n == |bits| + 1 && !guard && ClearRun(bits, q, n - 1))
    {
      RunInside(bits, guard, q, n);
    }
  }

  /** Runs of the map and of the map with its guard. */
  lemma RunInside(bits: seq<bool>, guard: bool, q: nat, n: nat)
    requires n > 0
    ensures q + n <= |bits| ==> (ClearRun(bits + [guard], q, n) <==> ClearRun(bits, q, n))
    ensures q + n == |bits| + 1 ==> (ClearRun(bits + [guard], q, n) <==> !guard && ClearRun(bits, q, n - 1))
    ensures q + n > |bits| + 1 ==> !ClearRun(bits + [guard], q, n)
  {
    var all := bits + [guard];
    assert all[|bits|] == guard;
    assert forall i :: 0 <= i < |bits| ==> all[i] == bits[i];
    if q + n <= |bits| && ClearRun(all, q, n) {
      forall i | q <= i < q + n ensures !bits[i] { assert !all[i]; }
    }
    if q + n == |bits| + 1 && ClearRun(all, q, n) {
      assert !all[|bits|];
      forall i | q <= i < q + n - 1 ensures !bits[i] { assert !all[i]; }
    }
  }

  class Bitmap {
    /** The bytes at and behind `bits`; the bitmap is the first `length` of them. */
    const storage: array<bv8>
    const length: nat

    ghost predicate Valid() {
      length < storage.Length
    }

    ghost predicate Used(i: nat)
      requires i < 8 * storage.Length
      reads storage
    {
      Bit(storage[i / 8], i % 8)
    }

    /** The first n flags. */
    ghost function Flags(n: nat): (s: seq<bool>)
      requires n <= 8 * storage.Length
      ensures |s| == n && forall i :: 0 <= i < n ==> s[i] == Used(i)
      reads storage
    {
      seq(n, i requires 0 <= i < n reads storage => Used(i))
    }

    /** The flags of the bitmap. */
    ghost function Bits(): seq<bool>
      requires Valid()
      reads storage
    {
      Flags(8 * length)
    }

    constructor (storage: array<bv8>, length: nat)
      requires length < storage.Length
      ensures this.storage == storage && this.length == length && Valid()
    {
      this.storage, this.length := storage, length;
    }

    /** bitmap.c:7-9. */
    method Init()
      requires Valid()
      modifies storage
      ensures forall i: nat :: i < 8 * storage.Length ==> Used(i) == (i >= 8 * length && old(Used(i)))
    {
      var n := 0;
      while n < length
        invariant n <= length
        invariant forall k :: 0 <= k < n ==> storage[k] == 0
        invariant forall k :: n <= k < storage.Length ==> storage[k] == old(storage[k])
      {
        storage[n] := 0;
        n := n + 1;
      }
    }

    /** bitmap.c:15-19. */
    method GetBit(i: nat) returns (used: bool)
      requires i < 8 * storage.Length
      ensures used == Used(i)
    {
      var index0 := i / 8;
      var index1 := i % 8;
      used := storage[index0] & (1 << index1) != 0;
    }

    /** bitmap.c:25-33. */
    method SetBit(i: nat, value: int)
      requires i < 8 * storage.Length
      modifies storage
      ensures forall j: nat :: j < 8 * storage.Length ==> Used(j) == if j == i then value != 0 else old(Used(j))
    {
      var index0 := i / 8;
      var index1 := i % 8;
      if value != 0 {
        storage[index0] := storage[index0] | (1 << index1);
      } else {
        storage[index0] := storage[index0] & !(1 << index1);
      }
      assert storage[index0] == Changed(old(storage[index0]), index1, value);
      forall j: nat | j < 8 * storage.Length
        ensures Used(j) == if j == i then value != 0 else old(Used(j))
      {
        if j / 8 == index0 {
          ChangeBit(old(storage[index0]), index1, value, j % 8);
        }
      }
    }

    /** bitmap.c:39-48: the first byte with a clear bit. */
    method FirstByte() returns (idxByte: nat)
      requires Valid()
      ensures idxByte <= length && forall i: nat :: i < 8 * idxByte ==> Used(i)
      ensures idxByte < length ==> storage[idxByte] != 0xff
    {
      idxByte := 0;
      while storage[idxByte] == 0xff && idxByte < length
        invariant idxByte <= length
        invariant forall i: nat :: i < 8 * idxByte ==> Used(i)
        decreases length - idxByte
      {
        AllSet(storage[idxByte]);
        idxByte := idxByte + 1;
      }
    }

    /** bitmap.c:50-55: the first clear bit. */
    method FirstClear(idxByte: nat) returns (start: nat)
      requires Valid() && idxByte < length && storage[idxByte] != 0xff
      requires forall i: nat :: i < 8 * idxByte ==> Used(i)
      ensures start < 8 * length && !Used(start) && forall i: nat :: i < start ==> Used(i)
    {
      AllSet(storage[idxByte]);
      var idxBit := 0;
      while (1 << idxBit) & storage[idxByte] != 0
        invariant idxBit < 8 && forall k: nat :: k < idxBit ==> Bit(storage[idxByte], k)
        decreases 8 - idxBit
      {
        assert Bit(storage[idxByte], idxBit);
        assert exists k: nat :: k < 8 && !Bit(storage[idxByte], k);
        idxBit := idxBit + 1;
      }
      start := idxByte * 8 + idxBit;
    }

    /** bitmap.c:39-78. A request for no bits is answered oddly: see AnswersNone. */
    method RequestBits(n: nat) returns (found: Found)
      requires Valid()
      ensures n > 0 ==> found == Search(Bits(), Used(8 * length), n)
      ensures n == 0 ==> AnswersNone(found, Bits(), Used(8 * length))
    {
      ghost var guard := Used(8 * length);
      assert Bits() + [guard] == Flags(8 * length + 1);
      var idxByte := FirstByte();
      if !(idxByte < length) {
        found := Panic;
        if n > 0 {
          AnswersUnique(found, Bits(), guard, n);
        }
        return;
      }
      var bitIdxStart := FirstClear(idxByte);
      assert !Bits()[bitIdxStart];
      ghost var all := Flags(8 * length + 1);
      if n == 1 {
        forall q: nat | q < bitIdxStart ensures !ClearRun(all, q, 1) {
          assert all[q];
        }
        found := At(bitIdxStart);
      } else {
        found := ScanRuns(n, bitIdxStart, all);
      }
      if n > 0 {
        AnswersUnique(found, Bits(), guard, n);
      } else {
        assert all == Bits() + [guard];
      }
    }

    /** bitmap.c:60-77: from the first clear bit on. */
    method ScanRuns(n: nat, first: nat, ghost all: seq<bool>) returns (found: Found)
      requires Valid() && n != 1 && first < 8 * length
      requires |all| == 8 * length + 1 && forall i: nat :: i < |all| ==> all[i] == Used(i)
      requires !all[first] && forall i: nat :: i < first ==> all[i]
      ensures found != Panic
      ensures n > 0 && found.At? ==> FirstRun(all, found.start, n)
      ensures n > 0 && found == Nowhere ==> NoRun(all, n, |all|)
      ensures n == 0 ==> NextUsed(found, all, first)
    {
      var bitLeft := length * 8 - first;
      var nextBit := first + 1;
      var count := 1;
      ScanStart(all, n, first);
      while bitLeft > 0
        invariant nextBit + bitLeft == 8 * length + 1 && Scanned(all, n, first, nextBit, count)
      {
        bitLeft := bitLeft - 1;
        var used := GetBit(nextBit);
        assert used == all[nextBit];
        ScanNext(all, n, first, nextBit, count);
        if !used {
          count := count + 1;
        } else {
          count := 0;
        }
        if count == n {
          return At(nextBit - n + 1);
        }
        nextBit := nextBit + 1;
      }
      return Nowhere;
    }
  }

  /** What the loop knows before it looks at flag `next`: the last `count` flags are clear and the
      one before them, from `first` on, is used; no run has been found. */
  ghost predicate Scanned(all: seq<bool>, n: nat, first: nat, next: nat, count: nat) {
    && first < next <= |all| && count <= next && ClearRun(all, next - count, count)
    && (next == count || all[next - count - 1])
    && (if n > 0 then count < n && NoRun(all, n, next) else count == next - first)
  }

  lemma ScanStart(all: seq<bool>, n: nat, first: nat)
    requires n != 1 && first < |all| && !all[first] && forall i :: 0 <= i < first ==> all[i]
    ensures Scanned(all, n, first, first + 1, 1)
  {
    if n > 0 {
      forall q: nat | q + n <= first + 1 ensures !ClearRun(all, q, n) {
        assert all[q];
      }
    }
  }

  /** One more flag: either this ends the search, or the loop goes on. */
  lemma ScanNext(all: seq<bool>, n: nat, first: nat, next: nat, count: nat)
    requires next < |all| && Scanned(all, n, first, next, count)
    ensures var more := if all[next] then 0 else count + 1;
      if more != n then Scanned(all, n, first, next + 1, more)
      else if n > 0 then n <= next + 1 && FirstRun(all, next + 1 - n, n)
      else NextUsed(At(next + 1), all, first)
  {
    if n > 0 {
      LongerRun(all, n, next, count);
    }
  }

  /** Looking at one more flag, `next`, after the last `count` ones were clear. */
  lemma LongerRun(used: seq<bool>, n: nat, next: nat, count: nat)
    requires next < |used| && count <= next && count < n
    requires ClearRun(used, next - count, count) && (next == count || used[next - count - 1])
    requires NoRun(used, n, next)
    ensures !used[next] ==> ClearRun(used, next - count, count + 1)
    ensures !used[next] && count + 1 == n ==> FirstRun(used, next - count, n)
    ensures used[next] || count + 1 < n ==> NoRun(used, n, next + 1)
  {
    if used[next] || count + 1 < n {
      forall q: nat | q + n <= next + 1 ensures !ClearRun(used, q, n) {
        if q + n == next + 1 {
          assert used[if used[next] then next else next - count - 1];
        }
      }
    }
  }
}
