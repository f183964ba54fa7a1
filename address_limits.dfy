/**
 * The allocated-address bounds of the platform layer: a conservative range
 * [lowest, highest) that covers every block the layer has mapped, widened by
 * `UpdateAllocatedSpaceLimits` after each successful `OS::Allocate` and
 * `VirtualMemory::Commit`, and asked by `OS::IsOutsideAllocatedSpace`.
 *
 * Addresses are naturals. `mmap` is an input: the base address it returned,
 * or `None` for `MAP_FAILED`.
 */
module AddressLimits {
  import opened Wrappers

  /** One past the largest address of the 64-bit build. */
  const AddressSpaceEnd: nat := 0x1_0000_0000_0000_0000

  /** `reinterpret_cast<void*>(-1)`: the largest address. */
  const MaxAddress: nat := AddressSpaceEnd - 1

  /** V8's `Min`: the smaller of the two. */
  function Min(a: nat, b: nat): (r: nat)
    ensures r <= a && r <= b && (r == a || r == b)
  {
    if a < b then a else b
  }

  /** V8's `Max`: the larger of the two. */
  function Max(a: nat, b: nat): (r: nat)
    ensures a <= r && b <= r && (r == a || r == b)
  {
    if a < b then b else a
  }

  /** `lowest_ever_allocated` and `highest_ever_allocated`. */
  datatype Limits = Limits(lowest: nat, highest: nat)

  /** The limits before anything is mapped. */
  const InitialLimits: Limits := Limits(MaxAddress, 0)

  /** `OS::IsOutsideAllocatedSpace` on given limits. */
  function IsOutside(l: Limits, address: nat): (r: bool)
    ensures !r <==> l.lowest <= address < l.highest
    ensures l.highest <= l.lowest ==> r
  {
    address < l.lowest || address >= l.highest
  }

  /** `UpdateAllocatedSpaceLimits(address, size)` with the size taken whole. */
  function Widened(l: Limits, address: nat, size: nat): (r: Limits)
    ensures r.lowest <= l.lowest && r.lowest <= address
    ensures r.lowest == l.lowest || r.lowest == address
    ensures l.highest <= r.highest && address + size <= r.highest
    ensures r.highest == l.highest || r.highest == address + size
  {
    Limits(Min(l.lowest, address), Max(l.highest, address + size))
  }

  /** Widening forgets nothing: an address inside stays inside. */
  lemma WidenedKeepsInside(l: Limits, address: nat, size: nat, a: nat)
    requires !IsOutside(l, a)
    ensures !IsOutside(Widened(l, address, size), a)
  {
  }

  /** Widening covers the block it was given. */
  lemma WidenedCoversBlock(l: Limits, address: nat, size: nat, a: nat)
    requires address <= a < address + size
    ensures !IsOutside(Widened(l, address, size), a)
  {
  }

  /** Before anything is mapped, every address is outside. */
  lemma InitiallyOutside(a: nat)
    ensures IsOutside(InitialLimits, a)
  {
  }

  /** A mapped block: its base address and its size in bytes. */
  datatype Block = Block(base: nat, size: nat)

  /** The limits after widening by each block in turn. */
  function WidenedByAll(l: Limits, blocks: seq<Block>): (r: Limits)
  {
    if blocks == [] then l
    else
      var last := blocks[|blocks| - 1];
      Widened(WidenedByAll(l, blocks[..|blocks| - 1]), last.base, last.size)
  }

  /**
   * The range is conservative: after any run of successful mappings, no
   * address of any mapped block is reported outside.
   */
  lemma {:induction false} WidenedByAllCovers(l: Limits, blocks: seq<Block>, i: nat, a: nat)
    requires i < |blocks| && blocks[i].base <= a < blocks[i].base + blocks[i].size
    ensures !IsOutside(WidenedByAll(l, blocks), a)
    decreases |blocks|
  {
    var prefix := blocks[..|blocks| - 1];
    var last := blocks[|blocks| - 1];
    if i == |blocks| - 1 {
      WidenedCoversBlock(WidenedByAll(l, prefix), last.base, last.size, a);
    } else {
      assert prefix[i] == blocks[i];
      WidenedByAllCovers(l, prefix, i, a);
      WidenedKeepsInside(WidenedByAll(l, prefix), last.base, last.size, a);
    }
  }

  /** A run of mappings forgets nothing: an address inside before is still inside after. */
  lemma {:induction false} WidenedByAllKeepsInside(l: Limits, blocks: seq<Block>, a: nat)
    requires !IsOutside(l, a)
    ensures !IsOutside(WidenedByAll(l, blocks), a)
    decreases |blocks|
  {
    if blocks != [] {
      var prefix := blocks[..|blocks| - 1];
      var last := blocks[|blocks| - 1];
      WidenedByAllKeepsInside(l, prefix, a);
      WidenedKeepsInside(WidenedByAll(l, prefix), last.base, last.size, a);
    }
  }

  lemma {:induction false} WidenedByAllMonotone(l: Limits, blocks: seq<Block>)
    ensures WidenedByAll(l, blocks).lowest <= l.lowest
    ensures l.highest <= WidenedByAll(l, blocks).highest
    decreases |blocks|
  {
    if blocks != [] {
      WidenedByAllMonotone(l, blocks[..|blocks| - 1]);
    }
  }

  /**
   * The argument conversion the source performs: `UpdateAllocatedSpaceLimits`
   * declares its size as `int`, so a `size_t` is reduced modulo 2^32 and read
   * as a two's-complement 32-bit value.
   */
  function SizeAsInt(size: nat): (r: int)
    ensures -0x8000_0000 <= r < 0x8000_0000
    ensures size < 0x8000_0000 ==> r == size
    ensures (size - r) % 0x1_0000_0000 == 0
  {
    var w := size % 0x1_0000_0000;
    assert size == (size / 0x1_0000_0000) * 0x1_0000_0000 + w;
    if w < 0x8000_0000 then w else w - 0x1_0000_0000
  }

  /**
   * `UpdateAllocatedSpaceLimits` as written, with its `int size` parameter;
   * the end pointer wraps around the address space like C pointer arithmetic.
   */
  function WidenedAsWritten(l: Limits, address: nat, size: nat): (r: Limits)
    ensures size < 0x8000_0000 && address + size < AddressSpaceEnd ==> r == Widened(l, address, size)
  {
    var end := (address + SizeAsInt(size)) % AddressSpaceEnd;
    Limits(Min(l.lowest, address), if end > l.highest then end else l.highest)
  }

  /**
   * A 2 GiB request at base 2^32 rounds to itself, but after the as-written
   * update its first byte is still reported outside the allocated space:
   * the size wrapped to -2^31, so the high limit ends below the block.
   */
  lemma AsWrittenMissesLargeBlock()
    ensures RoundUp(0x8000_0000, 4096) == 0x8000_0000
    ensures IsOutside(WidenedAsWritten(InitialLimits, 0x1_0000_0000, 0x8000_0000), 0x1_0000_0000)
    ensures !IsOutside(Widened(InitialLimits, 0x1_0000_0000, 0x8000_0000), 0x1_0000_0000)
  {
    assert SizeAsInt(0x8000_0000) == -0x8000_0000;
  }

  /**
   * On the 64-bit build the miss is general: for every size from 2^31 up to
   * 2^32 - 1 mapped at or above 2^31 and above the old high limit, the block's
   * first byte stays outside after the as-written update, and is inside after
   * the corrected one.
   */
  lemma AsWrittenMissesLargeBlocks(l: Limits, address: nat, size: nat)
    requires 0x8000_0000 <= size < 0x1_0000_0000
    requires 0x8000_0000 <= address && address + size < AddressSpaceEnd && l.highest <= address
    ensures IsOutside(WidenedAsWritten(l, address, size), address)
    ensures !IsOutside(Widened(l, address, size), address)
  {
    assert SizeAsInt(size) == size - 0x1_0000_0000;
  }

  /** `RoundUp(x, m)`: the smallest multiple of m that is at least x. */
  function RoundUp(x: nat, m: nat): (r: nat)
    requires m > 0
    ensures x <= r < x + m
    ensures r % m == 0
  {
    var y := x + m - 1;
    var q := y / m;
    assert y == q * m + y % m;
    MultipleMod(q, m);
    q * m
  }

  lemma {:induction false} MultipleMod(q: nat, m: nat)
    requires m > 0
    ensures (q * m) % m == 0
  {
    if q > 0 {
      MultipleMod(q - 1, m);
      assert q * m == (q - 1) * m + m;
      ShiftMod((q - 1) * m, m);
    }
  }

  lemma ShiftMod(a: nat, m: nat)
    requires m > 0
    ensures (a + m) % m == a % m
  {
    var k := a / m + 1;
    assert a + m == k * m + a % m;
    ModUnique(a + m, k, a % m, m);
  }

  /** Euclidean division has one quotient and one remainder. */
  lemma ModUnique(n: int, k: int, r: int, m: int)
    requires m > 0 && 0 <= r < m && n == k * m + r
    ensures n % m == r
  {
    var k', r' := n / m, n % m;
    assert n == k' * m + r';
    var d := k - k';
    assert d * m == r' - r;
  }

  /** The memory protections passed to `mmap`. */
  datatype Protection = Read | Write | Exec

  function Protections(isExecutable: bool): (p: set<Protection>)
    ensures Read in p && Write in p && (Exec in p <==> isExecutable)
  {
    if isExecutable then {Read, Write, Exec} else {Read, Write}
  }

  /** A request made of `mmap`: its size and protections. */
  datatype MmapRequest = MmapRequest(size: nat, protections: set<Protection>)

  /** What `OS::Allocate` returns: NULL, or the base and the `*allocated` size. */
  datatype Allocation = Failed | Allocated(base: nat, size: nat)

  class AllocatedSpace {
    /** `lowest_ever_allocated`. */
    var lowest: nat
    /** `highest_ever_allocated`. */
    var highest: nat

    /** The tracked limits as a value. */
    function Current(): (r: Limits)
      reads this
    {
      Limits(lowest, highest)
    }

    constructor ()
      ensures Current() == InitialLimits
    {
      lowest := MaxAddress;
      highest := 0;
    }

    /** `OS::IsOutsideAllocatedSpace`. */
    function IsOutsideAllocatedSpace(address: nat): (r: bool)
      reads this
      ensures !r <==> lowest <= address < highest
    {
      IsOutside(Current(), address)
    }

    /** `UpdateAllocatedSpaceLimits` with the size taken whole (see `WidenedAsWritten`). */
    method UpdateAllocatedSpaceLimits(address: nat, size: nat)
      modifies this
      ensures Current() == Widened(old(Current()), address, size)
      ensures forall a :: address <= a < address + size ==> !IsOutsideAllocatedSpace(a)
      ensures forall a :: old(!IsOutsideAllocatedSpace(a)) ==> !IsOutsideAllocatedSpace(a)
    {
      lowest := Min(lowest, address);
      highest := Max(highest, address + size);
    }

    /**
     * `OS::Allocate`: rounds the request up to whole pages, maps it, and on
     * success widens the limits by the mapped block. `mapped` is what `mmap`
     * returned and `pageSize` what `getpagesize` returned.
     */
    method Allocate(requested: nat, isExecutable: bool, pageSize: nat, mapped: Option<nat>)
      returns (result: Allocation, request: MmapRequest)
      requires pageSize > 0
      modifies this
      ensures request == MmapRequest(RoundUp(requested, pageSize), Protections(isExecutable))
      ensures mapped.None? ==> result == Failed && Current() == old(Current())
      ensures mapped.Some? ==>
                && result == Allocated(mapped.value, request.size)
                && Current() == Widened(old(Current()), mapped.value, request.size)
      ensures result.Allocated? ==>
                && requested <= result.size && result.size % pageSize == 0
                && forall a :: result.base <= a < result.base + result.size ==> !IsOutsideAllocatedSpace(a)
    {
      var msize := RoundUp(requested, pageSize);
      request := MmapRequest(msize, Protections(isExecutable));
      if mapped.None? {
        return Failed, request;
      }
      UpdateAllocatedSpaceLimits(mapped.value, msize);
      result := Allocated(mapped.value, msize);
    }

    /**
     * `VirtualMemory::Commit`: maps the block at a fixed address and on success
     * widens the limits by it. `mmapOk` says whether `mmap` succeeded.
     */
    method Commit(address: nat, size: nat, isExecutable: bool, mmapOk: bool)
      returns (ok: bool, request: MmapRequest)
      modifies this
      ensures request == MmapRequest(size, Protections(isExecutable))
      ensures ok == mmapOk
      ensures Current() == if ok then Widened(old(Current()), address, size) else old(Current())
      ensures ok ==> forall a :: address <= a < address + size ==> !IsOutsideAllocatedSpace(a)
    {
      request := MmapRequest(size, Protections(isExecutable));
      if !mmapOk {
        return false, request;
      }
      UpdateAllocatedSpaceLimits(address, size);
      ok := true;
    }
  }
}
