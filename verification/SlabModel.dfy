/**
 The slab allocator of sandook/mem/slab.cc:63-228 on abstract stacks: per-core
 free stacks, one global stack per size class and a bump pointer.  Each
 operation is one atomic step of the core that performs it; the transfer cache
 is off (kEnableTransferCache, slab.h:51).
 */
module SlabModel {
  import opened Wrappers
  import opened Numbers

  const MIN_SHIFT: nat := 5
  const MAX_SHIFT: nat := 35
  const MAX_CACHE_BYTES: nat := 32768
  const MAX_CACHE_ENTRIES: nat := 64
  const HEADER_BYTES: nat := 16
  const ALIGNMENT: nat := 16

  // ---------------------------------------------------------------- size classes

  lemma FloorLog2AtLeast(n: nat, k: nat)
    requires n >= 1 && Pow2(k) <= n
    ensures FloorLog2(n) >= k
  {
    FloorLog2Bounds(n);
    Pow2Reflects(k, FloorLog2(n) + 1);
  }

  function SlabShift(size: nat): (shift: nat)
    ensures shift >= MIN_SHIFT
  {
    if size <= 32 then MIN_SHIFT
    else
      assert Pow2(5) == 32;
      FloorLog2AtLeast(size - 1, MIN_SHIFT);
      FloorLog2(size - 1) + 1
  }

  function SlabSize(shift: nat): nat {
    Pow2(shift) + HEADER_BYTES
  }

  /** min(kMaxCacheEntries, kMaxCacheSizeBytes / 2^shift), the quotient written as a power of two. */
  function MaxCacheEntries(shift: nat): nat {
    var n := if shift <= 15 then Pow2(15 - shift) else 0;
    if n < MAX_CACHE_ENTRIES then n else MAX_CACHE_ENTRIES
  }

  lemma MaxCacheEntriesIsQuotient(shift: nat)
    ensures MaxCacheEntries(shift) ==
            if MAX_CACHE_BYTES / Pow2(shift) < MAX_CACHE_ENTRIES then MAX_CACHE_BYTES / Pow2(shift) else MAX_CACHE_ENTRIES
  {
    assert Pow2(15) == MAX_CACHE_BYTES;
    if shift <= 15 {
      Pow2Sum(shift, 15 - shift);
      QuotientExact(Pow2(15 - shift), Pow2(shift));
    } else {
      Pow2Monotone(16, shift);
      QuotientSmall(MAX_CACHE_BYTES, Pow2(shift));
    }
  }

  lemma {:induction false} Pow2Sum(a: nat, b: nat)
    ensures Pow2(a) * Pow2(b) == Pow2(a + b)
  {
    if a > 0 {
      Pow2Sum(a - 1, b);
      assert Pow2(a) * Pow2(b) == 2 * (Pow2(a - 1) * Pow2(b));
    }
  }

  lemma QuotientExact(q: nat, d: nat)
    requires d > 0
    ensures (d * q) / d == q
  {
    var n := d * q;
    var x, r := n / d, n % d;
    assert n == d * x + r && 0 <= r < d;
    ScaledGap(d, q, x);
  }

  lemma ScaledMonotone(d: int, x: int, y: int)
    requires d >= 0 && x <= y
    ensures d * x <= d * y
  {
  }

  lemma ScaledGap(d: int, q: int, x: int)
    requires d > 0
    ensures x < q ==> d * q >= d * x + d
    ensures x > q ==> d * x >= d * q + d
  {
    if x < q {
      ScaledMonotone(d, x + 1, q);
    } else if x > q {
      ScaledMonotone(d, q + 1, x);
    }
  }

  lemma QuotientSmall(a: nat, d: nat)
    requires a < d
    ensures a / d == 0
  {
  }

  /** The chosen class is the smallest one whose payload fits. */
  lemma SlabShiftIsTight(size: nat)
    ensures size <= Pow2(SlabShift(size))
    ensures forall shift :: MIN_SHIFT <= shift < SlabShift(size) ==> Pow2(shift) < size
  {
    assert Pow2(5) == 32;
    if size > 32 {
      var k := FloorLog2(size - 1);
      FloorLog2Bounds(size - 1);
      forall shift | MIN_SHIFT <= shift < SlabShift(size) ensures Pow2(shift) < size {
        Pow2Monotone(shift, k);
      }
    }
  }

  lemma {:induction false} SlabSizeFacts(shift: nat)
    requires shift >= MIN_SHIFT
    ensures SlabSize(shift) >= 48 && SlabSize(shift) % ALIGNMENT == 0
  {
    assert Pow2(5) == 32;
    if shift > MIN_SHIFT {
      SlabSizeFacts(shift - 1);
    }
  }

  // ---------------------------------------------------------------- state

  datatype ListId = Global(shift: nat) | Core(core: nat, shift: nat)

  /**
   `stacks(id)` is the contents of a free list, bottom first; `size(b)` is the size
   requested for the live block that starts at `b`, 0 if no live block starts there.
   */
  datatype State = State(start: nat, end: nat, cores: nat, cur: nat,
                         stacks: ListId -> seq<nat>, size: nat -> nat)

  ghost predicate ValidId(cores: nat, id: ListId) {
    MIN_SHIFT <= id.shift <= MAX_SHIFT && (id.Core? ==> id.core < cores)
  }

  /** Where a carved block can be. */
  datatype Place = Listed(id: ListId, i: nat) | Allocated(block: nat)

  ghost predicate Present(st: State, p: Place) {
    match p
    case Listed(id, i) => i < |st.stacks(id)|
    case Allocated(b) => st.size(b) > 0
  }

  ghost function Addr(st: State, p: Place): nat
    requires Present(st, p)
  {
    match p
    case Listed(id, i) => st.stacks(id)[i]
    case Allocated(b) => b
  }

  ghost function Shift(st: State, p: Place): nat {
    match p
    case Listed(id, i) => id.shift
    case Allocated(b) => SlabShift(st.size(b))
  }

  ghost function End(st: State, p: Place): nat
    requires Present(st, p)
  {
    Addr(st, p) + SlabSize(Shift(st, p))
  }

  ghost predicate Shape(st: State) {
    && 0 < st.start && st.start % ALIGNMENT == 0 && st.cur % ALIGNMENT == 0
    && st.start <= st.cur && (st.cur <= st.end || st.cur == st.start)
    && (forall id :: st.stacks(id) != [] ==> ValidId(st.cores, id))
    && (forall b :: st.size(b) > 0 ==> SlabShift(st.size(b)) <= MAX_SHIFT)
  }

  ghost predicate InRange(st: State) {
    forall p :: Present(st, p) ==>
      st.start <= Addr(st, p) && End(st, p) <= st.cur && Addr(st, p) % ALIGNMENT == 0
  }

  ghost predicate Separate(st: State) {
    forall p, q :: Present(st, p) && Present(st, q) && p != q ==>
      End(st, p) <= Addr(st, q) || End(st, q) <= Addr(st, p)
  }

  ghost predicate Covers(st: State, p: Place, a: int) {
    Present(st, p) && Addr(st, p) <= a < End(st, p)
  }

  ghost predicate Covered(st: State, a: int) {
    exists p :: Covers(st, p, a)
  }

  /** No carved byte is lost. */
  ghost predicate Tiled(st: State) {
    forall a :: st.start <= a < st.cur ==> Covered(st, a)
  }

  /** Every carved block is in exactly one place. */
  ghost predicate Inv(st: State) {
    Shape(st) && InRange(st) && Separate(st) && Tiled(st)
  }

  ghost function Initial(start: nat, end: nat, cores: nat): State {
    State(start, end, cores, start, id => [], b => 0)
  }

  lemma InitialInv(start: nat, end: nat, cores: nat)
    requires 0 < start && start % ALIGNMENT == 0
    ensures Inv(Initial(start, end, cores)) && CachesBounded(Initial(start, end, cores))
  {
  }

  /** The parts of the state no operation changes. */
  ghost predicate SameArena(st: State, st': State) {
    st'.start == st.start && st'.end == st.end && st'.cores == st.cores
  }

  // ---------------------------------------------------------------- moving one block

  /** One block changes place and nothing else changes. */
  ghost predicate Relocates(st: State, st': State, src: Place, dst: Place) {
    && SameArena(st, st') && st'.cur == st.cur
    && Present(st, src) && !Present(st', src) && Present(st', dst) && !Present(st, dst)
    && Addr(st', dst) == Addr(st, src) && Shift(st', dst) == Shift(st, src)
    && (forall p :: p != src && p != dst ==> (Present(st, p) <==> Present(st', p)))
    && (forall p :: p != src && p != dst && Present(st, p) && Present(st', p) ==>
          Addr(st', p) == Addr(st, p) && Shift(st', p) == Shift(st, p))
  }

  /** The place in `st` of the block that `st'` has at `p`. */
  ghost function Origin(src: Place, dst: Place, p: Place): Place {
    if p == dst then src else p
  }

  lemma RelocateOrigin(st: State, st': State, src: Place, dst: Place, p: Place)
    requires Relocates(st, st', src, dst) && Present(st', p)
    ensures Present(st, Origin(src, dst, p)) && Origin(src, dst, p) != dst
    ensures Addr(st', p) == Addr(st, Origin(src, dst, p)) && End(st', p) == End(st, Origin(src, dst, p))
    ensures p != dst ==> p != src
  {
  }

  lemma RelocateSeparate(st: State, st': State, src: Place, dst: Place)
    requires Separate(st) && InRange(st) && Relocates(st, st', src, dst)
    ensures Separate(st') && InRange(st')
  {
    forall p, q | Present(st', p) && Present(st', q) && p != q
      ensures End(st', p) <= Addr(st', q) || End(st', q) <= Addr(st', p)
    {
      RelocateOrigin(st, st', src, dst, p);
      RelocateOrigin(st, st', src, dst, q);
    }
    forall p | Present(st', p)
      ensures st'.start <= Addr(st', p) && End(st', p) <= st'.cur && Addr(st', p) % ALIGNMENT == 0
    {
      RelocateOrigin(st, st', src, dst, p);
    }
  }

  lemma RelocateTiled(st: State, st': State, src: Place, dst: Place)
    requires Tiled(st) && Relocates(st, st', src, dst)
    ensures Tiled(st')
  {
    forall a | st'.start <= a < st'.cur ensures Covered(st', a) {
      assert Covered(st, a);
      var p :| Covers(st, p, a);
      assert Covers(st', if p == src then dst else p, a);
    }
  }

  lemma RelocateKeepsInv(st: State, st': State, src: Place, dst: Place)
    requires Inv(st) && Shape(st') && Relocates(st, st', src, dst)
    ensures Inv(st')
  {
    RelocateSeparate(st, st', src, dst);
    RelocateTiled(st, st', src, dst);
  }

  ghost function Top(st: State, id: ListId): nat
    requires st.stacks(id) != []
  {
    st.stacks(id)[|st.stacks(id)| - 1]
  }

  ghost function Rest(st: State, id: ListId): seq<nat>
    requires st.stacks(id) != []
  {
    st.stacks(id)[..|st.stacks(id)| - 1]
  }

  /** `dst.push(src.pop())`. */
  ghost function MoveTop(st: State, src: ListId, dst: ListId): State
    requires src != dst && st.stacks(src) != []
  {
    st.(stacks := With(With(st.stacks, src, Rest(st, src)), dst, st.stacks(dst) + [Top(st, src)]))
  }

  lemma MoveTopKeepsInv(st: State, src: ListId, dst: ListId)
    requires Inv(st) && src != dst && st.stacks(src) != [] && src.shift == dst.shift && ValidId(st.cores, dst)
    ensures Inv(MoveTop(st, src, dst))
  {
    var st' := MoveTop(st, src, dst);
    RelocateKeepsInv(st, st', Listed(src, |st.stacks(src)| - 1), Listed(dst, |st.stacks(dst)|));
  }

  /** A popped block becomes live with the requested size. */
  ghost function TakeTop(st: State, id: ListId, size: nat): State
    requires st.stacks(id) != []
  {
    st.(stacks := With(st.stacks, id, Rest(st, id)), size := With<nat, nat>(st.size, Top(st, id), size))
  }

  lemma TakeTopKeepsInv(st: State, id: ListId, size: nat)
    requires Inv(st) && st.stacks(id) != [] && size >= 1 && SlabShift(size) == id.shift
    ensures Inv(TakeTop(st, id, size)) && st.size(Top(st, id)) == 0
  {
    var src := Listed(id, |st.stacks(id)| - 1);
    var dst := Allocated(Top(st, id));
    assert Present(st, src);
    assert ValidId(st.cores, id);
    RelocateKeepsInv(st, TakeTop(st, id, size), src, dst);
  }

  /** A live block is pushed on a free list. */
  ghost function GiveBack(st: State, id: ListId, block: nat): State {
    st.(stacks := With(st.stacks, id, st.stacks(id) + [block]), size := With<nat, nat>(st.size, block, 0))
  }

  lemma GiveBackKeepsInv(st: State, id: ListId, block: nat)
    requires Inv(st) && ValidId(st.cores, id) && st.size(block) > 0 && SlabShift(st.size(block)) == id.shift
    ensures Inv(GiveBack(st, id, block))
  {
    RelocateKeepsInv(st, GiveBack(st, id, block), Allocated(block), Listed(id, |st.stacks(id)|));
  }

  /** Bumps the break by one block of the class. */
  ghost function CarveOne(st: State, id: ListId): State {
    st.(stacks := With(st.stacks, id, st.stacks(id) + [st.cur]), cur := st.cur + SlabSize(id.shift))
  }

  /** The carved block is the only new one, and it starts where the others end. */
  lemma CarveOnePlaces(st: State, id: ListId, p: Place)
    requires Present(CarveOne(st, id), p) && p != Listed(id, |st.stacks(id)|)
    ensures Present(st, p) && Addr(CarveOne(st, id), p) == Addr(st, p) && End(CarveOne(st, id), p) == End(st, p)
  {
  }

  lemma CarveOneSeparate(st: State, id: ListId)
    requires Shape(st) && InRange(st) && Separate(st) && id.shift >= MIN_SHIFT
    ensures InRange(CarveOne(st, id)) && Separate(CarveOne(st, id))
  {
    var st' := CarveOne(st, id);
    SlabSizeFacts(id.shift);
    var new' := Listed(id, |st.stacks(id)|);
    forall p | Present(st', p)
      ensures st'.start <= Addr(st', p) && End(st', p) <= st'.cur && Addr(st', p) % ALIGNMENT == 0
    {
      if p != new' { CarveOnePlaces(st, id, p); }
    }
    forall p, q | Present(st', p) && Present(st', q) && p != q
      ensures End(st', p) <= Addr(st', q) || End(st', q) <= Addr(st', p)
    {
      if p != new' { CarveOnePlaces(st, id, p); }
      if q != new' { CarveOnePlaces(st, id, q); }
    }
  }

  lemma CarveOneTiled(st: State, id: ListId)
    requires Tiled(st)
    ensures Tiled(CarveOne(st, id))
  {
    var st' := CarveOne(st, id);
    forall a | st'.start <= a < st'.cur ensures Covered(st', a) {
      if a < st.cur {
        assert Covered(st, a);
        var p :| Covers(st, p, a);
        assert Covers(st', p, a);
      } else {
        assert Covers(st', Listed(id, |st.stacks(id)|), a);
      }
    }
  }

  lemma CarveOneKeepsInv(st: State, id: ListId)
    requires Inv(st) && ValidId(st.cores, id) && st.cur + SlabSize(id.shift) <= st.end
    ensures Inv(CarveOne(st, id))
  {
    SlabSizeFacts(id.shift);
    CarveOneSeparate(st, id);
    CarveOneTiled(st, id);
  }

  // ---------------------------------------------------------------- the loops

  /** Lines 92-94 and 224-226: moves blocks while `src` holds more than `keep` and `dst` fewer than `limit`. */
  ghost function MoveWhile(st: State, src: ListId, dst: ListId, keep: nat, limit: nat): (r: State)
    requires src != dst
    ensures SameArena(st, r) && r.size == st.size && r.cur == st.cur
    decreases |st.stacks(src)|
  {
    if |st.stacks(src)| > keep && |st.stacks(dst)| < limit
    then MoveWhile(MoveTop(st, src, dst), src, dst, keep, limit)
    else st
  }

  lemma {:induction false} MoveWhileKeepsInv(st: State, src: ListId, dst: ListId, keep: nat, limit: nat)
    requires Inv(st) && src != dst && src.shift == dst.shift && ValidId(st.cores, dst)
    ensures Inv(MoveWhile(st, src, dst, keep, limit))
    decreases |st.stacks(src)|
  {
    if |st.stacks(src)| > keep && |st.stacks(dst)| < limit {
      MoveTopKeepsInv(st, src, dst);
      MoveWhileKeepsInv(MoveTop(st, src, dst), src, dst, keep, limit);
    }
  }

  lemma {:induction false} MoveWhileCounts(st: State, src: ListId, dst: ListId, keep: nat, limit: nat)
    requires src != dst
    ensures
      var st' := MoveWhile(st, src, dst, keep, limit);
      && (forall id :: id != src && id != dst ==> st'.stacks(id) == st.stacks(id))
      && |st'.stacks(src)| + |st'.stacks(dst)| == |st.stacks(src)| + |st.stacks(dst)|
      && (|st'.stacks(src)| <= keep || |st'.stacks(dst)| >= limit)
      && (|st'.stacks(dst)| <= limit || st' == st)
      && (|st'.stacks(src)| >= keep || st' == st)
      && (|st.stacks(src)| <= keep ==> st' == st)
    decreases |st.stacks(src)|
  {
    if |st.stacks(src)| > keep && |st.stacks(dst)| < limit {
      MoveWhileCounts(MoveTop(st, src, dst), src, dst, keep, limit);
    }
  }

  /** Lines 101-104. */
  ghost function Carve(st: State, id: ListId, remaining: nat): (r: State)
    ensures SameArena(st, r) && r.size == st.size
    decreases remaining
  {
    if remaining > 0 && st.cur + SlabSize(id.shift) <= st.end
    then Carve(CarveOne(st, id), id, remaining - 1)
    else st
  }

  lemma {:induction false} CarveKeepsInv(st: State, id: ListId, remaining: nat)
    requires Inv(st) && ValidId(st.cores, id)
    ensures Inv(Carve(st, id, remaining))
    decreases remaining
  {
    if remaining > 0 && st.cur + SlabSize(id.shift) <= st.end {
      CarveOneKeepsInv(st, id);
      CarveKeepsInv(CarveOne(st, id), id, remaining - 1);
    }
  }

  lemma {:induction false} CarveCounts(st: State, id: ListId, remaining: nat)
    ensures
      var st' := Carve(st, id, remaining);
      && (forall j :: j != id ==> st'.stacks(j) == st.stacks(j))
      && |st.stacks(id)| <= |st'.stacks(id)| <= |st.stacks(id)| + remaining
      && (remaining == 0 || st.cur + SlabSize(id.shift) > st.end ==> st' == st)
      && (remaining > 0 && st.cur + SlabSize(id.shift) <= st.end ==> |st'.stacks(id)| > |st.stacks(id)|)
    decreases remaining
  {
    if remaining > 0 && st.cur + SlabSize(id.shift) <= st.end {
      CarveCounts(CarveOne(st, id), id, remaining - 1);
    }
  }

  // ---------------------------------------------------------------- allocate

  function RefillLimit(shift: nat): nat {
    if MaxCacheEntries(shift) < 1 then 1 else MaxCacheEntries(shift)
  }

  /** The slow path of allocate before the final pop (lines 84-105). */
  ghost function Refilled(st: State, core: nat, shift: nat): (r: State)
    ensures SameArena(st, r) && r.size == st.size
  {
    var limit := RefillLimit(shift);
    var moved := MoveWhile(st, Global(shift), Core(core, shift), 0, limit);
    if |moved.stacks(Core(core, shift))| < limit
    then Carve(moved, Core(core, shift), limit - |moved.stacks(Core(core, shift))|)
    else moved
  }

  predicate Allocatable(size: nat) {
    size != 0 && SlabShift(size) <= MAX_SHIFT
  }

  /** The core's list when it is not empty, else the refilled one. */
  ghost function Ready(st: State, core: nat, shift: nat): State {
    if st.stacks(Core(core, shift)) != [] then st else Refilled(st, core, shift)
  }

  /** allocate: the new state and the returned address, 0 for nullptr. */
  ghost function Allocate(st: State, core: nat, size: nat): (State, nat) {
    if !Allocatable(size) then (st, 0)
    else
      var id := Core(core, SlabShift(size));
      var ready := Ready(st, core, SlabShift(size));
      if ready.stacks(id) != []
      then (TakeTop(ready, id, size), Top(ready, id) + HEADER_BYTES)
      else (ready, 0)
  }

  /** Memory is exhausted for this core and class. */
  ghost predicate Exhausted(st: State, core: nat, shift: nat) {
    st.stacks(Core(core, shift)) == [] && st.stacks(Global(shift)) == [] && st.cur + SlabSize(shift) > st.end
  }

  lemma RefilledKeepsInv(st: State, core: nat, shift: nat)
    requires Inv(st) && ValidId(st.cores, Core(core, shift))
    ensures Inv(Refilled(st, core, shift))
  {
    var limit := RefillLimit(shift);
    var cid, gid := Core(core, shift), Global(shift);
    MoveWhileKeepsInv(st, gid, cid, 0, limit);
    var moved := MoveWhile(st, gid, cid, 0, limit);
    if |moved.stacks(cid)| < limit {
      CarveKeepsInv(moved, cid, limit - |moved.stacks(cid)|);
    }
  }

  lemma RefilledCounts(st: State, core: nat, shift: nat)
    requires st.stacks(Core(core, shift)) == []
    ensures
      var st' := Refilled(st, core, shift);
      && (st'.stacks(Core(core, shift)) == [] <==> Exhausted(st, core, shift))
      && (Exhausted(st, core, shift) ==> st' == st)
      && |st'.stacks(Core(core, shift))| <= RefillLimit(shift)
      && (forall id: ListId :: id.Core? && id != Core(core, shift) ==> st'.stacks(id) == st.stacks(id))
  {
    var limit := RefillLimit(shift);
    var cid, gid := Core(core, shift), Global(shift);
    MoveWhileCounts(st, gid, cid, 0, limit);
    var moved := MoveWhile(st, gid, cid, 0, limit);
    if |moved.stacks(cid)| < limit {
      CarveCounts(moved, cid, limit - |moved.stacks(cid)|);
    }
  }

  /** Core caches hold at most the entries the class allows. */
  ghost predicate CachesBounded(st: State) {
    forall id: ListId :: id.Core? ==> |st.stacks(id)| <= MaxCacheEntries(id.shift)
  }

  /**
   What allocate promises: every block stays in one place; a valid request fails exactly
   when the core cache and the global list are empty and the uncarved space is too small.
   */
  ghost predicate AllocateOutcome(st: State, core: nat, size: nat, st': State, ptr: nat) {
    && Inv(st') && SameArena(st, st')
    && (ptr == 0 <==> !Allocatable(size) || Exhausted(st, core, SlabShift(size)))
    && (ptr == 0 ==> st' == st)
    && (ptr != 0 ==> ptr >= HEADER_BYTES && st.size(ptr - HEADER_BYTES) == 0
                     && st'.size == With<nat, nat>(st.size, ptr - HEADER_BYTES, size)
                     && PayloadOk(st', ptr - HEADER_BYTES))
  }

  lemma AllocateCorrect(st: State, core: nat, size: nat)
    requires Inv(st) && core < st.cores
    ensures AllocateOutcome(st, core, size, Allocate(st, core, size).0, Allocate(st, core, size).1)
  {
    if Allocatable(size) {
      var shift := SlabShift(size);
      var id := Core(core, shift);
      var ready := Ready(st, core, shift);
      ReadyCorrect(st, core, shift);
      if ready.stacks(id) != [] {
        TakeTopKeepsInv(ready, id, size);
        PayloadInRange(TakeTop(ready, id, size), Top(ready, id));
      }
    }
  }

  lemma ReadyCorrect(st: State, core: nat, shift: nat)
    requires Inv(st) && ValidId(st.cores, Core(core, shift))
    ensures
      var ready := Ready(st, core, shift);
      && Inv(ready) && SameArena(st, ready) && ready.size == st.size
      && (ready.stacks(Core(core, shift)) == [] <==> Exhausted(st, core, shift))
      && (Exhausted(st, core, shift) ==> ready == st)
  {
    if st.stacks(Core(core, shift)) == [] {
      RefilledKeepsInv(st, core, shift);
      RefilledCounts(st, core, shift);
    }
  }

  lemma AllocateBounded(st: State, core: nat, size: nat)
    requires CachesBounded(st)
    ensures CachesBounded(Allocate(st, core, size).0)
  {
    var shift := SlabShift(size);
    if st.stacks(Core(core, shift)) == [] {
      RefilledCounts(st, core, shift);
    }
  }

  // ---------------------------------------------------------------- free

  /** free of a live pointer: push to the core cache, spill half of it when it is too long. */
  ghost function Free(st: State, core: nat, ptr: nat): State
    requires ptr >= HEADER_BYTES
  {
    var block := ptr - HEADER_BYTES;
    var shift := SlabShift(st.size(block));
    Spill(GiveBack(st, Core(core, shift), block), core, shift)
  }

  /** The part of free after the push (lines 219-227). */
  ghost function Spill(st: State, core: nat, shift: nat): (r: State)
    ensures SameArena(st, r) && r.size == st.size && r.cur == st.cur
  {
    var cid, gid := Core(core, shift), Global(shift);
    if |st.stacks(cid)| > MaxCacheEntries(shift)
    then MoveWhile(st, cid, gid, MaxCacheEntries(shift) / 2, |st.stacks(cid)| + |st.stacks(gid)|)
    else st
  }

  /** free takes one block out of the live set and loses none. */
  lemma FreeCorrect(st: State, core: nat, ptr: nat)
    requires Inv(st) && core < st.cores && ptr >= HEADER_BYTES && st.size(ptr - HEADER_BYTES) > 0
    ensures
      var st' := Free(st, core, ptr);
      Inv(st') && SameArena(st, st') && st'.size == With<nat, nat>(st.size, ptr - HEADER_BYTES, 0) && st'.cur == st.cur
  {
    var block := ptr - HEADER_BYTES;
    var shift := SlabShift(st.size(block));
    var cid, gid := Core(core, shift), Global(shift);
    assert ValidId(st.cores, cid) && ValidId(st.cores, gid);
    GiveBackKeepsInv(st, cid, block);
    var pushed := GiveBack(st, cid, block);
    MoveWhileKeepsInv(pushed, cid, gid, MaxCacheEntries(shift) / 2, |pushed.stacks(cid)| + |pushed.stacks(gid)|);
  }

  lemma FreeBounded(st: State, core: nat, ptr: nat)
    requires CachesBounded(st) && ptr >= HEADER_BYTES
    ensures CachesBounded(Free(st, core, ptr))
  {
    var block := ptr - HEADER_BYTES;
    var shift := SlabShift(st.size(block));
    var cid, gid := Core(core, shift), Global(shift);
    var pushed := GiveBack(st, cid, block);
    SpillBounded(pushed, core, shift);
  }

  lemma SpillBounded(st: State, core: nat, shift: nat)
    requires forall id: ListId :: id.Core? && id != Core(core, shift) ==> |st.stacks(id)| <= MaxCacheEntries(id.shift)
    ensures CachesBounded(Spill(st, core, shift))
  {
    var cid, gid := Core(core, shift), Global(shift);
    MoveWhileCounts(st, cid, gid, MaxCacheEntries(shift) / 2, |st.stacks(cid)| + |st.stacks(gid)|);
  }

  // ---------------------------------------------------------------- runs

  datatype Op = AllocOp(core: nat, size: nat) | FreeOp(core: nat, ptr: nat)

  /** Callers name an existing core and free only live pointers (or nullptr). */
  ghost predicate Legal(st: State, op: Op) {
    op.core < st.cores && (op.FreeOp? && op.ptr != 0 ==> op.ptr >= HEADER_BYTES && st.size(op.ptr - HEADER_BYTES) > 0)
  }

  ghost function Step(st: State, op: Op): State
    requires Legal(st, op)
  {
    match op
    case AllocOp(core, size) => Allocate(st, core, size).0
    case FreeOp(core, ptr) => if ptr == 0 then st else Free(st, core, ptr)
  }

  ghost predicate Next(st: State, op: Op, st': State) {
    Legal(st, op) && st' == Step(st, op)
  }

  lemma StepKeepsInv(st: State, op: Op, st': State)
    requires Inv(st) && CachesBounded(st) && Next(st, op, st')
    ensures Inv(st') && CachesBounded(st')
  {
    match op
    case AllocOp(core, size) =>
      AllocateCorrect(st, core, size);
      AllocateBounded(st, core, size);
    case FreeOp(core, ptr) =>
      if ptr != 0 {
        FreeCorrect(st, core, ptr);
        FreeBounded(st, core, ptr);
      }
  }

  /** The operation frees this block. */
  ghost predicate Frees(op: Op, b: nat) {
    op.FreeOp? && op.ptr == b + HEADER_BYTES
  }

  /** A live block that an operation does not free stays live with its size. */
  lemma StepKeepsLive(st: State, op: Op, b: nat)
    requires Inv(st) && Legal(st, op) && st.size(b) > 0 && !Frees(op, b)
    ensures Step(st, op).size(b) == st.size(b)
  {
    match op
    case AllocOp(core, size) => AllocateCorrect(st, core, size);
    case FreeOp(core, ptr) =>
      if ptr != 0 {
        FreeCorrect(st, core, ptr);
      }
  }

  /** Any interleaving of legal operations by any cores. */
  ghost predicate IsRun(states: seq<State>, ops: seq<Op>) {
    |states| == |ops| + 1 && forall i :: 0 <= i < |ops| ==> Next(states[i], ops[i], states[i + 1])
  }

  /** In every reachable state each carved block is in exactly one place. */
  lemma {:induction false} RunKeepsInv(start: nat, end: nat, cores: nat, states: seq<State>, ops: seq<Op>, i: nat)
    requires 0 < start && start % ALIGNMENT == 0
    requires IsRun(states, ops) && states[0] == Initial(start, end, cores) && i <= |ops|
    ensures Inv(states[i]) && CachesBounded(states[i])
  {
    if i == 0 {
      InitialInv(start, end, cores);
    } else {
      var k := i - 1;
      RunKeepsInv(start, end, cores, states, ops, k);
      assert Next(states[k], ops[k], states[k + 1]);
      StepKeepsInv(states[k], ops[k], states[k + 1]);
    }
  }

  /** The bytes a caller may use, [block + 16, block + 16 + size), are aligned and carved. */
  ghost predicate PayloadOk(st: State, b: nat) {
    var p := b + HEADER_BYTES;
    p % ALIGNMENT == 0 && st.start < p && p + st.size(b) <= st.cur
  }

  ghost predicate PayloadsDisjoint(st: State, b: nat, c: nat) {
    b + HEADER_BYTES + st.size(b) <= c || c + HEADER_BYTES + st.size(c) <= b
  }

  /** What the invariant means for callers: payloads are aligned, in range, big enough and disjoint. */
  lemma LivePayloads(st: State)
    requires Inv(st)
    ensures forall b :: st.size(b) > 0 ==> PayloadOk(st, b)
    ensures forall b, c :: st.size(b) > 0 && st.size(c) > 0 && b != c ==> PayloadsDisjoint(st, b, c)
  {
    forall b | st.size(b) > 0 ensures PayloadOk(st, b) {
      PayloadInRange(st, b);
    }
    forall b, c | st.size(b) > 0 && st.size(c) > 0 && b != c ensures PayloadsDisjoint(st, b, c) {
      PayloadsApart(st, b, c);
    }
  }

  lemma PayloadFits(st: State, b: nat)
    requires st.size(b) > 0
    ensures Present(st, Allocated(b)) && b + HEADER_BYTES + st.size(b) <= End(st, Allocated(b))
  {
    SlabShiftIsTight(st.size(b));
  }

  lemma PayloadInRange(st: State, b: nat)
    requires InRange(st) && st.size(b) > 0
    ensures PayloadOk(st, b)
  {
    PayloadFits(st, b);
    assert Addr(st, Allocated(b)) == b;
  }

  lemma PayloadsApart(st: State, b: nat, c: nat)
    requires Separate(st) && st.size(b) > 0 && st.size(c) > 0 && b != c
    ensures PayloadsDisjoint(st, b, c)
  {
    PayloadFits(st, b);
    PayloadFits(st, c);
  }
}
