/**
 The slab allocator on raw memory (sandook/mem/slab.cc:56-228): free lists are
 threaded through the free blocks, live blocks start with a 16-byte header.
 Every operation is proved to perform the corresponding step of SlabModel and to
 leave the bytes of all other live blocks unchanged.
 */
module SlabMemory {
  import opened Wrappers
  import opened Numbers
  import opened RawMemory
  import opened FreePtrsList
  import opened SlabModel

  type Lists = map<ListId, FreeList>

  /** Memory holds every list except `ids` and every live header except those of `blocks`. */
  ghost predicate HoldsExcept(m: seq<Byte>, lists: Lists, st: State, ids: set<ListId>, blocks: set<nat>) {
    && |m| <= ADDRESS_SPACE && st.cur <= |m|
    && (forall id :: ValidId(st.cores, id) ==> id in lists)
    && (forall id :: ValidId(st.cores, id) && id !in ids ==> Rep(m, lists[id], st.stacks(id)))
    && (forall b: nat :: st.size(b) > 0 && b !in blocks ==> b + WORD <= |m| && Load(m, b) == st.size(b))
  }

  ghost predicate Holds(m: seq<Byte>, lists: Lists, st: State) {
    HoldsExcept(m, lists, st, {}, {})
  }

  /** The block at `b` of the class of `size`, header included, has the same bytes in both memories. */
  ghost predicate BlockSame(m: seq<Byte>, m': seq<Byte>, b: nat, size: nat) {
    |m| == |m'| && forall a :: b <= a < b + SlabSize(SlabShift(size)) && a < |m| ==> m'[a] == m[a]
  }

  /** Every live block outside `blocks` has the same bytes in both memories. */
  ghost predicate LiveSame(m: seq<Byte>, m': seq<Byte>, size: nat -> nat, blocks: set<nat>) {
    forall b: nat :: size(b) > 0 && b !in blocks ==> BlockSame(m, m', b, size(b))
  }

  ghost predicate Elsewhere(p: Place, ids: set<ListId>, blocks: set<nat>) {
    match p
    case Listed(id, i) => id !in ids
    case Allocated(b) => b !in blocks
  }

  // ---------------------------------------------------------------- frames

  lemma PlaceFacts(st: State, p: Place)
    requires Inv(st) && Present(st, p)
    ensures Shift(st, p) >= MIN_SHIFT && Addr(st, p) + BATCH_BYTES <= End(st, p) <= st.cur
    ensures 0 < Addr(st, p) && (Addr(st, p) + HEADER_BYTES) % ALIGNMENT == 0
  {
    if p.Listed? {
      assert ValidId(st.cores, p.id);
    }
    SlabSizeFacts(Shift(st, p));
  }

  lemma PlacesApart(st: State, p: Place, q: Place)
    requires Inv(st) && Present(st, p) && Present(st, q) && p != q
    ensures Apart(Addr(st, p), Addr(st, q))
    ensures End(st, p) <= Addr(st, q) || Addr(st, q) + BATCH_BYTES <= Addr(st, p)
  {
    PlaceFacts(st, p);
    PlaceFacts(st, q);
  }

  /** A write inside the first 48 bytes of one block disturbs only that block. */
  lemma WriteInBlock(m: seq<Byte>, m': seq<Byte>, lists: Lists, st: State, ids: set<ListId>, blocks: set<nat>, p: Place)
    requires Inv(st) && HoldsExcept(m, lists, st, ids, blocks)
    requires Present(st, p) && !Elsewhere(p, ids, blocks)
    requires SameOutside(m, m', Addr(st, p), Addr(st, p) + BATCH_BYTES)
    ensures HoldsExcept(m', lists, st, ids, blocks)
    ensures LiveSame(m, m', st.size, blocks)
  {
    var t := Addr(st, p);
    forall id | ValidId(st.cores, id) && id !in ids ensures Rep(m', lists[id], st.stacks(id)) {
      forall i | 0 <= i < |st.stacks(id)| ensures Apart(st.stacks(id)[i], t) {
        PlacesApart(st, Listed(id, i), p);
      }
      RepFrame(m, m', lists[id], st.stacks(id), t);
    }
    forall b: nat | st.size(b) > 0 && b !in blocks
      ensures b + WORD <= |m| && Load(m', b) == st.size(b) && BlockSame(m, m', b, st.size(b))
    {
      PlacesApart(st, Allocated(b), p);
      LoadFrame(m, m', t, t + BATCH_BYTES, b);
    }
  }

  lemma HoldsExceptMore(m: seq<Byte>, lists: Lists, st: State, ids: set<ListId>, ids': set<ListId>, blocks: set<nat>, blocks': set<nat>)
    requires HoldsExcept(m, lists, st, ids, blocks) && ids <= ids' && blocks <= blocks'
    ensures HoldsExcept(m, lists, st, ids', blocks')
  {
  }

  /** Holding everything but `ids`, and those lists with their new contents, is holding the new state. */
  lemma HoldsAfter(m: seq<Byte>, lists: Lists, lists': Lists, st: State, st': State, ids: set<ListId>, blocks: set<nat>)
    requires HoldsExcept(m, lists, st, ids, blocks) && st'.cur <= |m| && st'.cores == st.cores
    requires forall id :: ValidId(st.cores, id) ==> id in lists'
    requires forall id :: ValidId(st.cores, id) && id !in ids ==> lists'[id] == lists[id] && st'.stacks(id) == st.stacks(id)
    requires forall id :: ValidId(st.cores, id) && id in ids ==> Rep(m, lists'[id], st'.stacks(id))
    requires forall b: nat :: st'.size(b) > 0 && b !in blocks ==> st'.size(b) == st.size(b)
    requires forall b: nat :: st'.size(b) > 0 && b in blocks ==> b + WORD <= |m| && Load(m, b) == st'.size(b)
    ensures Holds(m, lists', st')
  {
  }

  /** The rest of a popped stack is unaffected by a write at any other place. */
  lemma RestFrame(m: seq<Byte>, m': seq<Byte>, l: FreeList, st: State, id: ListId, touched: Place)
    requires Inv(st) && st.stacks(id) != [] && Present(st, touched)
    requires touched.Listed? ==> touched.id != id || touched.i == |st.stacks(id)| - 1
    requires Rep(m, l, Rest(st, id))
    requires SameOutside(m, m', Addr(st, touched), Addr(st, touched) + BATCH_BYTES)
    ensures Rep(m', l, Rest(st, id))
  {
    var s := Rest(st, id);
    forall i | 0 <= i < |s| ensures Apart(s[i], Addr(st, touched)) {
      PlacesApart(st, Listed(id, i), touched);
    }
    RepFrame(m, m', l, s, Addr(st, touched));
  }

  lemma LiveSameTrans(m0: seq<Byte>, m1: seq<Byte>, m2: seq<Byte>, size: nat -> nat, blocks: set<nat>)
    requires LiveSame(m0, m1, size, blocks) && LiveSame(m1, m2, size, blocks)
    ensures LiveSame(m0, m2, size, blocks)
  {
    forall b: nat | size(b) > 0 && b !in blocks ensures BlockSame(m0, m2, b, size(b)) {
      assert BlockSame(m0, m1, b, size(b)) && BlockSame(m1, m2, b, size(b));
    }
  }

  lemma LiveSameWithout(m: seq<Byte>, m': seq<Byte>, size: nat -> nat, block: nat)
    requires LiveSame(m, m', With<nat, nat>(size, block, 0), {})
    ensures LiveSame(m, m', size, {block})
  {
    forall b: nat | size(b) > 0 && b !in {block} ensures BlockSame(m, m', b, size(b)) {
      assert With<nat, nat>(size, block, 0)(b) == size(b);
    }
  }

  lemma LiveAfterFree(m: seq<Byte>, m': seq<Byte>, size: nat -> nat, block: nat)
    requires LiveSame(m, m', size, {block})
    ensures LiveSame(m, m', With<nat, nat>(size, block, 0), {})
  {
  }

  lemma ListSize(m: seq<Byte>, lists: Lists, st: State, id: ListId)
    requires Holds(m, lists, st) && ValidId(st.cores, id)
    ensures id in lists && lists[id].size == |st.stacks(id)|
  {
    assert Rep(m, lists[id], st.stacks(id));
  }

  // ---------------------------------------------------------------- one block

  /** `lists[id].pop()`. */
  method PopBlock(mem: array<Byte>, lists: Lists, id: ListId, ghost st: State) returns (p: nat, l: FreeList)
    requires Inv(st) && Holds(mem[..], lists, st) && ValidId(st.cores, id) && st.stacks(id) != []
    modifies mem
    ensures p == Top(st, id) && Rep(mem[..], l, Rest(st, id))
    ensures HoldsExcept(mem[..], lists, st, {id}, {}) && LiveSame(old(mem[..]), mem[..], st.size, {})
  {
    ghost var m0, s := mem[..], st.stacks(id);
    p, l := Pop(mem, lists[id], s);
    HoldsExceptMore(m0, lists, st, {}, {id}, {}, {});
    WriteInBlock(m0, mem[..], lists, st, {id}, {}, Listed(id, HeadIndex(|s|)));
  }

  /** `lists[dst].push(p)`, where `p` is the block of `st` at place `at`. */
  method PushBlock(mem: array<Byte>, lists: Lists, dst: ListId, p: nat,
                   ghost st: State, ghost at: Place, ghost ids: set<ListId>, ghost blocks: set<nat>)
    returns (l: FreeList, ghost touched: Place)
    requires Inv(st) && HoldsExcept(mem[..], lists, st, ids, blocks) && ValidId(st.cores, dst) && dst !in ids
    requires Present(st, at) && p == Addr(st, at) && !Elsewhere(at, ids, blocks)
    modifies mem
    ensures Rep(mem[..], l, st.stacks(dst) + [p])
    ensures HoldsExcept(mem[..], lists, st, ids + {dst}, blocks) && LiveSame(old(mem[..]), mem[..], st.size, blocks)
    ensures touched == at || (touched.Listed? && touched.id == dst)
    ensures Present(st, touched)
    ensures SameOutside(old(mem[..]), mem[..], Addr(st, touched), Addr(st, touched) + BATCH_BYTES)
  {
    ghost var m0, d := mem[..], st.stacks(dst);
    forall i | 0 <= i < |d| ensures Apart(d[i], p) {
      PlacesApart(st, Listed(dst, i), at);
    }
    PlaceFacts(st, at);
    ghost var t;
    l, t := Push(mem, lists[dst], p, d);
    ghost var k :| 0 <= k <= |d| && (d + [p])[k] == t;
    touched := if k < |d| then Listed(dst, k) else at;
    HoldsExceptMore(m0, lists, st, ids, ids + {dst}, blocks, blocks);
    WriteInBlock(m0, mem[..], lists, st, ids + {dst}, blocks, touched);
  }

  /** `dst.push(src.pop())`. */
  method MoveBlock(mem: array<Byte>, lists: Lists, src: ListId, dst: ListId, ghost st: State) returns (lists': Lists)
    requires Inv(st) && Holds(mem[..], lists, st) && ValidId(st.cores, src) && ValidId(st.cores, dst)
    requires src != dst && st.stacks(src) != []
    modifies mem
    ensures Holds(mem[..], lists', MoveTop(st, src, dst))
    ensures LiveSame(old(mem[..]), mem[..], st.size, {})
  {
    ghost var m0 := mem[..];
    ghost var top := Listed(src, |st.stacks(src)| - 1);
    var p, l := PopBlock(mem, lists, src, st);
    ghost var m1 := mem[..];
    ghost var touched;
    var l2;
    l2, touched := PushBlock(mem, lists, dst, p, st, top, {src}, {});
    RestFrame(m1, mem[..], l, st, src, touched);
    LiveSameTrans(m0, m1, mem[..], st.size, {});
    lists' := lists[src := l][dst := l2];
    HoldsAfter(mem[..], lists, lists', st, MoveTop(st, src, dst), {src} + {dst}, {});
  }

  /** hdr->size, hdr->core_id. */
  method WriteHeader(mem: array<Byte>, p: nat, size: nat, core: nat)
    requires p + BATCH_BYTES <= mem.Length && size < ADDRESS_SPACE && core < ADDRESS_SPACE
    modifies mem
    ensures SameOutside(old(mem[..]), mem[..], p, p + BATCH_BYTES)
    ensures Load(mem[..], p) == size
  {
    StoreWord(mem, p, size);
    ghost var m := mem[..];
    StoreWord(mem, p + WORD, core);
    LoadFrame(m, mem[..], p + WORD, p + 2 * WORD, p);
  }

  /** Pops a block and writes its header (lines 81, 108 and 112-116). */
  method TakeBlock(mem: array<Byte>, lists: Lists, id: ListId, size: nat, ghost st: State)
    returns (p: nat, lists': Lists)
    requires Inv(st) && Holds(mem[..], lists, st) && ValidId(st.cores, id) && st.stacks(id) != []
    requires SlabShift(size) == id.shift && id.Core? && st.cores <= ADDRESS_SPACE
    modifies mem
    ensures p == Top(st, id) && Holds(mem[..], lists', TakeTop(st, id, size))
    ensures LiveSame(old(mem[..]), mem[..], st.size, {})
  {
    ghost var m0 := mem[..];
    ghost var top := Listed(id, |st.stacks(id)| - 1);
    PlaceFacts(st, top);
    SlabShiftIsTight(size);
    var l;
    p, l := PopBlock(mem, lists, id, st);
    ghost var m1 := mem[..];
    WriteHeader(mem, p, size, id.core);
    WriteInBlock(m1, mem[..], lists, st, {id}, {}, top);
    RestFrame(m1, mem[..], l, st, id, top);
    LiveSameTrans(m0, m1, mem[..], st.size, {});
    lists' := lists[id := l];
    HoldsAfter(mem[..], lists, lists', st, TakeTop(st, id, size), {id}, {p});
  }

  /** `cache_list.push(hdr)` of a live block. */
  method PushFreed(mem: array<Byte>, lists: Lists, id: ListId, block: nat, ghost st: State) returns (lists': Lists)
    requires Inv(st) && Holds(mem[..], lists, st) && ValidId(st.cores, id) && st.size(block) > 0
    modifies mem
    ensures Holds(mem[..], lists', GiveBack(st, id, block))
    ensures LiveSame(old(mem[..]), mem[..], st.size, {block})
  {
    ghost var touched;
    var l;
    HoldsExceptMore(mem[..], lists, st, {}, {}, {}, {block});
    l, touched := PushBlock(mem, lists, id, block, st, Allocated(block), {}, {block});
    lists' := lists[id := l];
    HoldsAfter(mem[..], lists, lists', st, GiveBack(st, id, block), {} + {id}, {block});
  }

  /** `cache_list.push(cur_)`. */
  method PushCarved(mem: array<Byte>, lists: Lists, id: ListId, p: nat, ghost st: State) returns (lists': Lists)
    requires Inv(st) && Holds(mem[..], lists, st) && ValidId(st.cores, id)
    requires p == st.cur && p + SlabSize(id.shift) <= st.end <= mem.Length
    modifies mem
    ensures Holds(mem[..], lists', CarveOne(st, id))
    ensures LiveSame(old(mem[..]), mem[..], st.size, {})
  {
    ghost var m0, s, st' := mem[..], st.stacks(id), CarveOne(st, id);
    CarveOneKeepsInv(st, id);
    forall i | 0 <= i < |s| ensures Apart(s[i], p) {
      PlacesApart(st', Listed(id, i), Listed(id, |s|));
    }
    PlaceFacts(st', Listed(id, |s|));
    ghost var t;
    var l;
    l, t := Push(mem, lists[id], p, s);
    ghost var k :| 0 <= k <= |s| && (s + [p])[k] == t;
    HoldsExceptMore(m0, lists, st, {}, {id}, {}, {});
    assert HoldsExcept(m0, lists, st', {id}, {});
    WriteInBlock(m0, mem[..], lists, st', {id}, {}, Listed(id, k));
    lists' := lists[id := l];
    HoldsAfter(mem[..], lists, lists', st', st', {id}, {});
  }

  // ---------------------------------------------------------------- the loops

  /** Moves tops from `src` to `dst` while `src` has more than `keep` and `dst` fewer than `limit`. */
  method MoveBlocks(mem: array<Byte>, lists: Lists, src: ListId, dst: ListId, keep: nat, limit: nat, ghost st: State)
    returns (lists': Lists)
    requires Inv(st) && Holds(mem[..], lists, st) && ValidId(st.cores, src) && ValidId(st.cores, dst)
    requires src != dst && src.shift == dst.shift
    modifies mem
    ensures Holds(mem[..], lists', MoveWhile(st, src, dst, keep, limit))
    ensures LiveSame(old(mem[..]), mem[..], st.size, {})
  {
    ghost var m0, s := mem[..], st;
    lists' := lists;
    ListSize(m0, lists', s, src);
    ListSize(m0, lists', s, dst);
    while lists'[src].size > keep && lists'[dst].size < limit
      invariant Inv(s) && Holds(mem[..], lists', s) && s.size == st.size && s.cores == st.cores
      invariant src in lists' && lists'[src].size == |s.stacks(src)|
      invariant dst in lists' && lists'[dst].size == |s.stacks(dst)|
      invariant MoveWhile(s, src, dst, keep, limit) == MoveWhile(st, src, dst, keep, limit)
      invariant LiveSame(m0, mem[..], st.size, {})
      decreases |s.stacks(src)|
    {
      ghost var m1 := mem[..];
      lists' := MoveBlock(mem, lists', src, dst, s);
      MoveTopKeepsInv(s, src, dst);
      s := MoveTop(s, src, dst);
      ListSize(mem[..], lists', s, src);
      ListSize(mem[..], lists', s, dst);
      LiveSameTrans(m0, m1, mem[..], st.size, {});
    }
  }

  /** Lines 101-104. */
  method CarveBlocks(mem: array<Byte>, lists: Lists, cur: nat, end: nat, id: ListId, remaining: nat, ghost st: State)
    returns (lists': Lists, cur': nat)
    requires Inv(st) && Holds(mem[..], lists, st) && ValidId(st.cores, id) && st.cur == cur && st.end == end <= mem.Length
    modifies mem
    ensures Holds(mem[..], lists', Carve(st, id, remaining)) && cur' == Carve(st, id, remaining).cur
    ensures LiveSame(old(mem[..]), mem[..], st.size, {})
  {
    ghost var m0, s := mem[..], st;
    lists', cur' := lists, cur;
    var i := 0;
    while i < remaining && cur' + SlabSize(id.shift) <= end
      invariant i <= remaining && Inv(s) && Holds(mem[..], lists', s)
      invariant s.size == st.size && s.cur == cur' && s.end == end && s.cores == st.cores
      invariant Carve(s, id, remaining - i) == Carve(st, id, remaining)
      invariant LiveSame(m0, mem[..], st.size, {})
    {
      ghost var m1 := mem[..];
      lists' := PushCarved(mem, lists', id, cur', s);
      CarveOneKeepsInv(s, id);
      s := CarveOne(s, id);
      cur' := cur' + SlabSize(id.shift);
      LiveSameTrans(m0, m1, mem[..], st.size, {});
      i := i + 1;
    }
  }

  /** Refills the core's list: first from the global list, then from uncarved memory (lines 84-105). */
  method RefillList(mem: array<Byte>, lists: Lists, cur: nat, end: nat, core: nat, shift: nat, ghost st: State)
    returns (lists': Lists, cur': nat)
    requires Inv(st) && Holds(mem[..], lists, st) && st.cur == cur && st.end == end <= mem.Length
    requires ValidId(st.cores, Core(core, shift))
    modifies mem
    ensures Holds(mem[..], lists', Refilled(st, core, shift)) && cur' == Refilled(st, core, shift).cur
    ensures LiveSame(old(mem[..]), mem[..], st.size, {})
  {
    var cid, gid := Core(core, shift), Global(shift);
    var limit := RefillLimit(shift);
    ghost var m0 := mem[..];
    ghost var moved := MoveWhile(st, gid, cid, 0, limit);
    MoveWhileKeepsInv(st, gid, cid, 0, limit);
    lists' := MoveBlocks(mem, lists, gid, cid, 0, limit, st);
    ghost var m1 := mem[..];
    lists', cur' := CarveRest(mem, lists', cur, end, cid, limit, moved);
    LiveSameTrans(m0, m1, mem[..], st.size, {});
  }

  /** Lines 96-105: carves what is still missing from the limit. */
  method CarveRest(mem: array<Byte>, lists: Lists, cur: nat, end: nat, id: ListId, limit: nat, ghost st: State)
    returns (lists': Lists, cur': nat)
    requires Inv(st) && Holds(mem[..], lists, st) && ValidId(st.cores, id) && st.cur == cur && st.end == end <= mem.Length
    modifies mem
    ensures
      var n := |st.stacks(id)|;
      var st' := if n < limit then Carve(st, id, limit - n) else st;
      Holds(mem[..], lists', st') && cur' == st'.cur
    ensures LiveSame(old(mem[..]), mem[..], st.size, {})
  {
    lists', cur' := lists, cur;
    ListSize(mem[..], lists, st, id);
    if lists[id].size < limit {
      lists', cur' := CarveBlocks(mem, lists, cur, end, id, limit - lists[id].size, st);
    }
  }

  /** Moves half of an overlong core list to the global list (lines 219-227). */
  method SpillList(mem: array<Byte>, lists: Lists, core: nat, shift: nat, ghost st: State) returns (lists': Lists)
    requires Inv(st) && Holds(mem[..], lists, st) && ValidId(st.cores, Core(core, shift))
    modifies mem
    ensures Holds(mem[..], lists', Spill(st, core, shift))
    ensures LiveSame(old(mem[..]), mem[..], st.size, {})
  {
    var cid, gid := Core(core, shift), Global(shift);
    ListSize(mem[..], lists, st, cid);
    ListSize(mem[..], lists, st, gid);
    lists' := lists;
    if lists[cid].size > MaxCacheEntries(shift) {
      lists' := MoveBlocks(mem, lists, cid, gid, MaxCacheEntries(shift) / 2, lists[cid].size + lists[gid].size, st);
    }
  }

  /** allocate (lines 63-124); returns the new lists and break, and 0 for nullptr. */
  method AllocateBlock(mem: array<Byte>, lists: Lists, cur: nat, end: nat, core: nat, size: nat, ghost st: State)
    returns (ptr: nat, lists': Lists, cur': nat)
    requires Inv(st) && Holds(mem[..], lists, st) && st.cur == cur && st.end == end <= mem.Length
    requires core < st.cores <= ADDRESS_SPACE
    modifies mem
    ensures ptr == Allocate(st, core, size).1 && cur' == Allocate(st, core, size).0.cur
    ensures Holds(mem[..], lists', Allocate(st, core, size).0)
    ensures LiveSame(old(mem[..]), mem[..], st.size, {})
  {
    ghost var m0, ready := mem[..], st;
    ptr, lists', cur' := 0, lists, cur;
    var shift := SlabShift(size);
    if size == 0 || shift > MAX_SHIFT {
      return;
    }
    var id := Core(core, shift);
    ListSize(m0, lists, st, id);
    if lists'[id].size == 0 {
      RefilledKeepsInv(st, core, shift);
      lists', cur' := RefillList(mem, lists, cur, end, core, shift, st);
      ready := Refilled(st, core, shift);
    }
    ghost var m1 := mem[..];
    ListSize(m1, lists', ready, id);
    if lists'[id].size != 0 {
      var p;
      p, lists' := TakeBlock(mem, lists', id, size, ready);
      LiveSameTrans(m0, m1, mem[..], st.size, {});
      ptr := p + HEADER_BYTES;
    }
  }

  /** do_free (lines 148-165 and 212-228). */
  method FreeBlock(mem: array<Byte>, lists: Lists, core: nat, ptr: nat, shift: nat, ghost st: State)
    returns (lists': Lists)
    requires Inv(st) && Holds(mem[..], lists, st) && core < st.cores
    requires ptr >= HEADER_BYTES && st.size(ptr - HEADER_BYTES) > 0 && shift == SlabShift(st.size(ptr - HEADER_BYTES))
    modifies mem
    ensures Holds(mem[..], lists', Free(st, core, ptr))
    ensures LiveSame(old(mem[..]), mem[..], st.size, {ptr - HEADER_BYTES})
  {
    var block := ptr - HEADER_BYTES;
    assert ValidId(st.cores, Core(core, shift));
    lists' := PushAndSpill(mem, lists, core, block, shift, st);
  }

  /** Lines 136-145: the class to free to comes from the size in the header. */
  method FreeByHeader(mem: array<Byte>, lists: Lists, core: nat, ptr: nat, ghost st: State) returns (lists': Lists)
    requires Inv(st) && Holds(mem[..], lists, st) && core < st.cores
    requires ptr >= HEADER_BYTES && st.size(ptr - HEADER_BYTES) > 0
    modifies mem
    ensures Holds(mem[..], lists', Free(st, core, ptr))
    ensures LiveSame(old(mem[..]), mem[..], With<nat, nat>(st.size, ptr - HEADER_BYTES, 0), {})
  {
    ghost var m := mem[..];
    var size := LoadWord(mem, ptr - HEADER_BYTES);
    lists' := FreeBlock(mem, lists, core, ptr, SlabShift(size), st);
    LiveAfterFree(m, mem[..], st.size, ptr - HEADER_BYTES);
  }

  method PushAndSpill(mem: array<Byte>, lists: Lists, core: nat, block: nat, shift: nat, ghost st: State)
    returns (lists': Lists)
    requires Inv(st) && Holds(mem[..], lists, st) && ValidId(st.cores, Core(core, shift))
    requires st.size(block) > 0 && SlabShift(st.size(block)) == shift
    modifies mem
    ensures Holds(mem[..], lists', Spill(GiveBack(st, Core(core, shift), block), core, shift))
    ensures LiveSame(old(mem[..]), mem[..], st.size, {block})
  {
    ghost var m0 := mem[..];
    lists' := PushFreed(mem, lists, Core(core, shift), block, st);
    GiveBackKeepsInv(st, Core(core, shift), block);
    ghost var m1 := mem[..];
    lists' := SpillList(mem, lists', core, shift, GiveBack(st, Core(core, shift), block));
    LiveSameWithout(m1, mem[..], st.size, block);
    LiveSameTrans(m0, m1, mem[..], st.size, {block});
  }

  // ---------------------------------------------------------------- the class

  class SlabAllocator {
    const mem: array<Byte>
    const start: nat
    const end: nat
    const cores: nat
    var cur: nat
    var lists: Lists
    ghost var st: State

    ghost predicate Valid()
      reads this, mem
    {
      && st.start == start && st.end == end <= mem.Length && st.cores == cores <= ADDRESS_SPACE && st.cur == cur
      && Inv(st) && CachesBounded(st) && Holds(mem[..], lists, st)
    }

    /** `mem` is the address space, [start, end) the span handed to the allocator. */
    constructor (mem: array<Byte>, start: nat, end: nat, cores: nat)
      requires 0 < start <= end <= mem.Length <= ADDRESS_SPACE && start % ALIGNMENT == 0 && cores <= ADDRESS_SPACE
      ensures Valid() && this.mem == mem && this.cores == cores && st == Initial(start, end, cores)
    {
      this.mem := mem;
      this.start := start;
      this.end := end;
      this.cores := cores;
      cur := start;
      lists := map id | id in Ids(cores) :: EMPTY_LIST;
      st := Initial(start, end, cores);
      InitialInv(start, end, cores);
    }

    /** Performed by `core` with preemption off; operations of other cores come before or after. */
    method Allocate(core: nat, size: nat) returns (ptr: nat)
      requires Valid() && core < cores
      modifies this, mem
      ensures Valid() && (st, ptr) == SlabModel.Allocate(old(st), core, size)
      ensures AllocateOutcome(old(st), core, size, st, ptr)
      ensures LiveSame(old(mem[..]), mem[..], old(st.size), {})
    {
      AllocateCorrect(st, core, size);
      AllocateBounded(st, core, size);
      ptr, lists, cur := AllocateBlock(mem, lists, cur, end, core, size, st);
      st := SlabModel.Allocate(st, core, size).0;
    }

    method Free(core: nat, ptr: nat)
      requires Valid() && core < cores
      requires ptr != 0 ==> ptr >= HEADER_BYTES && st.size(ptr - HEADER_BYTES) > 0
      modifies this, mem
      ensures Valid()
      ensures st == if ptr == 0 then old(st) else SlabModel.Free(old(st), core, ptr)
      ensures ptr != 0 ==> st.size == With<nat, nat>(old(st.size), ptr - HEADER_BYTES, 0)
      ensures LiveSame(old(mem[..]), mem[..], st.size, {})
    {
      if ptr == 0 {
        return;
      }
      FreeCorrect(st, core, ptr);
      FreeBounded(st, core, ptr);
      lists := FreeByHeader(mem, lists, core, ptr, st);
      st := SlabModel.Free(st, core, ptr);
    }

    /** One operation of any core, as a step of memory and state. */
    method Perform(op: Op)
      requires Valid() && Legal(st, op)
      modifies this, mem
      ensures Valid() && MemStep(old(mem[..]), old(st), Operate(op), mem[..], st)
    {
      ghost var m0, st0 := mem[..], st;
      match op {
        case AllocOp(core, size) =>
          var _ := Allocate(core, size);
          AllocateIsMemStep(m0, st0, core, size, mem[..]);
        case FreeOp(core, ptr) =>
          Free(core, ptr);
          FreeIsMemStep(m0, st0, core, ptr, mem[..]);
      }
    }

    /** The owner of a live block writes into its payload, past the allocator. */
    method WriteBytes(b: nat, off: nat, bytes: seq<Byte>)
      requires Valid() && 0 < off + |bytes| <= st.size(b)
      modifies mem
      ensures Valid() && MemStep(old(mem[..]), st, Write(b, off, bytes), mem[..], st)
    {
      PayloadInRange(st, b);
      ghost var m := mem[..];
      FillBytes(mem, b + HEADER_BYTES + off, bytes);
      WritePayload(m, mem[..], lists, st, b, off + |bytes|);
    }

    /**
     allocate on `core`, memcpy, then free on `core'` (the thread may have migrated).
     The common prefix of the payload survives; on failure nothing changes.
     */
    method Reallocate(core: nat, core': nat, ptr: nat, newSize: nat) returns (newPtr: nat)
      requires Valid() && core < cores && core' < cores
      requires ptr >= HEADER_BYTES && st.size(ptr - HEADER_BYTES) > 0
      modifies this, mem
      ensures Valid()
      ensures newPtr == SlabModel.Allocate(old(st), core, newSize).1
      ensures newPtr == 0 ==> st == old(st) && LiveSame(old(mem[..]), mem[..], old(st.size), {})
      ensures newPtr != 0 ==>
        && st == SlabModel.Free(SlabModel.Allocate(old(st), core, newSize).0, core', ptr)
        && Moved(old(mem[..]), mem[..], old(st.size), st.size, ptr, newPtr, newSize)
    {
      ghost var m0, st0 := mem[..], st;
      var size := LoadWord(mem, ptr - HEADER_BYTES);
      newPtr := Allocate(core, newSize);
      if newPtr == 0 {
        return;
      }
      StillLive(st0, st, core, ptr, newPtr, newSize);
      MoveTo(core', ptr, newPtr, size, newSize, m0, st0.size);
    }

    /** The part of reallocate after the allocation (lines 181-186). */
    method MoveTo(core: nat, ptr: nat, newPtr: nat, size: nat, newSize: nat, ghost m0: seq<Byte>, ghost size0: nat -> nat)
      requires Valid() && core < cores && ptr >= HEADER_BYTES && newPtr >= HEADER_BYTES && ptr != newPtr && newSize > 0
      requires size0(ptr - HEADER_BYTES) == size > 0 && size0(newPtr - HEADER_BYTES) == 0
      requires st.size == With<nat, nat>(size0, newPtr - HEADER_BYTES, newSize)
      requires LiveSame(m0, mem[..], size0, {})
      modifies this, mem
      ensures Valid() && st == SlabModel.Free(old(st), core, ptr)
      ensures Moved(m0, mem[..], size0, st.size, ptr, newPtr, newSize)
    {
      FreeCorrect(st, core, ptr);
      FreeBounded(st, core, ptr);
      lists := CopyAndFree(mem, lists, core, ptr, newPtr, size, newSize, st, m0, size0);
      st := SlabModel.Free(st, core, ptr);
    }
  }

  /** A block that was live before an allocation is still live after it, elsewhere than the new block. */
  lemma StillLive(st: State, st': State, core: nat, ptr: nat, newPtr: nat, newSize: nat)
    requires AllocateOutcome(st, core, newSize, st', newPtr) && newPtr != 0
    requires ptr >= HEADER_BYTES && st.size(ptr - HEADER_BYTES) > 0
    ensures newPtr != ptr && newPtr >= HEADER_BYTES && newSize > 0
    ensures st.size(newPtr - HEADER_BYTES) == 0 && st'.size(ptr - HEADER_BYTES) == st.size(ptr - HEADER_BYTES)
    ensures st'.size == With<nat, nat>(st.size, newPtr - HEADER_BYTES, newSize)
  {
  }

  /** The payload moved from `ptr` to `newPtr`: its prefix is copied and no other live block changed. */
  ghost predicate Moved(m: seq<Byte>, m': seq<Byte>, size: nat -> nat, size': nat -> nat, ptr: nat, newPtr: nat, newSize: nat) {
    && ptr >= HEADER_BYTES && newPtr >= HEADER_BYTES && newPtr != ptr
    && size' == With<nat, nat>(With<nat, nat>(size, newPtr - HEADER_BYTES, newSize), ptr - HEADER_BYTES, 0)
    && PrefixCopied(m, m', ptr, newPtr, Min(size(ptr - HEADER_BYTES), newSize))
    && LiveSame(m, m', size, {ptr - HEADER_BYTES})
  }

  method CopyAndFree(mem: array<Byte>, lists: Lists, core: nat, ptr: nat, newPtr: nat, size: nat, newSize: nat,
                     ghost st: State, ghost m0: seq<Byte>, ghost size0: nat -> nat)
    returns (lists': Lists)
    requires Inv(st) && Holds(mem[..], lists, st) && core < st.cores
    requires ptr >= HEADER_BYTES && newPtr >= HEADER_BYTES && ptr != newPtr && newSize > 0
    requires size0(ptr - HEADER_BYTES) == size > 0 && size0(newPtr - HEADER_BYTES) == 0
    requires st.size == With<nat, nat>(size0, newPtr - HEADER_BYTES, newSize)
    requires LiveSame(m0, mem[..], size0, {})
    modifies mem
    ensures Holds(mem[..], lists', Free(st, core, ptr))
    ensures Moved(m0, mem[..], size0, With<nat, nat>(st.size, ptr - HEADER_BYTES, 0), ptr, newPtr, newSize)
  {
    ghost var m1 := mem[..];
    ReallocDisjoint(st, ptr, newPtr);
    CopyPayload(mem, lists, newPtr, ptr, Min(size, newSize), st);
    ghost var m2 := mem[..];
    lists' := FreeBlock(mem, lists, core, ptr, SlabShift(size), st);
    ReallocBytes(m0, m1, m2, mem[..], size0, st.size, ptr, newPtr, Min(size, newSize));
  }

  // ---------------------------------------------------------------- runs of all cores on memory

  /** An operation of the allocator, or a write of a block's owner into its payload. */
  datatype Event = Operate(op: Op) | Write(b: nat, off: nat, bytes: seq<Byte>)

  ghost predicate Written(m: seq<Byte>, m': seq<Byte>, at: nat, bytes: seq<Byte>) {
    at + |bytes| <= |m| && SameOutside(m, m', at, at + |bytes|) && m'[at..at + |bytes|] == bytes
  }

  /** What one event does to the state and to the bytes of the blocks it leaves live. */
  ghost predicate MemStep(m: seq<Byte>, st: State, e: Event, m': seq<Byte>, st': State) {
    match e
    case Operate(op) =>
      && Next(st, op, st') && |m'| == |m|
      && forall b: nat :: st.size(b) > 0 && !Frees(op, b) ==> BlockSame(m, m', b, st.size(b))
    case Write(b, off, bytes) =>
      st' == st && 0 < off + |bytes| <= st.size(b) && Written(m, m', b + HEADER_BYTES + off, bytes)
  }

  lemma AllocateIsMemStep(m: seq<Byte>, st: State, core: nat, size: nat, m': seq<Byte>)
    requires Legal(st, AllocOp(core, size)) && LiveSame(m, m', st.size, {}) && |m'| == |m|
    ensures MemStep(m, st, Operate(AllocOp(core, size)), m', SlabModel.Allocate(st, core, size).0)
  {
  }

  lemma FreeIsMemStep(m: seq<Byte>, st: State, core: nat, ptr: nat, m': seq<Byte>)
    requires Inv(st) && Legal(st, FreeOp(core, ptr)) && LiveSame(m, m', Step(st, FreeOp(core, ptr)).size, {})
    requires |m'| == |m|
    ensures MemStep(m, st, Operate(FreeOp(core, ptr)), m', Step(st, FreeOp(core, ptr)))
  {
    forall b: nat | st.size(b) > 0 && !Frees(FreeOp(core, ptr), b) ensures BlockSame(m, m', b, st.size(b)) {
      StepKeepsLive(st, FreeOp(core, ptr), b);
    }
  }

  /** Memories and states along any sequence of events of any cores. */
  ghost predicate IsMemRun(ms: seq<seq<Byte>>, sts: seq<State>, es: seq<Event>) {
    && |ms| == |sts| == |es| + 1 && Inv(sts[0]) && CachesBounded(sts[0])
    && (forall i :: 0 <= i < |ms| ==> |ms[i]| == |ms[0]|)
    && forall i :: 0 <= i < |es| ==> MemStep(ms[i], sts[i], es[i], ms[i + 1], sts[i + 1])
  }

  /** The event frees block b or writes into [lo, hi) of its payload. */
  ghost predicate Disturbs(e: Event, b: nat, lo: nat, hi: nat) {
    match e
    case Operate(op) => Frees(op, b)
    case Write(c, off, bytes) => c == b && lo < b + HEADER_BYTES + off + |bytes| && b + HEADER_BYTES + off < hi
  }

  /** [lo, hi) lies in the payload of live block b. */
  ghost predicate InPayload(m: seq<Byte>, st: State, b: nat, lo: nat, hi: nat) {
    st.size(b) > 0 && b + HEADER_BYTES <= lo <= hi <= b + HEADER_BYTES + st.size(b) && hi <= |m|
  }

  /** The block stays live with its size, and the bytes of the range stay what they are. */
  ghost predicate Kept(m: seq<Byte>, st: State, m': seq<Byte>, st': State, b: nat, lo: nat, hi: nat) {
    InPayload(m, st, b, lo, hi) && |m'| == |m| && st'.size(b) == st.size(b) && m'[lo..hi] == m[lo..hi]
  }

  lemma OperateKeepsBytes(m: seq<Byte>, st: State, op: Op, m': seq<Byte>, st': State, b: nat, lo: nat, hi: nat)
    requires Inv(st) && MemStep(m, st, Operate(op), m', st') && InPayload(m, st, b, lo, hi) && !Frees(op, b)
    ensures Kept(m, st, m', st', b, lo, hi)
  {
    StepKeepsLive(st, op, b);
    SlabShiftIsTight(st.size(b));
    assert BlockSame(m, m', b, st.size(b));
  }

  lemma WriteKeepsBytes(m: seq<Byte>, st: State, e: Event, m': seq<Byte>, st': State, b: nat, lo: nat, hi: nat)
    requires Inv(st) && e.Write? && MemStep(m, st, e, m', st') && InPayload(m, st, b, lo, hi) && !Disturbs(e, b, lo, hi)
    ensures Kept(m, st, m', st', b, lo, hi)
  {
    if e.b != b {
      PayloadsApart(st, b, e.b);
    }
  }

  lemma StepKeepsBytes(m: seq<Byte>, st: State, e: Event, m': seq<Byte>, st': State, b: nat, lo: nat, hi: nat)
    requires Inv(st) && MemStep(m, st, e, m', st') && InPayload(m, st, b, lo, hi) && !Disturbs(e, b, lo, hi)
    ensures Kept(m, st, m', st', b, lo, hi)
  {
    if e.Write? {
      WriteKeepsBytes(m, st, e, m', st', b, lo, hi);
    } else {
      OperateKeepsBytes(m, st, e.op, m', st', b, lo, hi);
    }
  }

  lemma {:induction false} MemRunKeepsInv(ms: seq<seq<Byte>>, sts: seq<State>, es: seq<Event>, n: nat)
    requires IsMemRun(ms, sts, es) && n <= |es|
    ensures Inv(sts[n]) && CachesBounded(sts[n])
  {
    if n > 0 {
      var i := n - 1;
      MemRunKeepsInv(ms, sts, es, i);
      assert MemStep(ms[i], sts[i], es[i], ms[i + 1], sts[i + 1]);
      if es[i].Operate? {
        StepKeepsInv(sts[i], es[i].op, sts[i + 1]);
      }
    }
  }

  /** Whatever the cores allocate, free or write elsewhere, bytes of a live payload stay what they are. */
  lemma {:induction false} RunKeepsBytes(ms: seq<seq<Byte>>, sts: seq<State>, es: seq<Event>, i: nat, n: nat,
                                         b: nat, lo: nat, hi: nat)
    requires IsMemRun(ms, sts, es) && i <= n <= |es| && InPayload(ms[i], sts[i], b, lo, hi)
    requires forall k :: i <= k < n ==> !Disturbs(es[k], b, lo, hi)
    ensures Kept(ms[i], sts[i], ms[n], sts[n], b, lo, hi)
    decreases n
  {
    if i < n {
      var k := n - 1;
      RunKeepsBytes(ms, sts, es, i, k, b, lo, hi);
      MemRunKeepsInv(ms, sts, es, k);
      assert MemStep(ms[k], sts[k], es[k], ms[k + 1], sts[k + 1]);
      StepKeepsBytes(ms[k], sts[k], es[k], ms[n], sts[n], b, lo, hi);
    }
  }

  /** What the owner of a block wrote last is read back, whatever the other cores do. */
  lemma WrittenIsReadBack(ms: seq<seq<Byte>>, sts: seq<State>, es: seq<Event>, i: nat, n: nat)
    requires IsMemRun(ms, sts, es) && i < n <= |es| && es[i].Write?
    requires
      var lo := es[i].b + HEADER_BYTES + es[i].off;
      forall k :: i < k < n ==> !Disturbs(es[k], es[i].b, lo, lo + |es[i].bytes|)
    ensures
      var lo := es[i].b + HEADER_BYTES + es[i].off;
      && lo + |es[i].bytes| <= |ms[n]| && ms[n][lo..lo + |es[i].bytes|] == es[i].bytes
      && sts[n].size(es[i].b) == sts[i].size(es[i].b) > 0
  {
    assert MemStep(ms[i], sts[i], es[i], ms[i + 1], sts[i + 1]);
    var lo := es[i].b + HEADER_BYTES + es[i].off;
    RunKeepsBytes(ms, sts, es, i + 1, n, es[i].b, lo, lo + |es[i].bytes|);
  }

  /**
   reallocate as its sections among the events of all cores: event i allocates the new block, event j
   copies the common prefix into it, and the old block is freed at any time after that.  Nobody else frees
   the two blocks or writes into the copied range.  Whatever happens in between, the prefix ends up in the
   new block, which is live with the requested size.
   */
  lemma ReallocateAmongOthers(ms: seq<seq<Byte>>, sts: seq<State>, es: seq<Event>, core: nat, newSize: nat,
                              ptr: nat, newPtr: nat, i: nat, j: nat, n: nat)
    requires IsMemRun(ms, sts, es) && i < j < n <= |es| && es[i] == Operate(AllocOp(core, newSize))
    requires newPtr == SlabModel.Allocate(sts[i], core, newSize).1 >= HEADER_BYTES
    requires ptr >= HEADER_BYTES && sts[i].size(ptr - HEADER_BYTES) > 0
    requires
      var len := Min(sts[i].size(ptr - HEADER_BYTES), newSize);
      && ptr + len <= |ms[0]| && es[j] == Write(newPtr - HEADER_BYTES, 0, ms[j][ptr..ptr + len])
      && (forall k :: i <= k < j ==> !Disturbs(es[k], ptr - HEADER_BYTES, ptr, ptr + len))
      && (forall k :: i < k < j ==> !Disturbs(es[k], newPtr - HEADER_BYTES, newPtr, newPtr))
      && (forall k :: j < k < n ==> !Disturbs(es[k], newPtr - HEADER_BYTES, newPtr, newPtr + len))
    ensures PrefixCopied(ms[i], ms[n], ptr, newPtr, Min(sts[i].size(ptr - HEADER_BYTES), newSize))
    ensures sts[n].size(newPtr - HEADER_BYTES) == newSize
  {
    var b: nat, c: nat := ptr - HEADER_BYTES, newPtr - HEADER_BYTES;
    var len := Min(sts[i].size(b), newSize);
    RunKeepsBytes(ms, sts, es, i, j, b, ptr, ptr + len);
    WrittenIsReadBack(ms, sts, es, j, n);
    assert MemStep(ms[j], sts[j], es[j], ms[j + 1], sts[j + 1]);
    NewBlockKept(ms, sts, es, core, newSize, c, i, j);
  }

  /** A block just allocated is live with the requested size until somebody frees it. */
  lemma NewBlockKept(ms: seq<seq<Byte>>, sts: seq<State>, es: seq<Event>, core: nat, size: nat, c: nat, i: nat, n: nat)
    requires IsMemRun(ms, sts, es) && i < n <= |es| && es[i] == Operate(AllocOp(core, size))
    requires SlabModel.Allocate(sts[i], core, size).1 == c + HEADER_BYTES && c + HEADER_BYTES <= |ms[i + 1]|
    requires forall k :: i < k < n ==> !Disturbs(es[k], c, c + HEADER_BYTES, c + HEADER_BYTES)
    ensures sts[n].size(c) == size > 0
  {
    assert MemStep(ms[i], sts[i], es[i], ms[i + 1], sts[i + 1]);
    MemRunKeepsInv(ms, sts, es, i);
    AllocateCorrect(sts[i], core, size);
    RunKeepsBytes(ms, sts, es, i + 1, n, c, c + HEADER_BYTES, c + HEADER_BYTES);
  }

  function Ids(cores: nat): set<ListId> {
    (set shift | MIN_SHIFT <= shift <= MAX_SHIFT :: Global(shift)) +
    (set core, shift | 0 <= core < cores && MIN_SHIFT <= shift <= MAX_SHIFT :: Core(core, shift))
  }

  /** The first `n` bytes at `dst` in `m'` are those at `src` in `m`. */
  ghost predicate PrefixCopied(m: seq<Byte>, m': seq<Byte>, src: nat, dst: nat, n: nat) {
    src + n <= |m| && dst + n <= |m'| && m'[dst..dst + n] == m[src..src + n]
  }

  /** Old and new block of a reallocation are different live blocks, so their payloads are disjoint. */
  lemma ReallocDisjoint(st: State, ptr: nat, newPtr: nat)
    requires Inv(st) && ptr >= HEADER_BYTES && newPtr >= HEADER_BYTES && ptr != newPtr
    requires st.size(ptr - HEADER_BYTES) > 0 && st.size(newPtr - HEADER_BYTES) > 0
    ensures ptr + st.size(ptr - HEADER_BYTES) <= st.cur && newPtr + st.size(newPtr - HEADER_BYTES) <= st.cur
    ensures ptr + st.size(ptr - HEADER_BYTES) <= newPtr - HEADER_BYTES || newPtr + st.size(newPtr - HEADER_BYTES) <= ptr - HEADER_BYTES
  {
    PayloadInRange(st, ptr - HEADER_BYTES);
    PayloadInRange(st, newPtr - HEADER_BYTES);
    PayloadsApart(st, ptr - HEADER_BYTES, newPtr - HEADER_BYTES);
  }

  /** Writing the payload of a live block disturbs neither the free lists nor any header. */
  lemma WritePayload(m: seq<Byte>, m': seq<Byte>, lists: Lists, st: State, b: nat, n: nat)
    requires Inv(st) && Holds(m, lists, st) && 0 < n <= st.size(b)
    requires SameOutside(m, m', b + HEADER_BYTES, b + HEADER_BYTES + n)
    ensures Holds(m', lists, st) && LiveSame(m, m', st.size, {b})
  {
    var lo, hi := b + HEADER_BYTES, b + HEADER_BYTES + n;
    PayloadFits(st, b);
    forall id | ValidId(st.cores, id) ensures Rep(m', lists[id], st.stacks(id)) {
      var s := st.stacks(id);
      forall i | 0 <= i < |s| ensures s[i] + BATCH_BYTES <= lo || hi <= s[i] {
        PlacesApart(st, Allocated(b), Listed(id, i));
      }
      RepFrameRange(m, m', lists[id], s, lo, hi);
    }
    forall c: nat | st.size(c) > 0
      ensures c + WORD <= |m| && Load(m', c) == st.size(c) && (c != b ==> BlockSame(m, m', c, st.size(c)))
    {
      PlaceFacts(st, Allocated(c));
      if c != b {
        PlacesApart(st, Allocated(b), Allocated(c));
        PlacesApart(st, Allocated(c), Allocated(b));
        assert Separate(st);
      }
      LoadFrame(m, m', lo, hi, c);
    }
  }

  lemma RepFrameRange(m: seq<Byte>, m': seq<Byte>, l: FreeList, s: seq<nat>, lo: int, hi: int)
    requires Rep(m, l, s) && SameOutside(m, m', lo, hi)
    requires forall i :: 0 <= i < |s| ==> s[i] + BATCH_BYTES <= lo || hi <= s[i]
    ensures Rep(m', l, s)
  {
    forall i | 0 <= i < |s| && i % BATCH == 0 ensures BatchAt(m', s, i) {
      assert BatchAt(m, s, i);
      forall j | 0 <= j < BATCH ensures Load(m', s[i] + WORD * j) == Slot(s, i, j) {
        LoadFrame(m, m', lo, hi, s[i] + WORD * j);
      }
    }
  }

  /** memcpy(newPtr, ptr, n) between the payloads of two live blocks. */
  method CopyPayload(mem: array<Byte>, ghost lists: Lists, newPtr: nat, ptr: nat, n: nat, ghost st: State)
    requires Inv(st) && Holds(mem[..], lists, st) && newPtr >= HEADER_BYTES && 0 < n <= st.size(newPtr - HEADER_BYTES)
    requires ptr + n <= mem.Length && newPtr + n <= mem.Length && (ptr + n <= newPtr || newPtr + n <= ptr)
    modifies mem
    ensures Holds(mem[..], lists, st) && LiveSame(old(mem[..]), mem[..], st.size, {newPtr - HEADER_BYTES})
    ensures PrefixCopied(old(mem[..]), mem[..], ptr, newPtr, n)
  {
    ghost var m := mem[..];
    CopyBytes(mem, newPtr, ptr, n);
    WritePayload(m, mem[..], lists, st, newPtr - HEADER_BYTES, n);
  }

  method FillBytes(mem: array<Byte>, at: nat, bytes: seq<Byte>)
    requires at + |bytes| <= mem.Length
    modifies mem
    ensures Written(old(mem[..]), mem[..], at, bytes)
  {
    ghost var m := mem[..];
    for i := 0 to |bytes|
      invariant Written(m, mem[..], at, bytes[..i])
    {
      ghost var m1 := mem[..];
      mem[at + i] := bytes[i];
      assert mem[..] == m1[at + i := bytes[i]];
      assert mem[..][at..at + i] == m1[at..at + i];
      assert mem[..][at..at + i + 1] == mem[..][at..at + i] + [bytes[i]];
      assert bytes[..i + 1] == bytes[..i] + [bytes[i]];
    }
    assert bytes[..|bytes|] == bytes;
  }

  method CopyBytes(mem: array<Byte>, dst: nat, src: nat, n: nat)
    requires src + n <= mem.Length && dst + n <= mem.Length && (src + n <= dst || dst + n <= src)
    modifies mem
    ensures SameOutside(old(mem[..]), mem[..], dst, dst + n) && PrefixCopied(old(mem[..]), mem[..], src, dst, n)
  {
    ghost var m := mem[..];
    for i := 0 to n
      invariant SameOutside(m, mem[..], dst, dst + i) && PrefixCopied(m, mem[..], src, dst, i)
    {
      ghost var m1 := mem[..];
      assert m1[src + i] == m[src + i];
      mem[dst + i] := mem[src + i];
      assert mem[..] == m1[dst + i := m[src + i]];
      assert mem[..][dst..dst + i] == m1[dst..dst + i];
      assert mem[..][dst..dst + i + 1] == mem[..][dst..dst + i] + [m[src + i]];
      assert m[src..src + i + 1] == m[src..src + i] + [m[src + i]];
    }
  }

  lemma ReallocBytes(m0: seq<Byte>, m1: seq<Byte>, m2: seq<Byte>, m3: seq<Byte>, size0: nat -> nat, size1: nat -> nat,
                     ptr: nat, newPtr: nat, n: nat)
    requires ptr >= HEADER_BYTES && newPtr >= HEADER_BYTES && ptr != newPtr
    requires var b, c: nat := ptr - HEADER_BYTES, newPtr - HEADER_BYTES;
      && size0(b) > 0 && size0(c) == 0 && size1 == With<nat, nat>(size0, c, size1(c)) && size1(c) > 0
      && n <= size0(b) && n <= size1(c)
      && LiveSame(m0, m1, size0, {}) && LiveSame(m1, m2, size1, {c}) && LiveSame(m2, m3, size1, {b})
    requires PrefixCopied(m1, m2, ptr, newPtr, n)
    ensures PrefixCopied(m0, m3, ptr, newPtr, n)
    ensures LiveSame(m0, m3, size0, {ptr - HEADER_BYTES})
  {
    var b: nat, c: nat := ptr - HEADER_BYTES, newPtr - HEADER_BYTES;
    SlabShiftIsTight(size0(b));
    SlabShiftIsTight(size1(c));
    assert BlockSame(m0, m1, b, size0(b)) && BlockSame(m2, m3, c, size1(c));
    assert m1[ptr..ptr + n] == m0[ptr..ptr + n];
    assert m3[newPtr..newPtr + n] == m2[newPtr..newPtr + n];
    forall a: nat | size0(a) > 0 && a !in {b} ensures BlockSame(m0, m3, a, size0(a)) {
      assert a != c && size1(a) == size0(a);
      assert BlockSame(m0, m1, a, size0(a)) && BlockSame(m1, m2, a, size1(a)) && BlockSame(m2, m3, a, size1(a));
    }
  }
}
