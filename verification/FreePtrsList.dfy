/**
 The intrusive batched free list of sandook/mem/slab.cc:9-53.

 The list owns no storage: a batch of six pointers is laid out inside the first
 block of each group of six.  Slot 0 of a batch points to the previous batch,
 slots 1 to 5 hold further free blocks.  `s` is the abstract stack, bottom first.
 */
module FreePtrsList {
  import opened RawMemory

  /** (kMinObjectSize + sizeof(PtrHeader)) / sizeof(void *), with 32-byte minimum objects. */
  const BATCH: nat := 6
  const BATCH_BYTES: nat := BATCH * WORD

  datatype FreeList = FreeList(head: nat, size: nat)
  const EMPTY_LIST := FreeList(0, 0)

  /** Index in the stack of the block that carries the head batch. */
  function HeadIndex(n: nat): (h: nat)
    requires n > 0
    ensures h < n <= h + BATCH && h % BATCH == 0
  {
    (n - 1) - (n - 1) % BATCH
  }

  /** What slot `j` of the batch carried by s[i] holds. */
  function Slot(s: seq<nat>, i: nat, j: nat): nat
    requires i < |s| && j < BATCH
  {
    if j == 0 then (if i < BATCH then 0 else s[i - BATCH])
    else if i + j < |s| then s[i + j] else 0
  }

  ghost predicate BatchAt(m: seq<Byte>, s: seq<nat>, i: nat)
    requires i < |s| && s[i] + BATCH_BYTES <= |m|
  {
    forall j :: 0 <= j < BATCH ==> Load(m, s[i] + WORD * j) == Slot(s, i, j)
  }

  ghost predicate Apart(p: nat, q: nat) {
    p + BATCH_BYTES <= q || q + BATCH_BYTES <= p
  }

  /** The blocks of the stack are non-null, in memory and pairwise disjoint. */
  ghost predicate Blocks(m: seq<Byte>, s: seq<nat>) {
    && |m| <= ADDRESS_SPACE
    && (forall i :: 0 <= i < |s| ==> 0 < s[i] && s[i] + BATCH_BYTES <= |m|)
    && (forall i, j :: 0 <= i < j < |s| ==> Apart(s[i], s[j]))
  }

  /** The list `l` in memory `m` represents the stack `s`. */
  ghost predicate Rep(m: seq<Byte>, l: FreeList, s: seq<nat>) {
    && Blocks(m, s)
    && l.size == |s|
    && l.head == (if s == [] then 0 else s[HeadIndex(|s|)])
    && (forall i :: 0 <= i < |s| && i % BATCH == 0 ==> BatchAt(m, s, i))
  }

  /** The representation lives only inside the blocks of the stack. */
  lemma RepFrame(m: seq<Byte>, m': seq<Byte>, l: FreeList, s: seq<nat>, t: nat)
    requires Rep(m, l, s) && SameOutside(m, m', t, t + BATCH_BYTES)
    requires forall i :: 0 <= i < |s| ==> Apart(s[i], t)
    ensures Rep(m', l, s)
  {
    forall i | 0 <= i < |s| && i % BATCH == 0 ensures BatchAt(m', s, i) {
      BatchFrame(m, m', s, s, i, t);
    }
  }

  /** A batch survives a write elsewhere, and stays valid if its slots are unaffected by a push or pop. */
  lemma BatchFrame(m: seq<Byte>, m': seq<Byte>, s: seq<nat>, s': seq<nat>, i: nat, t: nat)
    requires i < |s| && i < |s'| && s[i] == s'[i] && s[i] + BATCH_BYTES <= |m|
    requires BatchAt(m, s, i) && SameOutside(m, m', t, t + BATCH_BYTES) && Apart(s[i], t)
    requires forall j :: 0 <= j < BATCH ==> Slot(s, i, j) == Slot(s', i, j)
    ensures BatchAt(m', s', i)
  {
    forall j | 0 <= j < BATCH ensures Load(m', s'[i] + WORD * j) == Slot(s', i, j) {
      LoadFrame(m, m', t, t + BATCH_BYTES, s[i] + WORD * j);
    }
  }

  /** Pushing or popping at the top leaves every batch below the head batch alone. */
  lemma LowerSlots(s: seq<nat>, s': seq<nat>, i: nat)
    requires i % BATCH == 0 && i + BATCH <= |s| && i + BATCH <= |s'|
    requires forall k :: 0 <= k < i + BATCH ==> s[k] == s'[k]
    ensures forall j :: 0 <= j < BATCH ==> Slot(s, i, j) == Slot(s', i, j)
  {
  }

  lemma RepBelowHead(m: seq<Byte>, m': seq<Byte>, l: FreeList, s: seq<nat>, s': seq<nat>, h: nat, t: nat)
    requires Rep(m, l, s) && h <= |s| && h <= |s'| && h % BATCH == 0
    requires forall k :: 0 <= k < h ==> s[k] == s'[k]
    requires SameOutside(m, m', t, t + BATCH_BYTES)
    requires forall k :: 0 <= k < h ==> Apart(s[k], t)
    ensures forall i :: 0 <= i < h && i % BATCH == 0 ==> BatchAt(m', s', i)
  {
    forall i | 0 <= i < h && i % BATCH == 0 ensures BatchAt(m', s', i) {
      LowerSlots(s, s', i);
      BatchFrame(m, m', s, s', i, t);
    }
  }

  method Push(mem: array<Byte>, l: FreeList, p: nat, ghost s: seq<nat>) returns (l': FreeList, ghost touched: nat)
    requires Rep(mem[..], l, s)
    requires 0 < p && p + BATCH_BYTES <= mem.Length
    requires forall i :: 0 <= i < |s| ==> Apart(s[i], p)
    modifies mem
    ensures Rep(mem[..], l', s + [p])
    ensures touched in s + [p] && SameOutside(old(mem[..]), mem[..], touched, touched + BATCH_BYTES)
  {
    ghost var m := mem[..];
    if l.head == 0 {
      FillBatch(mem, p, 0);
      l' := FreeList(p, l.size + 1);
      touched := p;
      PushFirst(m, mem[..], l, s, p);
      return;
    }
    var i := FirstEmptySlot(mem, l, s);
    if i < BATCH {
      StoreWord(mem, l.head + WORD * i, p);
      l' := FreeList(l.head, l.size + 1);
      touched := l.head;
      PushIntoHead(m, mem[..], l, s, p, i);
      return;
    }
    FillBatch(mem, p, l.head);
    l' := FreeList(p, l.size + 1);
    touched := p;
    PushNewHead(m, mem[..], l, s, p);
  }

  /** Lines 42-43: the first empty slot of the head batch, or BATCH. */
  method FirstEmptySlot(mem: array<Byte>, l: FreeList, ghost s: seq<nat>) returns (i: nat)
    requires Rep(mem[..], l, s) && s != []
    ensures 1 <= i <= BATCH && |s| == HeadIndex(|s|) + i
  {
    ghost var h := HeadIndex(|s|);
    assert BatchAt(mem[..], s, h);
    for k := 1 to BATCH
      invariant h + k <= |s|
    {
      var slot := LoadWord(mem, l.head + WORD * k);
      assert slot == Slot(s, h, k);
      if slot == 0 {
        return k;
      }
    }
    return BATCH;
  }

  lemma PushFirst(m: seq<Byte>, m': seq<Byte>, l: FreeList, s: seq<nat>, p: nat)
    requires Rep(m, l, s) && l.head == 0 && 0 < p && p + BATCH_BYTES <= |m| && |m'| == |m|
    requires Load(m', p) == 0 && forall j :: 1 <= j < BATCH ==> Load(m', p + WORD * j) == 0
    ensures Rep(m', FreeList(p, l.size + 1), s + [p])
  {
    assert s + [p] == [p];
    assert BatchAt(m', [p], 0);
  }

  /** Makes the block at `p` an empty batch whose link is `link`. */
  method FillBatch(mem: array<Byte>, p: nat, link: nat)
    requires p + BATCH_BYTES <= mem.Length <= ADDRESS_SPACE && link < mem.Length
    modifies mem
    ensures SameOutside(old(mem[..]), mem[..], p, p + BATCH_BYTES)
    ensures Load(mem[..], p) == link
    ensures forall j :: 1 <= j < BATCH ==> Load(mem[..], p + WORD * j) == 0
  {
    ghost var m := mem[..];
    StoreWord(mem, p, link);
    for i := 1 to BATCH
      invariant SameOutside(m, mem[..], p, p + BATCH_BYTES)
      invariant Load(mem[..], p) == link
      invariant forall j :: 1 <= j < i ==> Load(mem[..], p + WORD * j) == 0
    {
      ghost var m1 := mem[..];
      StoreWord(mem, p + WORD * i, 0);
      Widen(m, m1, mem[..], p, i);
      LowerSlotsStay(m1, mem[..], p, i, link);
    }
  }

  /** Writing slot i changes nothing outside the batch. */
  lemma Widen(m: seq<Byte>, m1: seq<Byte>, m2: seq<Byte>, p: nat, i: nat)
    requires i < BATCH && SameOutside(m, m1, p, p + BATCH_BYTES)
    requires SameOutside(m1, m2, p + WORD * i, p + WORD * i + WORD)
    ensures SameOutside(m, m2, p, p + BATCH_BYTES)
  {
  }

  lemma LowerSlotsStay(m1: seq<Byte>, m2: seq<Byte>, p: nat, i: nat, link: nat)
    requires 1 <= i < BATCH && p + BATCH_BYTES <= |m1| && SameOutside(m1, m2, p + WORD * i, p + WORD * i + WORD)
    requires Load(m1, p) == link && forall j :: 1 <= j < i ==> Load(m1, p + WORD * j) == 0
    ensures Load(m2, p) == link && forall j :: 1 <= j < i ==> Load(m2, p + WORD * j) == 0
  {
    var lo := p + WORD * i;
    LoadFrame(m1, m2, lo, lo + WORD, p);
    forall j | 1 <= j < i ensures Load(m2, p + WORD * j) == 0 {
      LoadFrame(m1, m2, lo, lo + WORD, p + WORD * j);
    }
  }

  /** Rewriting slot `i` of a batch leaves the other slots. */
  lemma HeadEdited(m: seq<Byte>, m': seq<Byte>, s: seq<nat>, s': seq<nat>, h: nat, i: nat)
    requires h < |s| && h < |s'| && s[h] == s'[h] && 1 <= i < BATCH && s[h] + BATCH_BYTES <= |m|
    requires BatchAt(m, s, h)
    requires SameOutside(m, m', s[h] + WORD * i, s[h] + WORD * i + WORD)
    requires Load(m', s[h] + WORD * i) == Slot(s', h, i)
    requires forall j :: 0 <= j < BATCH && j != i ==> Slot(s', h, j) == Slot(s, h, j)
    ensures BatchAt(m', s', h)
  {
    forall j | 0 <= j < BATCH ensures Load(m', s'[h] + WORD * j) == Slot(s', h, j) {
      if j != i {
        LoadFrame(m, m', s[h] + WORD * i, s[h] + WORD * i + WORD, s[h] + WORD * j);
      }
    }
  }

  /** All batches below the head batch, and the head batch, make a representation. */
  lemma RepFromBatches(m: seq<Byte>, l: FreeList, s: seq<nat>, h: nat)
    requires Blocks(m, s) && s != [] && h == HeadIndex(|s|) && l == FreeList(s[h], |s|)
    requires forall i :: 0 <= i < h && i % BATCH == 0 ==> BatchAt(m, s, i)
    requires BatchAt(m, s, h)
    ensures Rep(m, l, s)
  {
  }

  lemma PushIntoHead(m: seq<Byte>, m': seq<Byte>, l: FreeList, s: seq<nat>, p: nat, i: nat)
    requires Rep(m, l, s) && s != [] && 1 <= i < BATCH && |s| == HeadIndex(|s|) + i
    requires 0 < p && p + BATCH_BYTES <= |m| && forall k :: 0 <= k < |s| ==> Apart(s[k], p)
    requires SameOutside(m, m', l.head + WORD * i, l.head + WORD * i + WORD)
    requires Load(m', l.head + WORD * i) == p
    ensures Rep(m', FreeList(l.head, l.size + 1), s + [p])
    ensures SameOutside(m, m', l.head, l.head + BATCH_BYTES)
  {
    var h := HeadIndex(|s|);
    var s' := s + [p];
    Widen(m, m, m', l.head, i);
    RepBelowHead(m, m', l, s, s', h, l.head);
    assert BatchAt(m, s, h);
    PushedSlots(s, p, h, i);
    HeadEdited(m, m', s, s', h, i);
    RepFromBatches(m', FreeList(l.head, l.size + 1), s', h);
  }

  /** Pushing fills exactly the slot after the last one in use. */
  lemma PushedSlots(s: seq<nat>, p: nat, h: nat, i: nat)
    requires 1 <= i < BATCH && |s| == h + i
    ensures forall j :: 0 <= j < BATCH ==> Slot(s + [p], h, j) == if j == i then p else Slot(s, h, j)
  {
  }

  lemma PushNewHead(m: seq<Byte>, m': seq<Byte>, l: FreeList, s: seq<nat>, p: nat)
    requires Rep(m, l, s) && s != [] && |s| == HeadIndex(|s|) + BATCH
    requires 0 < p && p + BATCH_BYTES <= |m| && forall k :: 0 <= k < |s| ==> Apart(s[k], p)
    requires SameOutside(m, m', p, p + BATCH_BYTES)
    requires Load(m', p) == l.head && forall j :: 1 <= j < BATCH ==> Load(m', p + WORD * j) == 0
    ensures Rep(m', FreeList(p, l.size + 1), s + [p])
  {
    var s' := s + [p];
    RepBelowHead(m, m', l, s, s', |s|, p);
    assert HeadIndex(|s'|) == |s|;
    assert BatchAt(m', s', |s|);
  }

  method Pop(mem: array<Byte>, l: FreeList, ghost s: seq<nat>) returns (p: nat, l': FreeList)
    requires Rep(mem[..], l, s) && s != []
    modifies mem
    ensures p == s[|s| - 1]
    ensures Rep(mem[..], l', s[..|s| - 1])
    ensures SameOutside(old(mem[..]), mem[..], l.head, l.head + BATCH_BYTES) && l.head in s
  {
    ghost var m := mem[..];
    ghost var h := HeadIndex(|s|);
    assert BatchAt(m, s, h);
    var i := BATCH - 1;
    while i > 0
      invariant 0 <= i < BATCH && mem[..] == m
      invariant |s| <= h + i + 1
    {
      p := LoadWord(mem, l.head + WORD * i);
      assert p == Slot(s, h, i);
      if p != 0 {
        StoreWord(mem, l.head + WORD * i, 0);
        l' := FreeList(l.head, l.size - 1);
        PopFromHead(m, mem[..], l, s, i);
        return;
      }
      i := i - 1;
    }
    p := l.head;
    var link := LoadWord(mem, l.head);
    assert link == Slot(s, h, 0);
    l' := FreeList(link, l.size - 1);
    PopHead(m, l, s);
  }

  lemma PopFromHead(m: seq<Byte>, m': seq<Byte>, l: FreeList, s: seq<nat>, i: nat)
    requires Rep(m, l, s) && s != [] && 1 <= i < BATCH && |s| == HeadIndex(|s|) + i + 1
    requires SameOutside(m, m', l.head + WORD * i, l.head + WORD * i + WORD)
    requires Load(m', l.head + WORD * i) == 0
    ensures Rep(m', FreeList(l.head, l.size - 1), s[..|s| - 1])
    ensures SameOutside(m, m', l.head, l.head + BATCH_BYTES)
  {
    var h := HeadIndex(|s|);
    var s' := s[..|s| - 1];
    Widen(m, m, m', l.head, i);
    RepBelowHead(m, m', l, s, s', h, l.head);
    assert BatchAt(m, s, h);
    PushedSlots(s', s[|s| - 1], h, i);
    assert s' + [s[|s| - 1]] == s;
    HeadEdited(m, m', s, s', h, i);
    RepFromBatches(m', FreeList(l.head, l.size - 1), s', h);
  }

  lemma PopHead(m: seq<Byte>, l: FreeList, s: seq<nat>)
    requires Rep(m, l, s) && s != [] && |s| == HeadIndex(|s|) + 1
    ensures Rep(m, FreeList(Slot(s, |s| - 1, 0), l.size - 1), s[..|s| - 1])
  {
    var s' := s[..|s| - 1];
    forall i | 0 <= i < |s'| && i % BATCH == 0 ensures BatchAt(m, s', i) {
      assert BatchAt(m, s, i);
      LowerSlots(s, s', i);
    }
    if s' != [] {
      assert HeadIndex(|s'|) == |s'| - BATCH;
    }
  }
}
