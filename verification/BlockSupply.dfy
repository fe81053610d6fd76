/**
 Where the virtual disk's fresh blocks come from: the controller's allocator
 (sandook/controller/block_allocator.h) and the core-local caches in front of it
 (sandook/base/core_local_cache.h).
 */
module BlockSupply {
  import opened Numbers
  import opened Sequences
  import opened VirtualDisk
  import opened Wrappers

  /** kAllocationBatch. */
  const BATCH: nat := 2048

  /** The `n` consecutive blocks of `server` that start at `from`. */
  function Range(server: nat, from: nat, n: nat): (r: seq<Block>)
    ensures |r| == n
    ensures forall i :: 0 <= i < n ==> r[i] == Block(server, from + i)
  {
    seq(n, i requires 0 <= i => Block(server, from + i))
  }

  class BlockAllocator {
    var next: seq<nat>
    /** Every block ever returned. */
    ghost var issued: set<Block>

    ghost predicate Valid()
      reads this
    {
      |next| == MAX_SERVERS && forall b :: b in issued <==> b.server < MAX_SERVERS && b.addr < next[b.server]
    }

    constructor ()
      ensures Valid() && issued == {}
    {
      next := seq(MAX_SERVERS, _ => 0);
      issued := {};
    }

    /** The counter of the server starts over: blocks stay unique if and only if none was handed out yet. */
    method AddServer(server: nat)
      requires |next| == MAX_SERVERS && 0 < server < MAX_SERVERS
      modifies this`next
      ensures next == old(next)[server := 0]
      ensures old(Valid()) ==> (Valid() <==> old(next)[server] == 0)
    {
      ghost var first := Block(server, 0);
      assert old(Valid()) ==> (first in issued <==> old(next)[server] > 0);
      next := next[server := 0];
    }

    /** fetch_add, then fill: the blocks are distinct, and none was returned before as long as no counter started over. */
    method AllocateBlocks(server: nat, n: nat) returns (allocs: seq<Block>)
      requires |next| == MAX_SERVERS && 0 < server < MAX_SERVERS
      modifies this
      ensures allocs == Range(server, old(next)[server], n)
      ensures next == old(next)[server := old(next)[server] + n]
      ensures forall i, j :: 0 <= i < j < n ==> allocs[i] != allocs[j]
      ensures issued == old(issued) + set b | b in allocs
      ensures old(Valid()) ==> Valid() && forall i :: 0 <= i < n ==> allocs[i] !in old(issued)
    {
      var start := next[server];
      next := next[server := start + n];
      allocs := [];
      for i := 0 to n
        invariant allocs == Range(server, start, i)
      {
        allocs := allocs + [Block(server, start + i)];
      }
      issued := issued + set b | b in allocs;
      if old(Valid()) {
        forall b ensures b in issued <==> b.server < MAX_SERVERS && b.addr < next[b.server] {
          if b.server == server && start <= b.addr < start + n {
            assert allocs[b.addr - start] == b;
          }
        }
      }
    }

    /** A server that is added again hands out blocks a second time: exactly when it had handed out any. */
    method AllocateAfterAdd(server: nat, n: nat) returns (allocs: seq<Block>)
      requires Valid() && 0 < server < MAX_SERVERS && n > 0
      modifies this
      ensures (exists i :: 0 <= i < |allocs| && allocs[i] in old(issued)) <==> old(next)[server] > 0
    {
      AddServer(server);
      allocs := AllocateBlocks(server, n);
      assert allocs[0] == Block(server, 0);
    }
  }

  // ---------------------------------------------------------------- core-local cache

  /** All items held by the per-core stacks. */
  ghost function Held<T>(locals: seq<seq<T>>): multiset<T> {
    if locals == [] then multiset{} else Held(locals[..|locals| - 1]) + multiset(locals[|locals| - 1])
  }

  /** Pushing on a core's stack adds the item, popping removes it. */
  lemma {:induction false} HeldPush<T>(locals: seq<seq<T>>, c: nat, item: T)
    requires c < |locals|
    ensures Held(locals[c := locals[c] + [item]]) == Held(locals) + multiset{item}
  {
    var l := |locals| - 1;
    var after := locals[c := locals[c] + [item]];
    if c < l {
      HeldPush(locals[..l], c, item);
      assert after[..l] == locals[..l][c := locals[..l][c] + [item]];
      Regroup(Held(locals[..l]), multiset{item}, multiset(locals[l]));
    } else {
      assert after[..l] == locals[..l];
      PushAddsOne(locals[l], item);
      Regroup(Held(locals[..l]), multiset(locals[l]), multiset{item});
    }
  }

  lemma Regroup<T>(a: multiset<T>, b: multiset<T>, c: multiset<T>)
    ensures a + b + c == a + (b + c) == a + c + b
  {
  }

  /** Exchanging one stack exchanges its items. */
  lemma {:induction false} HeldSet<T>(locals: seq<seq<T>>, c: nat, s: seq<T>)
    requires c < |locals|
    ensures Held(locals[c := s]) + multiset(locals[c]) == Held(locals) + multiset(s)
  {
    var l := |locals| - 1;
    var after := locals[c := s];
    if c < l {
      HeldSet(locals[..l], c, s);
      assert after[..l] == locals[..l][c := s];
      Exchange(Held(after[..l]), multiset(locals[c]), Held(locals[..l]), multiset(s), multiset(locals[l]));
    } else {
      assert after[..l] == locals[..l];
      Regroup(Held(locals[..l]), multiset(s), multiset(locals[l]));
    }
  }

  lemma Exchange<T>(a: multiset<T>, x: multiset<T>, b: multiset<T>, y: multiset<T>, c: multiset<T>)
    requires a + x == b + y
    ensures a + c + x == b + c + y
  {
    Regroup(a, c, x);
    Regroup(b, c, y);
  }

  lemma HeldPop<T>(locals: seq<seq<T>>, c: nat)
    requires c < |locals| && locals[c] != []
    ensures
      var s := locals[c];
      Held(locals) == Held(locals[c := s[..|s| - 1]]) + multiset{s[|s| - 1]}
  {
    var s := locals[c];
    var popped := locals[c := s[..|s| - 1]];
    HeldPush(popped, c, s[|s| - 1]);
    assert popped[c] + [s[|s| - 1]] == s;
    assert popped[c := s] == locals;
  }

  /** Moving the top of the global stack to a core, or back, keeps the total. */
  lemma MoveToCore<T>(locals: seq<seq<T>>, global: seq<T>, c: nat)
    requires c < |locals| && global != []
    ensures
      var n := |global| - 1;
      Held(locals[c := locals[c] + [global[n]]]) + multiset(global[..n]) == Held(locals) + multiset(global)
  {
    HeldPush(locals, c, global[|global| - 1]);
    PopMultiset(global);
  }

  lemma MoveToGlobal<T>(locals: seq<seq<T>>, global: seq<T>, c: nat)
    requires c < |locals| && locals[c] != []
    ensures
      var s := locals[c];
      Held(locals[c := s[..|s| - 1]]) + multiset(global + [s[|s| - 1]]) == Held(locals) + multiset(global)
  {
    HeldPop(locals, c);
  }

  lemma PopMultiset<T>(s: seq<T>)
    requires s != []
    ensures multiset(s) == multiset(s[..|s| - 1]) + multiset{s[|s| - 1]}
  {
    assert s == s[..|s| - 1] + [s[|s| - 1]];
  }

  /** Blocks that are new to a set join it without raising any multiplicity above one. */
  lemma ReceiveNew(received: set<Block>, blocks: seq<Block>)
    requires forall i :: 0 <= i < |blocks| ==> blocks[i] !in received
    requires forall i, j :: 0 <= i < j < |blocks| ==> blocks[i] != blocks[j]
    ensures multiset(received + set b | b in blocks) == multiset(received) + multiset(blocks)
    decreases |blocks|
  {
    if blocks == [] {
      assert received + (set b | b in blocks) == received;
    } else {
      var l := |blocks| - 1;
      var rest, last := blocks[..l], blocks[l];
      ReceiveNew(received, rest);
      PopMultiset(blocks);
      var before := received + set b | b in rest;
      assert last !in before;
      AddOne(before, last);
      assert received + (set b | b in blocks) == before + {last};
    }
  }

  lemma FetchMore(fetched: seq<seq<Block>>, tid: nat, batch: seq<Block>)
    requires tid < |fetched|
    ensures Held(fetched[tid := fetched[tid] + batch]) == Held(fetched) + multiset(batch)
  {
    HeldSet(fetched, tid, fetched[tid] + batch);
    var x := multiset(fetched[tid]);
    assert Held(fetched[tid := fetched[tid] + batch]) + x == Held(fetched) + multiset(batch) + x;
    CancelSame(Held(fetched[tid := fetched[tid] + batch]), Held(fetched) + multiset(batch), x);
  }

  lemma PushMoves(locals: seq<seq<Block>>, global: seq<Block>, out: multiset<Block>, fetched: seq<seq<Block>>, tid: nat)
    requires tid < |fetched|
    ensures Held(locals) + multiset(global + fetched[tid]) + out + Held(fetched[tid := []])
      == Held(locals) + multiset(global) + out + Held(fetched)
  {
    HeldSet(fetched, tid, []);
    var l, g, x, h := Held(locals), multiset(global), multiset(fetched[tid]), Held(fetched[tid := []]);
    assert h + x == Held(fetched);
    forall e ensures (l + (g + x) + out + h)[e] == (l + g + out + (h + x))[e] {
    }
  }

  lemma CancelSame(a: multiset<Block>, b: multiset<Block>, x: multiset<Block>)
    requires a + x == b + x
    ensures a == b
  {
    forall e ensures a[e] == b[e] {
      assert (a + x)[e] == a[e] + x[e] && (b + x)[e] == b[e] + x[e];
    }
  }

  lemma AddOne(s: set<Block>, b: Block)
    requires b !in s
    ensures multiset(s + {b}) == multiset(s) + multiset{b}
  {
  }

  /** The cache of one server's blocks in one volume; new_fn_ asks the controller for a batch. */
  class CoreLocalCache {
    const capacity: nat
    const cores: nat
    const threads: nat
    const server: nat
    const controller: BlockAllocator
    var locals: seq<seq<Block>>
    var global: seq<Block>
    /** What each thread inside reserve has fetched and not yet pushed. */
    var fetched: seq<seq<Block>>
    /** Blocks handed out and not put back, and all blocks the controller sent. */
    ghost var out: multiset<Block>
    ghost var received: set<Block>

    ghost function Contents(): multiset<Block>
      reads this
    {
      Held(locals) + multiset(global)
    }

    /** Nothing is lost or duplicated: cached, handed-out and fetched blocks are those received, once each. */
    ghost predicate Sound()
      reads this
    {
      && capacity >= 1 && cores >= 1 && |locals| == cores && |fetched| == threads && 0 < server < MAX_SERVERS
      && Contents() + out + Held(fetched) == multiset(received)
    }

    ghost predicate Valid()
      reads this, controller
    {
      Sound() && controller.Valid() && received <= controller.issued
    }

    constructor (capacity: nat, cores: nat, threads: nat, server: nat, controller: BlockAllocator)
      requires capacity >= 1 && cores >= 1 && 0 < server < MAX_SERVERS && controller.Valid()
      ensures Valid() && out == multiset{} && received == {} && this.controller == controller
    {
      this.capacity, this.cores, this.threads := capacity, cores, threads;
      this.server, this.controller := server, controller;
      locals := seq(cores, _ => []);
      fetched := seq(threads, _ => []);
      global := [];
      out, received := multiset{}, {};
      new;
      HeldEmpty<Block>(locals);
      HeldEmpty<Block>(fetched);
    }

    /** A block is in one place: cached, handed out, or with a thread that is about to push it. */
    lemma HeldOnce(b: Block)
      requires Sound()
      ensures Contents()[b] + out[b] + Held(fetched)[b] == if b in received then 1 else 0
    {
      assert (Contents() + out + Held(fetched))[b] == Contents()[b] + out[b] + Held(fetched)[b];
    }

    /** Pops the core's stack (lines 77-81 and 105-109). */
    method PopLocal(cpu: nat) returns (item: Option<Block>)
      requires Sound() && cpu < cores
      modifies this`locals, this`out
      ensures Sound() && (item.None? <==> old(locals[cpu]) == [])
      ensures item.None? ==> locals == old(locals) && out == old(out)
      ensures item.Some? ==>
        && out == old(out) + multiset{item.value} && Contents() == old(Contents()) - multiset{item.value}
        && item.value in old(Contents())
    {
      if locals[cpu] == [] {
        return None;
      }
      var s := locals[cpu];
      HeldPop(locals, cpu);
      locals := locals[cpu := s[..|s| - 1]];
      out := out + multiset{s[|s| - 1]};
      return Some(s[|s| - 1]);
    }

    /** Refills the core's stack from the global one (lines 96-103). */
    method Refill(cpu: nat)
      requires Sound() && cpu < cores
      modifies this`locals, this`global
      ensures Sound() && Contents() == old(Contents())
      ensures |locals[cpu]| + |global| == old(|locals[cpu]| + |global|) && (locals[cpu] == [] ==> global == [])
      ensures forall c :: 0 <= c < cores && c != cpu ==> locals[c] == old(locals)[c]
    {
      while |global| > 0 && |locals[cpu]| < capacity
        invariant Contents() == old(Contents()) && |locals| == cores
        invariant forall c :: 0 <= c < cores && c != cpu ==> locals[c] == old(locals)[c]
        invariant |locals[cpu]| + |global| == old(|locals[cpu]| + |global|)
        decreases |global|
      {
        var top := global[|global| - 1];
        MoveToCore(locals, global, cpu);
        locals, global := locals[cpu := locals[cpu] + [top]], global[..|global| - 1];
      }
    }

    /** One pass of the slow path (lines 90-110): it fails only when nothing is left to take. */
    method TrySlow(cpu: nat) returns (item: Option<Block>)
      requires Sound() && cpu < cores
      modifies this`locals, this`global, this`out
      ensures Sound() && (old(global) != [] ==> item.Some?)
      ensures item.None? ==> out == old(out) && Contents() == old(Contents())
      ensures item.Some? ==>
        && out == old(out) + multiset{item.value} && Contents() == old(Contents()) - multiset{item.value}
        && item.value in old(Contents())
    {
      Refill(cpu);
      item := PopLocal(cpu);
    }

    /** One look of a thread: the fast path (lines 70-82), or a pass of the slow path. */
    method Look(cpu: nat, slow: bool) returns (item: Option<Block>)
      requires Sound() && cpu < cores
      modifies this`locals, this`global, this`out
      ensures Sound() && (slow && old(global) != [] ==> item.Some?)
      ensures old(out) <= out && (item.None? ==> out == old(out))
      ensures item.Some? ==> item.value in out && item.value in old(Contents())
    {
      if slow {
        item := TrySlow(cpu);
      } else {
        item := PopLocal(cpu);
      }
    }

    /** One call of new_fn_ inside reserve: a batch from the controller, kept by the thread (lines 145-146). */
    method Fetch(tid: nat)
      requires Valid() && tid < threads
      modifies this`fetched, this`received, controller
      ensures Valid() && controller.issued >= old(controller.issued) && received >= old(received)
      ensures received - old(received) !! old(controller.issued)
      ensures fetched == old(fetched)[tid := fetched[tid]] && |fetched[tid]| == |old(fetched)[tid]| + BATCH
    {
      var batch := controller.AllocateBlocks(server, BATCH);
      ReceiveNew(received, batch);
      FetchMore(fetched, tid, batch);
      received := received + set b | b in batch;
      fetched := fetched[tid := fetched[tid] + batch];
    }

    /** The end of reserve: all the thread fetched goes to the global stack under its lock (lines 149-155). */
    method PushFetched(tid: nat)
      requires Sound() && tid < threads
      modifies this`global, this`fetched
      ensures Sound() && global == old(global) + old(fetched)[tid] && fetched == old(fetched)[tid := []]
    {
      PushMoves(locals, global, out, fetched, tid);
      global := global + fetched[tid];
      fetched := fetched[tid := []];
    }

    /** put: half of an overfull stack moves to the global one (lines 116-138). */
    method Put(cpu: nat, item: Block)
      requires Sound() && cpu < cores && item in out
      modifies this`locals, this`global, this`out
      ensures Sound() && out == old(out) - multiset{item} && Contents() == old(Contents()) + multiset{item}
      ensures |locals[cpu]| <= capacity
    {
      HeldPush(locals, cpu, item);
      locals := locals[cpu := locals[cpu] + [item]];
      out := out - multiset{item};
      if |locals[cpu]| > capacity {
        Spill(cpu, Max(capacity / 2, 1));
      }
    }

    method Spill(cpu: nat, keep: nat)
      requires Sound() && cpu < cores
      modifies this`locals, this`global
      ensures Sound() && Contents() == old(Contents()) && |locals[cpu]| <= keep
    {
      while |locals[cpu]| > keep
        invariant Sound() && Contents() == old(Contents())
        decreases |locals[cpu]|
      {
        SpillOne(cpu);
      }
    }

    method SpillOne(cpu: nat)
      requires Sound() && cpu < cores && locals[cpu] != []
      modifies this`locals, this`global
      ensures Sound() && Contents() == old(Contents()) && |locals[cpu]| == old(|locals[cpu]|) - 1
    {
      var s := locals[cpu];
      MoveToGlobal(locals, global, cpu);
      global, locals := global + [s[|s| - 1]], locals[cpu := s[..|s| - 1]];
    }
  }

  lemma {:induction false} HeldEmpty<T>(locals: seq<seq<T>>)
    requires forall c :: 0 <= c < |locals| ==> locals[c] == []
    ensures Held(locals) == multiset{}
  {
    if locals != [] {
      HeldEmpty(locals[..|locals| - 1]);
    }
  }

  // ---------------------------------------------------------------- all volumes on one controller

  /** An atomic section of some thread: the fast path, a pass of the slow path, or inside reserve one batch
      from the controller and the push of all the thread fetched. */
  datatype Step = Local(v: nat, cpu: nat) | Slow(v: nat, cpu: nat) | Fetch(v: nat, tid: nat) | Push(v: nat, tid: nat)

  /** The section belongs to a reserve of thread tid on cache v. */
  predicate Touches(s: Step, v: nat, tid: nat) {
    (s.Fetch? || s.Push?) && s.v == v && s.tid == tid
  }

  /** Every cache of every volume in front of one controller. */
  class BlockPool {
    const controller: BlockAllocator
    const caches: seq<CoreLocalCache>
    /** Every block handed out, with the cache it came from. */
    ghost var handed: map<Block, nat>

    /** Cache i is sound, was filled by this controller, and shares no block with an earlier cache. */
    ghost predicate CacheGood(i: nat)
      requires i < |caches|
      reads controller, caches
    {
      && caches[i].controller == controller && caches[i].Sound() && caches[i].received <= controller.issued
      && (forall j :: 0 <= j < i ==> caches[j] != caches[i] && caches[j].received !! caches[i].received)
    }

    ghost predicate Recorded()
      reads this, caches
    {
      forall b :: b in handed ==> handed[b] < |caches| && b in caches[handed[b]].out
    }

    ghost predicate Good(n: nat)
      requires n <= |caches|
      reads this, controller, caches
    {
      if n == 0 then controller.Valid() && Recorded() else Good(n - 1) && CacheGood(n - 1)
    }

    ghost predicate Valid()
      reads this, controller, caches
    {
      Good(|caches|)
    }

    lemma {:induction false} GoodMeans(n: nat)
      requires n <= |caches|
      ensures Good(n) <==> controller.Valid() && Recorded() && forall i :: 0 <= i < n ==> CacheGood(i)
    {
      if n > 0 {
        GoodMeans(n - 1);
      }
    }

    /** Volumes register with new, still empty caches. */
    constructor (controller: BlockAllocator, caches: seq<CoreLocalCache>)
      requires controller.Valid()
      requires forall i :: 0 <= i < |caches| ==>
        caches[i].controller == controller && caches[i].Sound() && caches[i].received == {}
      requires forall i, j :: 0 <= i < j < |caches| ==> caches[i] != caches[j]
      ensures Valid() && this.controller == controller && this.caches == caches && handed == map[]
    {
      this.controller, this.caches, handed := controller, caches, map[];
      new;
      GoodMeans(|caches|);
    }

    predicate Fits(s: Step)
    {
      s.v < |caches| && (if s.Local? || s.Slow? then s.cpu < caches[s.v].cores else s.tid < caches[s.v].threads)
    }

    predicate AllFit(steps: seq<Step>)
    {
      forall k :: 0 <= k < |steps| ==> Fits(steps[k])
    }

    /** Sections of other threads than tid on cache v. */
    predicate ByOthers(steps: seq<Step>, v: nat, tid: nat)
    {
      AllFit(steps) && forall k :: 0 <= k < |steps| ==> !Touches(steps[k], v, tid)
    }

    /** How often a block is cached, handed out, or on its way into cache i. */
    ghost function Count(i: nat, b: Block): nat
      requires i < |caches|
      reads caches
    {
      caches[i].Contents()[b] + caches[i].out[b] + Held(caches[i].fetched)[b]
    }

    /** Across all caches a block is in one place at most. */
    lemma NoBlockTwice(i: nat, j: nat, b: Block)
      requires Valid() && i < |caches| && j < |caches|
      ensures Count(i, b) <= 1
      ensures i != j && Count(i, b) > 0 ==> Count(j, b) == 0
    {
      GoodMeans(|caches|);
      assert CacheGood(i) && CacheGood(j);
      caches[i].HeldOnce(b);
      caches[j].HeldOnce(b);
    }

    /** What is cached somewhere has not been handed out anywhere. */
    lemma CachedIsNotHanded(v: nat)
      requires Valid() && v < |caches|
      ensures forall b :: b in caches[v].Contents() ==> b !in handed
    {
      GoodMeans(|caches|);
      forall b | b in caches[v].Contents() && b in handed ensures false {
        NoBlockTwice(v, handed[b], b);
      }
    }

    /** A block that just left cache v is recorded as handed out. */
    ghost method Record(v: nat, b: Block)
      requires v < |caches| && b in caches[v].out && Valid()
      modifies this`handed
      ensures Valid() && handed == old(handed)[b := v]
    {
      GoodMeans(|caches|);
      handed := handed[b := v];
      GoodMeans(|caches|);
    }

    /** A change of one cache that only adds newly issued blocks leaves every cache good. */
    twostate lemma OneCacheChanges(v: nat)
      requires v < |caches| && forall j :: 0 <= j < |caches| ==> old(CacheGood(j))
      requires old(controller.issued) <= controller.issued && caches[v].Sound()
      requires caches[v].received <= controller.issued
      requires caches[v].received - old(caches[v].received) !! old(controller.issued)
      requires forall j :: 0 <= j < |caches| && caches[j] != caches[v] ==> unchanged(caches[j])
      requires old(Recorded()) && handed == old(handed) && controller.Valid() && old(caches[v].out) <= caches[v].out
      ensures Valid()
    {
      forall b | b in handed ensures b in caches[handed[b]].out {
        assert old(b in caches[handed[b]].out);
      }
      forall i | 0 <= i < |caches| ensures CacheGood(i) {
        assert old(CacheGood(i)) && old(CacheGood(v));
        forall j | 0 <= j < i ensures caches[j] != caches[i] && caches[j].received !! caches[i].received {
          assert old(CacheGood(j)) && old(caches[j].received !! caches[i].received);
        }
      }
      GoodMeans(|caches|);
    }

    /** The fast path, or a pass of the slow path: what it hands out was never handed out before. */
    method Pop(v: nat, cpu: nat, slow: bool) returns (item: Option<Block>)
      requires Valid() && v < |caches| && cpu < caches[v].cores
      modifies this`handed, caches[v]
      ensures Valid() && (slow && old(caches[v].global) != [] ==> item.Some?) && caches[v].fetched == old(caches[v].fetched)
      ensures item.None? ==> handed == old(handed)
      ensures item.Some? ==> item.value !in old(handed) && handed == old(handed)[item.value := v]
    {
      CachedIsNotHanded(v);
      GoodMeans(|caches|);
      assert CacheGood(v);
      item := caches[v].Look(cpu, slow);
      OneCacheChanges(v);
      if item.Some? {
        Record(v, item.value);
      }
    }

    /** A fresh batch goes to one thread of one cache; it is new to every cache. */
    method FetchBatch(v: nat, tid: nat)
      requires Valid() && v < |caches| && tid < caches[v].threads
      modifies controller, caches[v]
      ensures Valid() && |old(caches[v].fetched)| == |caches[v].fetched| == caches[v].threads
      ensures caches[v].fetched == old(caches[v].fetched)[tid := caches[v].fetched[tid]]
      ensures |caches[v].fetched[tid]| == |old(caches[v].fetched)[tid]| + BATCH
    {
      GoodMeans(|caches|);
      assert CacheGood(v);
      caches[v].Fetch(tid);
      OneCacheChanges(v);
    }

    method PushAll(v: nat, tid: nat)
      requires Valid() && v < |caches| && tid < caches[v].threads
      modifies caches[v]
      ensures Valid() && |old(caches[v].fetched)| == |caches[v].fetched| == caches[v].threads
      ensures caches[v].global == old(caches[v].global) + old(caches[v].fetched)[tid]
      ensures caches[v].fetched == old(caches[v].fetched)[tid := []]
    {
      GoodMeans(|caches|);
      assert CacheGood(v);
      caches[v].PushFetched(tid);
      OneCacheChanges(v);
    }

    /** What thread tid holds for cache v; sections of others leave it alone. */
    ghost function Mine(v: nat, tid: nat): seq<Block>
      requires v < |caches| && tid < |caches[v].fetched|
      reads caches
    {
      caches[v].fetched[tid]
    }

    ghost predicate Present(v: nat, tid: nat)
      reads caches
    {
      v < |caches| && tid < caches[v].threads == |caches[v].fetched|
    }

    method Perform(s: Step, ghost v: nat, ghost tid: nat) returns (item: Option<Block>)
      requires Valid() && Fits(s)
      modifies this`handed, controller, caches
      ensures Valid() && (old(Present(v, tid)) && !Touches(s, v, tid) ==> Present(v, tid) && Mine(v, tid) == old(Mine(v, tid)))
      ensures item.None? ==> handed == old(handed)
      ensures item.Some? ==> item.value !in old(handed) && handed == old(handed)[item.value := s.v]
    {
      if v < |caches| {
        Different(v, s.v);
      }
      item := None;
      match s
      case Local(v', cpu) => item := Pop(v', cpu, false);
      case Slow(v', cpu) => item := Pop(v', cpu, true);
      case Fetch(v', tid') => FetchBatch(v', tid');
      case Push(v', tid') => PushAll(v', tid');
    }

    lemma Different(v: nat, w: nat)
      requires Valid() && v < |caches| && w < |caches|
      ensures v != w ==> caches[v] != caches[w]
    {
      GoodMeans(|caches|);
      assert CacheGood(v) && CacheGood(w);
    }

    /** Any interleaving of sections by any threads on any caches: no block is handed out twice, and what a
        thread that takes no part has fetched stays its own. */
    method Run(steps: seq<Step>, ghost v: nat, ghost tid: nat) returns (items: seq<Block>)
      requires Valid() && AllFit(steps)
      modifies this`handed, controller, caches
      ensures Valid() && handed.Keys == old(handed.Keys) + set b | b in items
      ensures old(Present(v, tid)) && ByOthers(steps, v, tid) ==> Present(v, tid) && Mine(v, tid) == old(Mine(v, tid))
      ensures forall k :: 0 <= k < |items| ==> items[k] !in old(handed)
      ensures forall k, l :: 0 <= k < l < |items| ==> items[k] != items[l]
    {
      items := [];
      for n := 0 to |steps|
        invariant Valid() && handed.Keys == old(handed.Keys) + set b | b in items
        invariant old(Present(v, tid)) && ByOthers(steps, v, tid) ==> Present(v, tid) && Mine(v, tid) == old(Mine(v, tid))
        invariant forall k :: 0 <= k < |items| ==> items[k] !in old(handed)
        invariant forall k, l :: 0 <= k < l < |items| ==> items[k] != items[l]
      {
        var item := Perform(steps[n], v, tid);
        if item.Some? {
          items := items + [item.value];
        }
      }
    }

    /** Other threads get their turn between two sections of thread tid. */
    method Yield(others: seq<seq<Step>>, ghost v: nat, ghost tid: nat) returns (rest: seq<seq<Step>>)
      requires Valid() && Present(v, tid) && forall k :: 0 <= k < |others| ==> ByOthers(others[k], v, tid)
      modifies this`handed, controller, caches
      ensures Valid() && Present(v, tid) && Mine(v, tid) == old(Mine(v, tid)) && old(handed.Keys) <= handed.Keys
      ensures rest == if others == [] then [] else others[1..]
      ensures others == [] ==> caches[v].global == old(caches[v].global)
    {
      if others == [] {
        return [];
      }
      var _ := Run(others[0], v, tid);
      rest := others[1..];
    }

    /** reserve (lines 141-156): batch after batch until the thread holds capacity blocks, then the push. */
    method Reserve(v: nat, tid: nat, others: seq<seq<Step>>) returns (rest: seq<seq<Step>>)
      requires Valid() && Present(v, tid) && forall k :: 0 <= k < |others| ==> ByOthers(others[k], v, tid)
      modifies this`handed, controller, caches
      ensures Valid() && Present(v, tid) && old(handed.Keys) <= handed.Keys && caches[v].global != []
      ensures |rest| <= |others| && forall k :: 0 <= k < |rest| ==> ByOthers(rest[k], v, tid)
    {
      rest := others;
      CapacityPositive(v);
      while |caches[v].fetched[tid]| < caches[v].capacity
        invariant Valid() && Present(v, tid) && old(handed.Keys) <= handed.Keys
        invariant |rest| <= |others| && forall k :: 0 <= k < |rest| ==> ByOthers(rest[k], v, tid)
        decreases caches[v].capacity - |Mine(v, tid)|
      {
        FetchBatch(v, tid);
        rest := Yield(rest, v, tid);
      }
      PushAll(v, tid);
    }

    lemma CapacityPositive(v: nat)
      requires Valid() && v < |caches|
      ensures caches[v].capacity >= 1
    {
      GoodMeans(|caches|);
      assert CacheGood(v);
    }

    /** get (lines 68-114) of thread tid.  The elements of `others` are what other threads do between two of
        its sections, one after the other; cpu(k) is the core it runs on at its k-th look. */
    method Get(v: nat, tid: nat, cpu: nat -> nat, others: seq<seq<Step>>) returns (item: Block)
      requires Valid() && Present(v, tid) && forall k :: cpu(k) < caches[v].cores
      requires forall k :: 0 <= k < |others| ==> ByOthers(others[k], v, tid)
      modifies this`handed, controller, caches
      ensures Valid() && old(handed.Keys) <= handed.Keys
      ensures item !in old(handed) && item in handed && handed[item] == v
    {
      var r := Pop(v, cpu(0), false);
      if r.Some? {
        return r.value;
      }
      var rest := Yield(others, v, tid);
      r := Pop(v, cpu(1), true);
      var k := 2;
      while r.None?
        invariant Valid() && Present(v, tid) && old(handed.Keys) <= handed.Keys
        invariant forall i :: 0 <= i < |rest| ==> ByOthers(rest[i], v, tid)
        invariant r.Some? ==> r.value !in old(handed) && r.value in handed && handed[r.value] == v
        decreases |rest|, r.None?
      {
        r, rest := Again(v, tid, cpu(k), rest);
        k := k + 1;
      }
      return r.value;
    }

    /** reserve and another pass of the slow path, which fails only when others act in between. */
    method Again(v: nat, tid: nat, cpu: nat, others: seq<seq<Step>>) returns (r: Option<Block>, rest: seq<seq<Step>>)
      requires Valid() && Present(v, tid) && cpu < caches[v].cores
      requires forall k :: 0 <= k < |others| ==> ByOthers(others[k], v, tid)
      modifies this`handed, controller, caches
      ensures Valid() && Present(v, tid) && old(handed.Keys) <= handed.Keys
      ensures |rest| <= |others| && (r.None? ==> |rest| < |others|)
      ensures forall k :: 0 <= k < |rest| ==> ByOthers(rest[k], v, tid)
      ensures r.Some? ==> r.value !in old(handed) && r.value in handed && handed[r.value] == v
    {
      rest := Reserve(v, tid, others);
      rest := Yield(rest, v, tid);
      r := Pop(v, cpu, true);
    }
  }
}
