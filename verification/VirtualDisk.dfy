/**
 The log-structured virtual disk as a state machine over all volumes, sectors and
 servers (sandook/virtual_disk/virtual_disk_remote.cc, block_resolver.h,
 sandook/controller/block_allocator.h).

 Every write takes fresh blocks on two servers, installs them as the sector's
 mapping and then sends one write per replica.  A refused replica write starts one
 nested attempt on new blocks while the sibling write of the old attempt may still
 be on its way.  Operations on different sectors interleave freely; operations on
 one sector do not overlap.
 */
module VirtualDisk {
  import opened Wrappers

  /** Contents of one sector. */
  type Data = seq<int>

  datatype Block = Block(server: nat, addr: nat)
  datatype Key = Key(vol: nat, lba: nat)

  /** Entry of the block resolver: one block per replica (kNumReplicas is 2) and the dirty bit. */
  datatype Mapping = Unmapped | Mapped(b0: Block, b1: Block, dirty: bool)

  function Replica(m: Mapping, r: bool): Block
    requires m.Mapped?
  {
    if r then m.b1 else m.b0
  }

  /**
   Where a block is.  `Pooled` blocks sit in some core-local cache of the volume;
   `Trash(i, r)` is replica r of the i-th mapping ever put on the discard list.
   */
  datatype Stage = Fresh | Pooled(vol: nat) | Current(key: Key, r: bool) | Dropped | Trash(i: nat, r: bool)

  /**
   A replica thread of a write attempt: request on its way, stored and acknowledged,
   refused, about to retry, joined on the nested attempt, returned.
   */
  datatype Thread = Sent | Stored | Refused | Retrying | Waiting | Returned

  datatype Op =
    | Idle
    | Reading(resolved: Mapping)
    | Replied(data: Data)
    | Writing(data: Data, n: nat, blk: (nat, bool) -> Block, thr: (nat, bool) -> Thread, retrier: nat -> bool)

  datatype State = State(
    next: nat -> nat,            // next_allocation of each server
    stage: Block -> Stage,
    disk: Block -> Data,         // contents of the servers
    mapping: Key -> Mapping,     // blk_map_ of each volume
    op: Key -> Op,
    nTrash: nat,                 // mappings discarded so far, in order
    trash: nat -> Mapping,
    collected: nat)              // how many of them the collector has taken

  // ---------------------------------------------------------------- steps

  datatype Action =
    | Refill(vol: nat, server: nat, count: nat)
    | BeginWrite(key: Key, data: Data, b0: Block, b1: Block)
    | Store(key: Key, i: nat, r: bool)
    | Refuse(key: Key, i: nat, r: bool, junk: Data)
    | Return(key: Key, i: nat, r: bool)
    | Retry(key: Key, i: nat, r: bool, b0: Block, b1: Block)
    | Join(key: Key, i: nat, r: bool)
    | EndWrite(key: Key)
    | BeginRead(key: Key)
    | Resolve(key: Key)
    | Serve(key: Key, r: bool)
    | EndRead(key: Key)
    | MissRead(key: Key)
    | Allocate(key: Key, b0: Block, b1: Block)
    | Collect
    | Trim(b: Block, junk: Data)

  /** AddMapping: a dirty mapping goes to the discard list, then the new one is installed. */
  ghost function Install(s: State, k: Key, m: Mapping): State
    requires m.Mapped?
  {
    var old' := s.mapping(k);
    var keep := old'.Mapped? && old'.dirty;
    s.(mapping := With(s.mapping, k, m),
       stage := (b: Block) => if b == m.b0 then Current(k, false)
                     else if b == m.b1 then Current(k, true)
                     else if old'.Mapped? && (b == old'.b0 || b == old'.b1)
                     then (if keep then Trash(s.nTrash, b == old'.b1) else Dropped)
                     else s.stage(b),
       nTrash := if keep then s.nTrash + 1 else s.nTrash,
       trash := if keep then With<nat, Mapping>(s.trash, s.nTrash, old') else s.trash)
  }

  /** Two different blocks from the volume's caches. */
  ghost predicate Available(s: State, k: Key, b0: Block, b1: Block) {
    b0 != b1 && s.stage(b0) == Pooled(k.vol) && s.stage(b1) == Pooled(k.vol)
  }

  ghost predicate Complete(w: Op, i: nat)
    requires w.Writing?
  {
    w.thr(i, false) == Returned && w.thr(i, true) == Returned
  }

  /** `is_retrying` of attempt i: some replica thread has won the exchange. */
  ghost predicate Flagged(w: Op, i: nat)
    requires w.Writing?
  {
    i + 1 < w.n || w.thr(i, false) == Retrying || w.thr(i, true) == Retrying
  }

  ghost function SetThread(w: Op, i: nat, r: bool, t: Thread): Op
    requires w.Writing?
  {
    w.(thr := (j: nat, q: bool) => if j == i && q == r then t else w.thr(j, q))
  }

  ghost predicate ThreadIs(s: State, k: Key, i: nat, r: bool, t: Thread) {
    s.op(k).Writing? && i < s.op(k).n && s.op(k).thr(i, r) == t
  }

  ghost function Attempt(data: Data, b0: Block, b1: Block): Op {
    Writing(data, 1, (i: nat, r: bool) => if r then b1 else b0, (i: nat, r: bool) => Sent, (i: nat) => false)
  }

  ghost function AddAttempt(w: Op, i: nat, r: bool, b0: Block, b1: Block): Op
    requires w.Writing?
  {
    Writing(w.data, w.n + 1,
            (j: nat, q: bool) => if j == w.n then (if q then b1 else b0) else w.blk(j, q),
            (j: nat, q: bool) => if j == w.n then Sent else if j == i && q == r then Waiting else w.thr(j, q),
            (j: nat) => if j == i then r else w.retrier(j))
  }

  ghost predicate Enabled(s: State, a: Action) {
    match a
    case Refill(vol, server, count) => true
    case BeginWrite(k, data, b0, b1) => s.op(k) == Idle && Available(s, k, b0, b1)
    case Store(k, i, r) => ThreadIs(s, k, i, r, Sent)
    case Refuse(k, i, r, junk) => ThreadIs(s, k, i, r, Sent)
    case Return(k, i, r) => ThreadIs(s, k, i, r, Stored) || ThreadIs(s, k, i, r, Refused)
    case Retry(k, i, r, b0, b1) => ThreadIs(s, k, i, r, Retrying) && Available(s, k, b0, b1)
    case Join(k, i, r) => ThreadIs(s, k, i, r, Waiting) && Complete(s.op(k), i + 1)
    case EndWrite(k) => s.op(k).Writing? && Complete(s.op(k), 0)
    case BeginRead(k) => s.op(k) == Idle && s.mapping(k).Mapped?
    case Resolve(k) => s.op(k).Reading? && s.mapping(k).Mapped?
    case Serve(k, r) => s.op(k).Reading? && s.op(k).resolved.Mapped?
    case EndRead(k) => s.op(k).Replied?
    case MissRead(k) => s.op(k) == Idle && s.mapping(k).Unmapped?
    case Allocate(k, b0, b1) => s.op(k) == Idle && Available(s, k, b0, b1)
    case Collect => true
    case Trim(b, junk) => s.stage(b).Trash? && s.stage(b).i < s.collected
  }

  /** A refused write may leave anything in its own block; a trimmed block likewise. */
  ghost function Step(s: State, a: Action): State
    requires Enabled(s, a)
  {
    match a
    case Refill(vol, server, count) =>
      s.(next := With<nat, nat>(s.next, server, s.next(server) + count),
         stage := (b: Block) => if b.server == server && s.next(server) <= b.addr < s.next(server) + count
                       then Pooled(vol) else s.stage(b))
    case BeginWrite(k, data, b0, b1) =>
      Install(s, k, Mapped(b0, b1, true)).(op := With(s.op, k, Attempt(data, b0, b1)))
    case Store(k, i, r) =>
      s.(disk := With(s.disk, s.op(k).blk(i, r), s.op(k).data),
         op := With(s.op, k, SetThread(s.op(k), i, r, Stored)))
    case Refuse(k, i, r, junk) =>
      s.(disk := With(s.disk, s.op(k).blk(i, r), junk),
         op := With(s.op, k, SetThread(s.op(k), i, r, Refused)))
    case Return(k, i, r) =>
      var w := s.op(k);
      s.(op := With(s.op, k, SetThread(w, i, r, if w.thr(i, r) == Refused && !Flagged(w, i) then Retrying else Returned)))
    case Retry(k, i, r, b0, b1) =>
      Install(s, k, Mapped(b0, b1, true)).(op := With(s.op, k, AddAttempt(s.op(k), i, r, b0, b1)))
    case Join(k, i, r) => s.(op := With(s.op, k, SetThread(s.op(k), i, r, Returned)))
    case EndWrite(k) => s.(op := With(s.op, k, Idle))
    case BeginRead(k) => s.(op := With(s.op, k, Reading(s.mapping(k))))
    case Resolve(k) => s.(op := With(s.op, k, Reading(s.mapping(k))))
    case Serve(k, r) => s.(op := With(s.op, k, Replied(s.disk(Replica(s.op(k).resolved, r)))))
    case EndRead(k) => s.(op := With(s.op, k, Idle))
    case MissRead(k) => s
    case Allocate(k, b0, b1) => Install(s, k, Mapped(b0, b1, false))
    case Collect => s.(collected := s.nTrash)
    case Trim(b, junk) => s.(disk := With(s.disk, b, junk))
  }

  ghost predicate Initial(s: State) {
    && (forall n :: s.next(n) == 0)
    && (forall b :: s.stage(b) == Fresh)
    && (forall k :: s.mapping(k) == Unmapped && s.op(k) == Idle)
    && s.nTrash == 0 && s.collected == 0
  }

  // ---------------------------------------------------------------- block ownership

  /** Blocks the controller has not given out yet are exactly those at or above its counter. */
  ghost predicate FreshOwned(s: State) {
    forall b :: s.stage(b) == Fresh <==> b.addr >= s.next(b.server)
  }

  ghost predicate CurrentOwned(s: State) {
    && (forall k :: s.mapping(k).Mapped? ==>
          s.stage(s.mapping(k).b0) == Current(k, false) && s.stage(s.mapping(k).b1) == Current(k, true))
    && (forall b :: s.stage(b).Current? ==>
          s.mapping(s.stage(b).key).Mapped? && Replica(s.mapping(s.stage(b).key), s.stage(b).r) == b)
  }

  ghost predicate TrashOwned(s: State) {
    && (forall i: nat :: i < s.nTrash ==>
          s.trash(i).Mapped? && s.trash(i).dirty
          && s.stage(s.trash(i).b0) == Trash(i, false) && s.stage(s.trash(i).b1) == Trash(i, true))
    && (forall b :: s.stage(b).Trash? ==>
          s.stage(b).i < s.nTrash && s.trash(s.stage(b).i).Mapped? && Replica(s.trash(s.stage(b).i), s.stage(b).r) == b)
    && s.collected <= s.nTrash
  }

  /** Each block is in exactly one place: the stage agrees with the tables. */
  ghost predicate Owned(s: State) {
    FreshOwned(s) && CurrentOwned(s) && TrashOwned(s)
  }

  lemma RefillKeepsOwned(s: State, vol: nat, server: nat, count: nat)
    requires Owned(s)
    ensures Owned(Step(s, Refill(vol, server, count)))
  {
  }

  lemma InstallKeepsFresh(s: State, k: Key, b0: Block, b1: Block, dirty: bool)
    requires FreshOwned(s) && CurrentOwned(s) && Available(s, k, b0, b1)
    ensures FreshOwned(Install(s, k, Mapped(b0, b1, dirty)))
  {
    var m, s' := Mapped(b0, b1, dirty), Install(s, k, Mapped(b0, b1, dirty));
    forall b ensures s'.stage(b) == Fresh <==> b.addr >= s'.next(b.server) {
      assert s.stage(b) == Fresh <==> b.addr >= s.next(b.server);
    }
  }

  lemma InstallKeepsCurrent(s: State, k: Key, b0: Block, b1: Block, dirty: bool)
    requires CurrentOwned(s) && Available(s, k, b0, b1)
    ensures CurrentOwned(Install(s, k, Mapped(b0, b1, dirty)))
  {
    var s' := Install(s, k, Mapped(b0, b1, dirty));
    forall j | s'.mapping(j).Mapped?
      ensures s'.stage(s'.mapping(j).b0) == Current(j, false) && s'.stage(s'.mapping(j).b1) == Current(j, true)
    {
      if j != k {
        assert s.stage(s.mapping(j).b0) == Current(j, false) && s.stage(s.mapping(j).b1) == Current(j, true);
      }
    }
  }

  lemma InstallKeepsTrash(s: State, k: Key, b0: Block, b1: Block, dirty: bool)
    requires CurrentOwned(s) && TrashOwned(s) && Available(s, k, b0, b1)
    ensures TrashOwned(Install(s, k, Mapped(b0, b1, dirty)))
  {
    var s' := Install(s, k, Mapped(b0, b1, dirty));
    var old' := s.mapping(k);
    forall i: nat | i < s'.nTrash
      ensures s'.trash(i).Mapped? && s'.trash(i).dirty
      ensures s'.stage(s'.trash(i).b0) == Trash(i, false) && s'.stage(s'.trash(i).b1) == Trash(i, true)
    {
      if i < s.nTrash {
        assert s.stage(s.trash(i).b0) == Trash(i, false) && s.stage(s.trash(i).b1) == Trash(i, true);
      } else {
        assert s'.trash(i) == old';
      }
    }
    forall b | s'.stage(b).Trash?
      ensures s'.stage(b).i < s'.nTrash && s'.trash(s'.stage(b).i).Mapped? && Replica(s'.trash(s'.stage(b).i), s'.stage(b).r) == b
    {
      if s'.stage(b) == s.stage(b) {
        assert s.stage(b).Trash?;
      }
    }
  }

  lemma InstallKeepsOwned(s: State, k: Key, b0: Block, b1: Block, dirty: bool)
    requires Owned(s) && Available(s, k, b0, b1)
    ensures Owned(Install(s, k, Mapped(b0, b1, dirty)))
  {
    InstallKeepsFresh(s, k, b0, b1, dirty);
    InstallKeepsCurrent(s, k, b0, b1, dirty);
    InstallKeepsTrash(s, k, b0, b1, dirty);
  }

  // ---------------------------------------------------------------- operations

  /** What a write attempt that spawned a retry looks like. */
  ghost predicate RetriedAttempt(w: Op, i: nat)
    requires w.Writing?
  {
    var r := w.retrier(i);
    && (w.thr(i, r) == Waiting || w.thr(i, r) == Returned)
    && (w.thr(i, r) == Returned ==> Complete(w, i + 1))
    && w.thr(i, !r) != Waiting && w.thr(i, !r) != Retrying
  }

  ghost predicate LastAttempt(s: State, w: Op)
    requires w.Writing? && w.n >= 1
  {
    var i := w.n - 1;
    && w.thr(i, false) != Waiting && w.thr(i, true) != Waiting
    && !(w.thr(i, false) == Retrying && w.thr(i, true) == Retrying)
    && (!Flagged(w, i) ==>
          forall r :: w.thr(i, r) == Stored || w.thr(i, r) == Returned ==> s.disk(w.blk(i, r)) == w.data)
  }

  ghost predicate WriteOk(s: State, k: Key, w: Op)
    requires w.Writing?
  {
    && w.n >= 1
    && s.mapping(k) == Mapped(w.blk(w.n - 1, false), w.blk(w.n - 1, true), true)
    && (forall i, r :: 0 <= i < w.n - 1 ==> s.stage(w.blk(i, r)).Trash?)
    && (forall i :: 0 <= i < w.n - 1 ==> RetriedAttempt(w, i))
    && LastAttempt(s, w)
  }

  ghost predicate OpOk(s: State, k: Key) {
    match s.op(k)
    case Idle => true
    case Reading(m) => m == s.mapping(k) && m.Mapped?
    case Replied(d) => s.mapping(k).Mapped?
    case Writing(_, _, _, _, _) => WriteOk(s, k, s.op(k))
  }

  ghost predicate Inv(s: State) {
    Owned(s) && forall k :: OpOk(s, k)
  }

  /** Other sectors do not notice a step that leaves their mapping and their current blocks alone. */
  lemma OpOkFrame(s: State, s': State, k: Key)
    requires Owned(s) && OpOk(s, k) && s'.op(k) == s.op(k) && s'.mapping(k) == s.mapping(k)
    requires forall b :: s.stage(b).Trash? ==> s'.stage(b).Trash?
    requires forall r :: s.mapping(k).Mapped? ==> s'.disk(Replica(s.mapping(k), r)) == s.disk(Replica(s.mapping(k), r))
    ensures OpOk(s', k)
  {
    if s.op(k).Writing? {
      var w := s.op(k);
      var i := w.n - 1;
      forall r ensures s'.disk(w.blk(i, r)) == s.disk(w.blk(i, r)) {
        assert Replica(s.mapping(k), r) == w.blk(i, r);
      }
    }
  }

  /** Steps that change only the operation of one sector and the contents of one block. */
  lemma LocalStep(s: State, s': State, k: Key, b: Block)
    requires Inv(s) && s' == s.(op := s'.op, disk := s'.disk)
    requires forall j :: j != k ==> s'.op(j) == s.op(j)
    requires forall c :: c != b ==> s'.disk(c) == s.disk(c)
    requires s'.disk(b) != s.disk(b) ==> s.stage(b).Trash? || (s.stage(b).Current? && s.stage(b).key == k)
    requires OpOk(s', k)
    ensures Inv(s')
  {
    forall j ensures OpOk(s', j) {
      if j != k {
        forall r ensures s.mapping(j).Mapped? ==> s'.disk(Replica(s.mapping(j), r)) == s.disk(Replica(s.mapping(j), r)) {
          if s.mapping(j).Mapped? {
            assert s.stage(Replica(s.mapping(j), r)) == Current(j, r);
          }
        }
        OpOkFrame(s, s', j);
      }
    }
  }

  /** Installing a mapping for `k` leaves the other sectors alone. */
  lemma InstallStep(s: State, s': State, k: Key, b0: Block, b1: Block, dirty: bool)
    requires Inv(s) && Available(s, k, b0, b1)
    requires s' == Install(s, k, Mapped(b0, b1, dirty)).(op := s'.op)
    requires forall j :: j != k ==> s'.op(j) == s.op(j)
    requires OpOk(s', k)
    ensures Inv(s')
  {
    InstallKeepsOwned(s, k, b0, b1, dirty);
    assert Owned(s');
    forall j ensures OpOk(s', j) {
      if j != k {
        InstallKeepsTrashStage(s, k, b0, b1, dirty);
        OpOkFrame(s, s', j);
      }
    }
  }

  lemma InstallKeepsTrashStage(s: State, k: Key, b0: Block, b1: Block, dirty: bool)
    requires Owned(s) && Available(s, k, b0, b1)
    ensures forall b :: s.stage(b).Trash? ==> Install(s, k, Mapped(b0, b1, dirty)).stage(b).Trash?
  {
  }

  /** The block of a replica thread belongs to the sector or is trash. */
  lemma ThreadBlock(s: State, k: Key, i: nat, r: bool)
    requires Inv(s) && s.op(k).Writing? && i < s.op(k).n
    ensures i == s.op(k).n - 1 ==> s.stage(s.op(k).blk(i, r)) == Current(k, r)
    ensures i < s.op(k).n - 1 ==> s.stage(s.op(k).blk(i, r)).Trash?
  {
    assert OpOk(s, k);
  }

  /** A thread step of an earlier attempt: its sibling is the retrier, its block is trash. */
  lemma EarlierThread(s: State, s': State, k: Key, i: nat, r: bool, t: Thread)
    requires Inv(s) && s.op(k).Writing? && i < s.op(k).n - 1
    requires s'.stage == s.stage && s'.mapping == s.mapping && s'.op(k) == SetThread(s.op(k), i, r, t)
    requires forall c :: !s.stage(c).Trash? ==> s'.disk(c) == s.disk(c)
    requires t != Waiting && t != Retrying && s.op(k).thr(i, r) != Returned
    requires s.op(k).retrier(i) == r ==> t == Returned && Complete(s.op(k), i + 1)
    ensures OpOk(s', k)
  {
    var w, w' := s.op(k), s'.op(k);
    assert OpOk(s, k);
    assert RetriedAttempt(w, i);
    forall j: nat | j < w.n - 1 ensures RetriedAttempt(w', j) {
      assert RetriedAttempt(w, j);
    }
    var l := w.n - 1;
    forall q ensures s'.disk(w.blk(l, q)) == s.disk(w.blk(l, q)) {
      ThreadBlock(s, k, l, q);
    }
  }

  /** A thread step of the last attempt. */
  lemma LastThread(s: State, s': State, k: Key, r: bool, t: Thread)
    requires Inv(s) && s.op(k).Writing? && s.op(k).n >= 1
    requires s'.stage == s.stage && s'.mapping == s.mapping
    requires s'.op(k) == SetThread(s.op(k), s.op(k).n - 1, r, t)
    requires s.op(k).thr(s.op(k).n - 1, r) != Returned && s.op(k).thr(s.op(k).n - 1, r) != Retrying && t != Waiting
    requires s'.disk(s.op(k).blk(s.op(k).n - 1, !r)) == s.disk(s.op(k).blk(s.op(k).n - 1, !r))
    requires t == Retrying ==> !Flagged(s.op(k), s.op(k).n - 1)
    requires t == Stored || t == Returned ==>
      Flagged(s.op(k), s.op(k).n - 1) || s'.disk(s.op(k).blk(s.op(k).n - 1, r)) == s.op(k).data
    ensures OpOk(s', k)
  {
    var w, w' := s.op(k), s'.op(k);
    assert OpOk(s, k);
    forall j: nat | j < w.n - 1 ensures RetriedAttempt(w', j) {
      assert RetriedAttempt(w, j);
    }
  }

  lemma StoreKeepsInv(s: State, k: Key, i: nat, r: bool)
    requires Inv(s) && Enabled(s, Store(k, i, r))
    ensures Inv(Step(s, Store(k, i, r)))
  {
    var w, s' := s.op(k), Step(s, Store(k, i, r));
    ThreadBlock(s, k, i, r);
    if i < w.n - 1 {
      assert OpOk(s, k) && RetriedAttempt(w, i);
      EarlierThread(s, s', k, i, r, Stored);
    } else {
      ThreadBlock(s, k, i, !r);
      LastThread(s, s', k, r, Stored);
    }
    LocalStep(s, s', k, w.blk(i, r));
  }

  lemma RefuseKeepsInv(s: State, k: Key, i: nat, r: bool, junk: Data)
    requires Inv(s) && Enabled(s, Refuse(k, i, r, junk))
    ensures Inv(Step(s, Refuse(k, i, r, junk)))
  {
    var w, s' := s.op(k), Step(s, Refuse(k, i, r, junk));
    ThreadBlock(s, k, i, r);
    if i < w.n - 1 {
      assert OpOk(s, k) && RetriedAttempt(w, i);
      EarlierThread(s, s', k, i, r, Refused);
    } else {
      ThreadBlock(s, k, i, !r);
      LastThread(s, s', k, r, Refused);
    }
    LocalStep(s, s', k, w.blk(i, r));
  }

  lemma ReturnKeepsInv(s: State, k: Key, i: nat, r: bool)
    requires Inv(s) && Enabled(s, Return(k, i, r))
    ensures Inv(Step(s, Return(k, i, r)))
  {
    var w, s' := s.op(k), Step(s, Return(k, i, r));
    var t := s'.op(k).thr(i, r);
    assert OpOk(s, k);
    if i < w.n - 1 {
      assert RetriedAttempt(w, i);
      EarlierThread(s, s', k, i, r, t);
    } else {
      LastThread(s, s', k, r, t);
    }
    LocalStep(s, s', k, w.blk(i, r));
  }

  lemma JoinKeepsInv(s: State, k: Key, i: nat, r: bool)
    requires Inv(s) && Enabled(s, Join(k, i, r))
    ensures Inv(Step(s, Join(k, i, r)))
  {
    var w, s' := s.op(k), Step(s, Join(k, i, r));
    assert OpOk(s, k);
    assert i < w.n - 1 ==> RetriedAttempt(w, i);
    EarlierThread(s, s', k, i, r, Returned);
    LocalStep(s, s', k, w.blk(i, r));
  }

  lemma RetryKeepsInv(s: State, k: Key, i: nat, r: bool, b0: Block, b1: Block)
    requires Inv(s) && Enabled(s, Retry(k, i, r, b0, b1))
    ensures Inv(Step(s, Retry(k, i, r, b0, b1)))
  {
    var w, s' := s.op(k), Step(s, Retry(k, i, r, b0, b1));
    var w' := s'.op(k);
    assert OpOk(s, k);
    assert i < w.n - 1 ==> RetriedAttempt(w, i);
    assert i == w.n - 1;
    InstallKeepsTrashStage(s, k, b0, b1, true);
    forall j: nat, q | j < w'.n - 1 ensures s'.stage(w'.blk(j, q)).Trash? {
      ThreadBlock(s, k, j, q);
    }
    forall j: nat | j < w'.n - 1 ensures RetriedAttempt(w', j) {
      assert j < w.n - 1 ==> RetriedAttempt(w, j);
    }
    InstallStep(s, s', k, b0, b1, true);
  }

  lemma BeginWriteKeepsInv(s: State, k: Key, data: Data, b0: Block, b1: Block)
    requires Inv(s) && Enabled(s, BeginWrite(k, data, b0, b1))
    ensures Inv(Step(s, BeginWrite(k, data, b0, b1)))
  {
    InstallStep(s, Step(s, BeginWrite(k, data, b0, b1)), k, b0, b1, true);
  }

  lemma StepKeepsInv(s: State, a: Action)
    requires Inv(s) && Enabled(s, a)
    ensures Inv(Step(s, a))
  {
    var s' := Step(s, a);
    match a
    case Refill(vol, server, count) =>
      RefillKeepsOwned(s, vol, server, count);
      forall j ensures OpOk(s', j) {
        OpOkFrame(s, s', j);
      }
    case BeginWrite(k, data, b0, b1) => BeginWriteKeepsInv(s, k, data, b0, b1);
    case Store(k, i, r) => StoreKeepsInv(s, k, i, r);
    case Refuse(k, i, r, junk) => RefuseKeepsInv(s, k, i, r, junk);
    case Return(k, i, r) => ReturnKeepsInv(s, k, i, r);
    case Retry(k, i, r, b0, b1) => RetryKeepsInv(s, k, i, r, b0, b1);
    case Join(k, i, r) => JoinKeepsInv(s, k, i, r);
    case EndWrite(k) => LocalStep(s, s', k, Block(0, 0));
    case BeginRead(k) => LocalStep(s, s', k, Block(0, 0));
    case Resolve(k) => LocalStep(s, s', k, Block(0, 0));
    case Serve(k, r) =>
      assert OpOk(s, k);
      LocalStep(s, s', k, Block(0, 0));
    case EndRead(k) => LocalStep(s, s', k, Block(0, 0));
    case MissRead(k) =>
    case Allocate(k, b0, b1) => InstallStep(s, s', k, b0, b1, false);
    case Collect =>
      forall j ensures OpOk(s', j) {
        OpOkFrame(s, s', j);
      }
    case Trim(b, junk) =>
      forall j ensures OpOk(s', j) {
        assert OpOk(s, j);
        assert forall r :: s.mapping(j).Mapped? ==> s.stage(Replica(s.mapping(j), r)) == Current(j, r);
        OpOkFrame(s, s', j);
      }
  }

  // ---------------------------------------------------------------- returning writes

  /** When the outermost attempt has returned, so has every nested one. */
  lemma {:induction false} AllComplete(s: State, k: Key, i: nat)
    requires Inv(s) && s.op(k).Writing? && i < s.op(k).n && Complete(s.op(k), 0)
    ensures Complete(s.op(k), i)
  {
    if i > 0 {
      AllComplete(s, k, i - 1);
      assert OpOk(s, k) && RetriedAttempt(s.op(k), i - 1);
    }
  }

  /** A returning write leaves every replica of the current mapping holding its data. */
  lemma ReturningWriteIsStored(s: State, k: Key)
    requires Inv(s) && Enabled(s, EndWrite(k))
    ensures s.mapping(k).Mapped? && s.mapping(k).dirty
    ensures forall r :: s.disk(Replica(s.mapping(k), r)) == s.op(k).data
  {
    var w := s.op(k);
    assert OpOk(s, k);
    AllComplete(s, k, w.n - 1);
    forall r ensures s.disk(Replica(s.mapping(k), r)) == w.data {
      assert Replica(s.mapping(k), r) == w.blk(w.n - 1, r);
    }
  }

  /** Every attempt of a write spawns at most one retry: retries form a single chain. */
  lemma SingleRetryChain(s: State, k: Key, i: nat)
    requires Inv(s) && s.op(k).Writing? && i < s.op(k).n
    ensures !(s.op(k).thr(i, false) == Retrying && s.op(k).thr(i, true) == Retrying)
    ensures !(s.op(k).thr(i, false) == Waiting && s.op(k).thr(i, true) == Waiting)
    ensures s.op(k).thr(i, false) == Retrying || s.op(k).thr(i, true) == Retrying ==> i == s.op(k).n - 1
  {
    assert OpOk(s, k);
    assert i < s.op(k).n - 1 ==> RetriedAttempt(s.op(k), i);
  }

  // ---------------------------------------------------------------- refinement of an array of sectors

  /** What a caller sees of a step. */
  datatype Event = Silent | WriteBegun(key: Key) | WriteDone(key: Key, data: Data) | ReadDone(key: Key, data: Data)
                 | ReadFailed(key: Key) | Remapped(key: Key)

  ghost function EventOf(s: State, a: Action): Event
    requires Enabled(s, a)
  {
    match a
    case BeginWrite(k, data, _, _) => WriteBegun(k)
    case EndWrite(k) => WriteDone(k, s.op(k).data)
    case EndRead(k) => ReadDone(k, s.op(k).data)
    case MissRead(k) => ReadFailed(k)
    case Allocate(k, _, _) => Remapped(k)
    case _ => Silent
  }

  /** The specification, on events alone: the last write to the sector if nothing has overwritten it since. */
  function LastWrite(h: seq<Event>, k: Key): Option<Data> {
    if h == [] then None
    else
      match h[|h| - 1]
      case WriteDone(j, data) => if j == k then Some(data) else LastWrite(h[..|h| - 1], k)
      case WriteBegun(j) => if j == k then None else LastWrite(h[..|h| - 1], k)
      case Remapped(j) => if j == k then None else LastWrite(h[..|h| - 1], k)
      case _ => LastWrite(h[..|h| - 1], k)
  }

  /** Sector `k` stores `data` on both replicas and no pending reply differs from it. */
  ghost predicate Stores(s: State, k: Key, data: Data) {
    && !s.op(k).Writing? && s.mapping(k).Mapped?
    && s.disk(s.mapping(k).b0) == data && s.disk(s.mapping(k).b1) == data
    && (s.op(k).Replied? ==> s.op(k).data == data)
  }

  /** The state implements the array of sectors described by the history. */
  ghost predicate Implements(s: State, h: seq<Event>) {
    forall k :: LastWrite(h, k).Some? ==> Stores(s, k, LastWrite(h, k).value)
  }

  lemma LastWriteAppend(h: seq<Event>, e: Event, k: Key)
    ensures LastWrite(h + [e], k) ==
      match e
      case WriteDone(j, data) => if j == k then Some(data) else LastWrite(h, k)
      case WriteBegun(j) => if j == k then None else LastWrite(h, k)
      case Remapped(j) => if j == k then None else LastWrite(h, k)
      case _ => LastWrite(h, k)
  {
    assert (h + [e])[..|h|] == h;
  }

  /** A step that does not concern sector `k`, or only serves a read of it, keeps what it stores. */
  lemma StoresFrame(s: State, a: Action, k: Key, data: Data)
    requires Inv(s) && Enabled(s, a) && Stores(s, k, data)
    requires !(a.BeginWrite? && a.key == k) && !(a.Allocate? && a.key == k)
    ensures Stores(Step(s, a), k, data)
  {
    assert s.stage(s.mapping(k).b0) == Current(k, false) && s.stage(s.mapping(k).b1) == Current(k, true);
    assert OpOk(s, k);
    match a
    case Store(j, i, r) => ThreadBlock(s, j, i, r);
    case Refuse(j, i, r, junk) => ThreadBlock(s, j, i, r);
    case _ =>
  }

  lemma StepImplements(s: State, a: Action, h: seq<Event>)
    requires Inv(s) && Enabled(s, a) && Implements(s, h)
    ensures Implements(Step(s, a), h + [EventOf(s, a)])
  {
    var s', h' := Step(s, a), h + [EventOf(s, a)];
    forall k | LastWrite(h', k).Some? ensures Stores(s', k, LastWrite(h', k).value) {
      LastWriteAppend(h, EventOf(s, a), k);
      if a == EndWrite(k) {
        ReturningWriteIsStored(s, k);
        assert Replica(s.mapping(k), false) == s.mapping(k).b0 && Replica(s.mapping(k), true) == s.mapping(k).b1;
      } else {
        StoresFrame(s, a, k, LastWrite(h, k).value);
      }
    }
  }

  // ---------------------------------------------------------------- runs

  ghost predicate Next(s: State, a: Action, s': State) {
    Enabled(s, a) && s' == Step(s, a)
  }

  ghost predicate IsRun(states: seq<State>, actions: seq<Action>) {
    && |states| == |actions| + 1 && Initial(states[0])
    && forall i :: 0 <= i < |actions| ==> Next(states[i], actions[i], states[i + 1])
  }

  /** The events of the first `n` steps. */
  ghost function History(states: seq<State>, actions: seq<Action>, n: nat): seq<Event>
    requires IsRun(states, actions) && n <= |actions|
  {
    if n == 0 then []
    else
      assert Next(states[n - 1], actions[n - 1], states[n - 1 + 1]);
      History(states, actions, n - 1) + [EventOf(states[n - 1], actions[n - 1])]
  }

  lemma {:induction false} RunKeepsInv(states: seq<State>, actions: seq<Action>, n: nat)
    requires IsRun(states, actions) && n <= |actions|
    ensures Inv(states[n]) && Implements(states[n], History(states, actions, n))
  {
    if n > 0 {
      var i := n - 1;
      RunKeepsInv(states, actions, i);
      assert Next(states[i], actions[i], states[i + 1]);
      StepKeepsInv(states[i], actions[i]);
      StepImplements(states[i], actions[i], History(states, actions, i));
    }
  }

  /** Refinement: a returning read yields the last written data, whatever was refused, retried or trimmed. */
  lemma ReadReturnsLastWrite(states: seq<State>, actions: seq<Action>, n: nat, k: Key)
    requires IsRun(states, actions) && n < |actions| && actions[n] == EndRead(k)
    requires LastWrite(History(states, actions, n), k).Some?
    ensures History(states, actions, n + 1) ==
            History(states, actions, n) + [ReadDone(k, LastWrite(History(states, actions, n), k).value)]
  {
    RunKeepsInv(states, actions, n);
    assert Next(states[n], actions[n], states[n + 1]);
  }

  /** A written sector never reads as missing. */
  lemma WrittenSectorIsFound(states: seq<State>, actions: seq<Action>, n: nat, k: Key)
    requires IsRun(states, actions) && n < |actions| && LastWrite(History(states, actions, n), k).Some?
    ensures actions[n] != MissRead(k)
  {
    RunKeepsInv(states, actions, n);
    assert Next(states[n], actions[n], states[n + 1]);
  }

  // ---------------------------------------------------------------- blocks are used once

  /** Life of a block: never given out, cached, mapped, given up. */
  function Age(t: Stage): nat {
    match t
    case Fresh => 0
    case Pooled(_) => 1
    case Current(_, _) => 2
    case Dropped => 3
    case Trash(_, _) => 3
  }

  lemma StepAges(s: State, a: Action, b: Block)
    requires Inv(s) && Enabled(s, a)
    ensures Age(s.stage(b)) <= Age(Step(s, a).stage(b))
    ensures Age(s.stage(b)) == 3 ==> Step(s, a).stage(b) == s.stage(b)
  {
    assert s.stage(b) == Fresh <==> b.addr >= s.next(b.server);
  }

  lemma {:induction false} RunAges(states: seq<State>, actions: seq<Action>, i: nat, j: nat, b: Block)
    requires IsRun(states, actions) && i <= j <= |actions|
    ensures Age(states[i].stage(b)) <= Age(states[j].stage(b))
    ensures Age(states[i].stage(b)) == 3 ==> states[j].stage(b) == states[i].stage(b)
    decreases j
  {
    if i < j {
      var l := j - 1;
      RunAges(states, actions, i, l, b);
      RunKeepsInv(states, actions, l);
      assert Next(states[l], actions[l], states[l + 1]);
      StepAges(states[l], actions[l], b);
    }
  }

  /** The blocks a step takes from the caches. */
  function Taken(a: Action): set<Block> {
    match a
    case BeginWrite(_, _, b0, b1) => {b0, b1}
    case Retry(_, _, _, b0, b1) => {b0, b1}
    case Allocate(_, b0, b1) => {b0, b1}
    case _ => {}
  }

  /** No block is handed out twice, whatever the sectors and volumes. */
  lemma BlocksHandedOutOnce(states: seq<State>, actions: seq<Action>, i: nat, j: nat)
    requires IsRun(states, actions) && i < j < |actions|
    ensures Taken(actions[i]) !! Taken(actions[j])
  {
    RunKeepsInv(states, actions, i);
    assert Next(states[i], actions[i], states[i + 1]);
    assert Next(states[j], actions[j], states[j + 1]);
    forall b | b in Taken(actions[i]) ensures b !in Taken(actions[j]) {
      assert states[i + 1].stage(b).Current?;
      RunAges(states, actions, i + 1, j, b);
    }
  }

  /** Every dirty mapping that was replaced is on the discard list exactly once, and never mapped again. */
  lemma TrashIsDiscardedOnce(states: seq<State>, actions: seq<Action>, n: nat, i: nat, j: nat, k: Key)
    requires IsRun(states, actions) && n <= |actions| && i < states[n].nTrash && j < states[n].nTrash
    ensures
      var s := states[n];
      && s.trash(i).Mapped? && s.trash(j).Mapped? && s.trash(i).b0 != s.trash(j).b1
      && (i != j ==> s.trash(i).b0 != s.trash(j).b0 && s.trash(i).b1 != s.trash(j).b1)
      && (s.mapping(k).Mapped? ==>
            forall r, q :: Replica(s.trash(i), r) != Replica(s.mapping(k), q))
  {
    RunKeepsInv(states, actions, n);
    var s := states[n];
    assert s.stage(s.trash(i).b0) == Trash(i, false) && s.stage(s.trash(j).b0) == Trash(j, false);
    assert s.stage(s.trash(i).b1) == Trash(i, true) && s.stage(s.trash(j).b1) == Trash(j, true);
    if s.mapping(k).Mapped? {
      assert s.stage(s.mapping(k).b0) == Current(k, false) && s.stage(s.mapping(k).b1) == Current(k, true);
    }
  }

  ghost predicate InTrash(s: State, m: Mapping) {
    exists i: nat :: i < s.nTrash && s.trash(i) == m
  }

  /** A step keeps the discard list and adds a dirty mapping exactly when it replaces it. */
  lemma StepDiscards(s: State, a: Action, k: Key, m: Mapping)
    requires Enabled(s, a) && m.Mapped? && m.dirty && (s.mapping(k) == m || InTrash(s, m))
    ensures Step(s, a).mapping(k) == m || InTrash(Step(s, a), m)
  {
    var s' := Step(s, a);
    if InTrash(s, m) {
      var i: nat :| i < s.nTrash && s.trash(i) == m;
      assert i < s'.nTrash && s'.trash(i) == m;
    } else if s'.mapping(k) != m {
      assert s.nTrash < s'.nTrash && s'.trash(s.nTrash) == m;
    }
  }

  /** Whatever happens to a sector, a dirty mapping it once had is still current or was discarded. */
  lemma {:induction false} ReplacedMappingIsDiscarded(states: seq<State>, actions: seq<Action>, i: nat, j: nat, k: Key)
    requires IsRun(states, actions) && i <= j <= |actions| && states[i].mapping(k).Mapped? && states[i].mapping(k).dirty
    ensures states[j].mapping(k) == states[i].mapping(k) || InTrash(states[j], states[i].mapping(k))
    decreases j
  {
    if i < j {
      var l := j - 1;
      ReplacedMappingIsDiscarded(states, actions, i, l, k);
      assert Next(states[l], actions[l], states[l + 1]);
      StepDiscards(states[l], actions[l], k, states[i].mapping(k));
    }
  }

  // ---------------------------------------------------------------- such runs exist

  ghost predicate EndsIn(states: seq<State>, actions: seq<Action>, s: State) {
    IsRun(states, actions) && states[|actions|] == s
  }

  ghost predicate Reachable(s: State) {
    exists states, actions :: EndsIn(states, actions, s)
  }

  lemma ReachStep(s: State, a: Action)
    requires Reachable(s) && Enabled(s, a)
    ensures Reachable(Step(s, a))
  {
    var states, actions :| EndsIn(states, actions, s);
    assert EndsIn(states + [Step(s, a)], actions + [a], Step(s, a));
  }

  /** Four blocks on two servers can reach the caches of a volume. */
  lemma StockedIsReachable(k: Key) returns (s: State)
    ensures Reachable(s) && s.op(k) == Idle && s.mapping(k) == Unmapped
    ensures forall b: Block :: b.server == 1 || b.server == 2 ==> b.addr < 2 ==> s.stage(b) == Pooled(k.vol)
  {
    s := State((n: nat) => 0, (b: Block) => Fresh, (b: Block) => [], (j: Key) => Unmapped, (j: Key) => Idle,
               0, (i: nat) => Unmapped, 0);
    assert EndsIn([s], [], s);
    ReachStep(s, Refill(k.vol, 1, 2));
    s := Step(s, Refill(k.vol, 1, 2));
    ReachStep(s, Refill(k.vol, 2, 2));
    s := Step(s, Refill(k.vol, 2, 2));
  }

  /** A replica write can be refused, and its thread then retries. */
  lemma RefusalIsReachable(k: Key, data: Data, junk: Data) returns (s: State)
    ensures Reachable(s) && s.op(k).Writing? && s.op(k).n == 1 && s.op(k).data == data
    ensures s.op(k).thr(0, false) == Retrying && s.op(k).thr(0, true) == Sent
    ensures s.stage(Block(1, 1)) == Pooled(k.vol) && s.stage(Block(2, 1)) == Pooled(k.vol)
  {
    s := StockedIsReachable(k);
    ReachStep(s, BeginWrite(k, data, Block(1, 0), Block(2, 0)));
    s := Step(s, BeginWrite(k, data, Block(1, 0), Block(2, 0)));
    ReachStep(s, Refuse(k, 0, false, junk));
    s := Step(s, Refuse(k, 0, false, junk));
    ReachStep(s, Return(k, 0, false));
    s := Step(s, Return(k, 0, false));
  }

  /** The retry is a second attempt on new blocks. */
  lemma RetryIsReachable(k: Key, data: Data, junk: Data) returns (s: State)
    ensures Reachable(s) && s.op(k).Writing? && s.op(k).n == 2 && s.op(k).data == data
    ensures s.op(k).thr(0, false) == Waiting && s.op(k).thr(0, true) == Sent
    ensures s.op(k).thr(1, false) == Sent && s.op(k).thr(1, true) == Sent
  {
    s := RefusalIsReachable(k, data, junk);
    ReachStep(s, Retry(k, 0, false, Block(1, 1), Block(2, 1)));
    s := Step(s, Retry(k, 0, false, Block(1, 1), Block(2, 1)));
  }

  lemma RetryCompletes(k: Key, data: Data, junk: Data) returns (s: State)
    ensures Reachable(s) && s.op(k).Writing? && s.op(k).n == 2 && s.op(k).data == data
    ensures s.op(k).thr(0, false) == Waiting && s.op(k).thr(0, true) == Sent && Complete(s.op(k), 1)
  {
    s := RetryIsReachable(k, data, junk);
    ReachStep(s, Store(k, 1, false));
    s := Step(s, Store(k, 1, false));
    ReachStep(s, Store(k, 1, true));
    s := Step(s, Store(k, 1, true));
    ReachStep(s, Return(k, 1, false));
    s := Step(s, Return(k, 1, false));
    ReachStep(s, Return(k, 1, true));
    s := Step(s, Return(k, 1, true));
  }

  /** Both attempts can return, the sibling of the refused write last. */
  lemma RetriedWriteIsReachable(k: Key, data: Data, junk: Data) returns (s: State)
    ensures Reachable(s) && Enabled(s, EndWrite(k)) && s.op(k).data == data
  {
    s := RetryCompletes(k, data, junk);
    ReachStep(s, Join(k, 0, false));
    s := Step(s, Join(k, 0, false));
    ReachStep(s, Store(k, 0, true));
    s := Step(s, Store(k, 0, true));
    ReachStep(s, Return(k, 0, true));
    s := Step(s, Return(k, 0, true));
  }

  /** The refused and retried data can be read back, from either replica. */
  lemma RetriedWriteIsReadBack(k: Key, data: Data, junk: Data, r: bool) returns (s: State)
    ensures Reachable(s) && s.op(k) == Replied(data) && Enabled(s, EndRead(k))
  {
    s := RetriedWriteIsReachable(k, data, junk);
    ReachableInv(s);
    ReturningWriteIsStored(s, k);
    ReachStep(s, EndWrite(k));
    s := Step(s, EndWrite(k));
    ReachStep(s, BeginRead(k));
    s := Step(s, BeginRead(k));
    ReachStep(s, Serve(k, r));
    s := Step(s, Serve(k, r));
  }

  lemma ReachableInv(s: State)
    requires Reachable(s)
    ensures Inv(s)
  {
    var states, actions :| EndsIn(states, actions, s);
    RunKeepsInv(states, actions, |actions|);
  }
}
