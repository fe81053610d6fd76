/**
 The client-side bookkeeping around the virtual disk: the block resolver
 (sandook/virtual_disk/block_resolver.h), the garbage collector
 (virtual_disk_remote.cc:599-649) and the sharding of multi-sector requests
 (virtual_disk_base.cc:172-229).
 */
module DiskRequests {
  import opened Numbers
  import opened Sequences
  import opened Wrappers
  import opened VirtualDisk

  // ---------------------------------------------------------------- block resolver

  datatype Installed = Installed(addr: nat, mapping: Mapping)

  /** The mapping added last for a sector, by the sequence of AddMapping calls alone. */
  function LastAdded(added: seq<Installed>, addr: nat): Mapping {
    if added == [] then Unmapped
    else
      var last := added[|added| - 1];
      if last.addr == addr then last.mapping else LastAdded(added[..|added| - 1], addr)
  }

  /** A mapping that AddMapping replaces is discarded exactly when it is dirty. */
  function Replaced(m: Mapping): seq<Mapping> {
    if m.Mapped? && m.dirty then [m] else []
  }

  /** Everything a sequence of AddMapping calls discards, in order. */
  function Discards(added: seq<Installed>): seq<Mapping> {
    if added == [] then []
    else
      var before, last := added[..|added| - 1], added[|added| - 1];
      Discards(before) + Replaced(LastAdded(before, last.addr))
  }

  lemma DiscardsPush(added: seq<Installed>, a: Installed)
    ensures Discards(added + [a]) == Discards(added) + Replaced(LastAdded(added, a.addr))
  {
    assert (added + [a])[..|added|] == added;
  }

  /** Each entry is the mapping added last. */
  ghost predicate Maps(entries: seq<Mapping>, added: seq<Installed>) {
    forall addr :: 0 <= addr < |entries| ==> entries[addr] == LastAdded(added, addr)
  }

  lemma MapsPush(entries: seq<Mapping>, added: seq<Installed>, addr: nat, m: Mapping)
    requires Maps(entries, added) && addr < |entries|
    ensures Maps(entries[addr := m], added + [Installed(addr, m)])
  {
    assert (added + [Installed(addr, m)])[..|added|] == added;
  }

  /** `Unmapped` stands for an entry whose first server is kInvalidServerID. */
  class BlockResolver {
    const blkMap: array<Mapping>
    var discardList: seq<Mapping>
    /** Every mapping ever added; every one discarded, and how many of those the collector took. */
    ghost var added: seq<Installed>
    ghost var discarded: seq<Mapping>
    ghost var taken: nat

    ghost predicate Valid()
      reads this, blkMap
    {
      Consistent() && discarded == Discards(added)
    }

    ghost predicate Consistent()
      reads this, blkMap
    {
      && taken <= |discarded| && discardList == discarded[taken..]
      && (forall i :: 0 <= i < |discarded| ==> discarded[i].Mapped?)
      && Maps(blkMap[..], added)
    }

    constructor (nsectors: nat)
      ensures Valid() && fresh(blkMap) && blkMap.Length == nsectors && added == [] && discarded == [] && taken == 0
    {
      blkMap := new Mapping[nsectors](_ => Unmapped);
      discardList, added, discarded, taken := [], [], [], 0;
    }

    /** Exactly the dirty mapping that is replaced goes to the discard list. */
    method AddMapping(addr: nat, m: Mapping)
      requires Valid() && addr < blkMap.Length
      modifies this`discardList, this`added, this`discarded, blkMap
      ensures Valid() && added == old(added) + [Installed(addr, m)]
      ensures discarded == old(discarded) + Replaced(LastAdded(old(added), addr))
      ensures discardList == old(discardList) + Replaced(LastAdded(old(added), addr))
    {
      DiscardExistingBlocks(addr);
      MapsPush(blkMap[..], added, addr, m);
      DiscardsPush(added, Installed(addr, m));
      blkMap[addr] := m;
      added := added + [Installed(addr, m)];
      assert blkMap[..] == old(blkMap[..])[addr := m];
    }

    method DiscardExistingBlocks(addr: nat)
      requires Valid() && addr < blkMap.Length
      modifies this`discardList, this`discarded
      ensures Consistent()
      ensures discarded == old(discarded) + Replaced(LastAdded(added, addr))
      ensures discardList == old(discardList) + Replaced(LastAdded(added, addr))
    {
      var blocks := blkMap[addr];
      if blocks.Mapped? && blocks.dirty {
        discardList := discardList + [blocks];
        discarded := discarded + [blocks];
      }
    }

    /** The mapping added last for the sector; ENOENT exactly when none was. */
    method ResolveBlock(addr: nat) returns (r: Status<Mapping>)
      requires Valid() && addr < blkMap.Length
      ensures r.Ok? ==> r.value.Mapped? && r.value == LastAdded(added, addr)
      ensures r.Err? ==> r.code == ENOENT && LastAdded(added, addr).Unmapped?
    {
      var blocks := blkMap[addr];
      if blocks.Unmapped? {
        return Err(ENOENT);
      }
      return Ok(blocks);
    }

    /** Successive calls return consecutive slices of everything discarded: each mapping exactly once. */
    method GetAndResetDiscardedBlocks() returns (r: Status<seq<Mapping>>)
      requires Valid()
      modifies this`discardList, this`taken
      ensures Valid() && taken == |discarded|
      ensures r == if old(taken) == |discarded| then Err(ENOENT) else Ok(discarded[old(taken)..taken])
    {
      if discardList == [] {
        return Err(ENOENT);
      }
      r := Ok(discardList);
      assert discarded[taken..] == discarded[taken..|discarded|];
      discardList := [];
      taken := |discarded|;
    }
  }

  // ---------------------------------------------------------------- garbage collection

  /** kDiscardBatch. */
  const DISCARD_BATCH: nat := 2048

  datatype DiscardMsg = DiscardMsg(server: nat, addrs: seq<nat>)

  /** The pieces f picks from the elements of s, in order. */
  function Gather<T>(s: seq<T>, f: T -> seq<nat>): seq<nat> {
    if s == [] then [] else Gather(s[..|s| - 1], f) + f(s[|s| - 1])
  }

  lemma GatherPush<T>(s: seq<T>, x: T, f: T -> seq<nat>)
    ensures Gather(s + [x], f) == Gather(s, f) + f(x)
  {
    assert (s + [x])[..|s|] == s;
  }

  lemma {:induction false} GatherConcat<T>(a: seq<T>, b: seq<T>, f: T -> seq<nat>)
    ensures Gather(a + b, f) == Gather(a, f) + Gather(b, f)
    decreases |b|
  {
    if b == [] {
      assert a + b == a;
    } else {
      var l := |b| - 1;
      GatherConcat(a, b[..l], f);
      GatherPush(a + b[..l], b[l], f);
      assert a + b[..l] + [b[l]] == a + b;
    }
  }

  function AddrOn(b: Block, server: nat): seq<nat> {
    if b.server == server then [b.addr] else []
  }

  /** The addresses of a mapping's replicas that live on `server`. */
  function Addrs(m: Mapping, server: nat): seq<nat> {
    if m.Mapped? then AddrOn(m.b0, server) + AddrOn(m.b1, server) else []
  }

  /** Addresses of all discarded replicas that live on `server`, in discard order. */
  function AddrsOn(ms: seq<Mapping>, server: nat): seq<nat> {
    if ms == [] then [] else AddrsOn(ms[..|ms| - 1], server) + Addrs(ms[|ms| - 1], server)
  }

  function Part(m: DiscardMsg, server: nat): seq<nat> {
    if m.server == server then m.addrs else []
  }

  /** What a server receives, message after message. */
  function SentTo(msgs: seq<DiscardMsg>, server: nat): seq<nat> {
    if msgs == [] then [] else SentTo(msgs[..|msgs| - 1], server) + Part(msgs[|msgs| - 1], server)
  }

  lemma SentToPush(msgs: seq<DiscardMsg>, m: DiscardMsg, server: nat)
    ensures SentTo(msgs + [m], server) == SentTo(msgs, server) + Part(m, server)
  {
    assert (msgs + [m])[..|msgs|] == msgs;
  }

  lemma {:induction false} AddrsOnGathers(ms: seq<Mapping>, server: nat)
    ensures AddrsOn(ms, server) == Gather(ms, (m: Mapping) => Addrs(m, server))
  {
    if ms != [] {
      AddrsOnGathers(ms[..|ms| - 1], server);
    }
  }

  lemma {:induction false} SentToGathers(msgs: seq<DiscardMsg>, server: nat)
    ensures SentTo(msgs, server) == Gather(msgs, (m: DiscardMsg) => Part(m, server))
  {
    if msgs != [] {
      SentToGathers(msgs[..|msgs| - 1], server);
    }
  }

  lemma AddrsOnConcat(a: seq<Mapping>, b: seq<Mapping>, server: nat)
    ensures AddrsOn(a + b, server) == AddrsOn(a, server) + AddrsOn(b, server)
  {
    AddrsOnGathers(a, server);
    AddrsOnGathers(b, server);
    AddrsOnGathers(a + b, server);
    GatherConcat(a, b, (m: Mapping) => Addrs(m, server));
  }

  lemma SentToConcat(a: seq<DiscardMsg>, b: seq<DiscardMsg>, server: nat)
    ensures SentTo(a + b, server) == SentTo(a, server) + SentTo(b, server)
  {
    SentToGathers(a, server);
    SentToGathers(b, server);
    SentToGathers(a + b, server);
    GatherConcat(a, b, (m: DiscardMsg) => Part(m, server));
  }

  ghost predicate AllMapped(ms: seq<Mapping>) {
    forall i :: 0 <= i < |ms| ==> ms[i].Mapped?
  }

  ghost predicate NoRepeat(s: seq<nat>) {
    forall i, j :: 0 <= i < j < |s| ==> s[i] != s[j]
  }

  lemma {:induction false} SubsequenceNoRepeat(x: seq<nat>, y: seq<nat>)
    requires Subsequence(x, y) && NoRepeat(y)
    ensures NoRepeat(x)
  {
    if y != [] {
      var l := |y| - 1;
      if Subsequence(x, y[..l]) {
        SubsequenceNoRepeat(x, y[..l]);
      } else {
        SubsequenceNoRepeat(x[..|x| - 1], y[..l]);
        SubsequenceFacts(x[..|x| - 1], y[..l]);
        assert y[l] !in y[..l];
        NoRepeatConcat(x[..|x| - 1], [y[l]]);
        assert x == x[..|x| - 1] + [y[l]];
      }
    }
  }

  /** All replicas of all mappings are different blocks. */
  ghost predicate DistinctBlocks(ms: seq<Mapping>) {
    && AllMapped(ms)
    && (forall i, j :: 0 <= i < |ms| && 0 <= j < |ms| ==> ms[i].b0 != ms[j].b1)
    && (forall i, j :: 0 <= i < j < |ms| ==> ms[i].b0 != ms[j].b0 && ms[i].b1 != ms[j].b1)
  }

  lemma AddrsIn(m: Mapping, server: nat, a: nat)
    requires m.Mapped?
    ensures a in Addrs(m, server) <==> Block(server, a) == m.b0 || Block(server, a) == m.b1
  {
  }

  ghost predicate HasBlock(ms: seq<Mapping>, b: Block) {
    exists i :: 0 <= i < |ms| && ms[i].Mapped? && (ms[i].b0 == b || ms[i].b1 == b)
  }

  lemma {:induction false} AddrsOnFrom(ms: seq<Mapping>, server: nat, a: nat)
    requires AllMapped(ms) && a in AddrsOn(ms, server)
    ensures HasBlock(ms, Block(server, a))
  {
    var n := |ms| - 1;
    AddrsIn(ms[n], server, a);
    if a in AddrsOn(ms[..n], server) {
      AddrsOnFrom(ms[..n], server, a);
      var i :| 0 <= i < n && ms[..n][i].Mapped? && (ms[..n][i].b0 == Block(server, a) || ms[..n][i].b1 == Block(server, a));
      assert ms[i] == ms[..n][i];
    }
  }

  lemma NoRepeatConcat(a: seq<nat>, b: seq<nat>)
    requires NoRepeat(a) && NoRepeat(b) && forall x :: x in b ==> x !in a
    ensures NoRepeat(a + b)
  {
    var s := a + b;
    forall i, j | 0 <= i < j < |s| ensures s[i] != s[j] {
      if j >= |a| && i < |a| {
        assert s[j] in b && s[i] in a;
      }
    }
  }

  /** Mappings that are discarded once are trimmed once: no address is sent twice to a server. */
  lemma {:induction false} NoAddressTwice(ms: seq<Mapping>, server: nat)
    requires DistinctBlocks(ms)
    ensures NoRepeat(AddrsOn(ms, server))
  {
    if ms != [] {
      var n := |ms| - 1;
      DistinctPrefix(ms);
      NoAddressTwice(ms[..n], server);
      forall a | a in AddrsOn(ms[..n], server) ensures a !in Addrs(ms[n], server) {
        LastIsNew(ms, server, a);
      }
      OwnAddrs(ms[n], server);
      NoRepeatConcat(AddrsOn(ms[..n], server), Addrs(ms[n], server));
    }
  }

  lemma DistinctPrefix(ms: seq<Mapping>)
    requires DistinctBlocks(ms) && ms != []
    ensures DistinctBlocks(ms[..|ms| - 1]) && ms[|ms| - 1].Mapped? && ms[|ms| - 1].b0 != ms[|ms| - 1].b1
  {
  }

  lemma OwnAddrs(m: Mapping, server: nat)
    requires m.Mapped? && m.b0 != m.b1
    ensures NoRepeat(Addrs(m, server))
  {
  }

  lemma LastIsNew(ms: seq<Mapping>, server: nat, a: nat)
    requires DistinctBlocks(ms) && ms != [] && a in AddrsOn(ms[..|ms| - 1], server)
    ensures a !in Addrs(ms[|ms| - 1], server)
  {
    var n := |ms| - 1;
    AddrsOnFrom(ms[..n], server, a);
    var i :| 0 <= i < n && ms[..n][i].Mapped? && (ms[..n][i].b0 == Block(server, a) || ms[..n][i].b1 == Block(server, a));
    assert ms[i] == ms[..n][i];
    AddrsIn(ms[n], server, a);
  }

  function Lookup(m: map<nat, seq<nat>>, server: nat): seq<nat> {
    if server in m then m[server] else []
  }

  function Grouped(groups: map<nat, seq<nat>>, b: Block): map<nat, seq<nat>> {
    groups[b.server := Lookup(groups, b.server) + [b.addr]]
  }

  lemma Assoc(a: seq<nat>, b: seq<nat>, c: seq<nat>)
    ensures a + b + c == a + (b + c)
  {
  }

  lemma GroupBoth(groups: map<nat, seq<nat>>, m: Mapping, server: nat)
    requires m.Mapped?
    ensures Lookup(Grouped(Grouped(groups, m.b0), m.b1), server) == Lookup(groups, server) + Addrs(m, server)
  {
    GroupAdd(groups, m.b0, server);
    GroupAdd(Grouped(groups, m.b0), m.b1, server);
    Assoc(Lookup(groups, server), AddrOn(m.b0, server), AddrOn(m.b1, server));
  }

  lemma GroupAdd(groups: map<nat, seq<nat>>, b: Block, server: nat)
    ensures Lookup(Grouped(groups, b), server) == Lookup(groups, server) + AddrOn(b, server)
  {
  }

  /** Groups the discarded blocks by server (lines 609-615). */
  method GroupByServer(ms: seq<Mapping>) returns (groups: map<nat, seq<nat>>)
    requires AllMapped(ms)
    ensures forall server :: Lookup(groups, server) == AddrsOn(ms, server)
    ensures forall server :: server in groups ==> groups[server] != []
  {
    groups := map[];
    for i := 0 to |ms|
      invariant forall server :: Lookup(groups, server) == AddrsOn(ms[..i], server)
      invariant forall server :: server in groups ==> groups[server] != []
    {
      var g2 := Grouped(Grouped(groups, ms[i].b0), ms[i].b1);
      forall server ensures Lookup(g2, server) == AddrsOn(ms[..i + 1], server) {
        assert ms[..i + 1][..i] == ms[..i];
        GroupBoth(groups, ms[i], server);
      }
      groups := g2;
    }
    assert ms[..|ms|] == ms;
  }

  ghost predicate SmallBatches(msgs: seq<DiscardMsg>) {
    forall i :: 0 <= i < |msgs| ==> 0 < |msgs[i].addrs| <= DISCARD_BATCH
  }

  /** Beyond before, msgs delivers addrs to server and nothing to the others. */
  ghost predicate Delivers(before: seq<DiscardMsg>, msgs: seq<DiscardMsg>, server: nat, addrs: seq<nat>) {
    forall s :: SentTo(msgs, s) == SentTo(before, s) + Part(DiscardMsg(server, addrs), s)
  }

  lemma DeliverMore(before: seq<DiscardMsg>, msgs: seq<DiscardMsg>, server: nat, addrs: seq<nat>, more: seq<nat>)
    requires Delivers(before, msgs, server, addrs)
    ensures Delivers(before, msgs + [DiscardMsg(server, more)], server, addrs + more)
  {
    var m := DiscardMsg(server, more);
    forall s ensures SentTo(msgs + [m], s) == SentTo(before, s) + Part(DiscardMsg(server, addrs + more), s) {
      SentToPush(msgs, m, s);
      Assoc(SentTo(before, s), Part(DiscardMsg(server, addrs), s), Part(m, s));
    }
  }

  /** Sends one server's addresses in batches (lines 626-645). */
  method SendBatches(server: nat, blks: seq<nat>, before: seq<DiscardMsg>) returns (msgs: seq<DiscardMsg>)
    requires SmallBatches(before)
    ensures SmallBatches(msgs) && Delivers(before, msgs, server, blks)
  {
    msgs := before;
    var remaining, pos := |blks|, 0;
    while remaining > 0
      invariant remaining >= 0 && pos >= 0 && pos + remaining == |blks| && SmallBatches(msgs)
      invariant Delivers(before, msgs, server, blks[..pos])
    {
      var n := Min(remaining, DISCARD_BATCH);
      DeliverMore(before, msgs, server, blks[..pos], blks[pos..pos + n]);
      assert blks[..pos] + blks[pos..pos + n] == blks[..pos + n];
      msgs := msgs + [DiscardMsg(server, blks[pos..pos + n])];
      remaining := remaining - n;
      pos := pos + n;
    }
    assert blks[..pos] == blks;
  }

  /** Every server receives its addresses, once and in order. */
  ghost predicate SentAll(msgs: seq<DiscardMsg>, ms: seq<Mapping>) {
    forall server :: SentTo(msgs, server) == AddrsOn(ms, server)
  }

  /** Every server receives all of its addresses or none. */
  ghost predicate AllOrNothing(msgs: seq<DiscardMsg>, ms: seq<Mapping>) {
    forall server :: SentTo(msgs, server) == AddrsOn(ms, server) || SentTo(msgs, server) == []
  }

  /** There is an RPC client for every server with a discarded block. */
  ghost predicate Reached(ms: seq<Mapping>, clients: set<nat>) {
    forall server :: AddrsOn(ms, server) != [] ==> server in clients
  }

  /** The servers are visited in arbitrary order, and the loop gives up at the first one without a
      client (lines 619-624): everything is sent if and only if every server has one. */
  method SendAll(ms: seq<Mapping>, clients: set<nat>) returns (msgs: seq<DiscardMsg>)
    requires AllMapped(ms)
    ensures SmallBatches(msgs) && AllOrNothing(msgs, ms)
    ensures SentAll(msgs, ms) <==> Reached(ms, clients)
  {
    msgs := [];
    var groups := GroupByServer(ms);
    var todo := groups.Keys;
    SentNothing(ms, groups);
    while todo != {}
      invariant todo <= groups.Keys && SmallBatches(msgs) && SentExcept(msgs, ms, todo)
      invariant forall server :: server in groups.Keys - todo ==> server in clients
      decreases todo
    {
      var server :| server in todo;
      assert Lookup(groups, server) == AddrsOn(ms, server);
      if server !in clients {
        assert SentTo(msgs, server) == [] != AddrsOn(ms, server);
        return;
      }
      ghost var before := msgs;
      msgs := SendBatches(server, groups[server], msgs);
      SentOneMore(before, msgs, ms, todo, server);
      todo := todo - {server};
    }
    forall server | AddrsOn(ms, server) != [] ensures server in clients {
      assert Lookup(groups, server) == AddrsOn(ms, server);
    }
  }

  /** Every server but those in `todo` has received its addresses. */
  ghost predicate SentExcept(msgs: seq<DiscardMsg>, ms: seq<Mapping>, todo: set<nat>) {
    forall server :: SentTo(msgs, server) == if server in todo then [] else AddrsOn(ms, server)
  }

  lemma SentNothing(ms: seq<Mapping>, groups: map<nat, seq<nat>>)
    requires forall server :: Lookup(groups, server) == AddrsOn(ms, server)
    ensures SentExcept([], ms, groups.Keys)
  {
    forall server ensures SentTo([], server) == if server in groups.Keys then [] else AddrsOn(ms, server) {
      assert Lookup(groups, server) == AddrsOn(ms, server);
    }
  }

  lemma SentOneMore(before: seq<DiscardMsg>, msgs: seq<DiscardMsg>, ms: seq<Mapping>, todo: set<nat>, server: nat)
    requires SentExcept(before, ms, todo) && server in todo && Delivers(before, msgs, server, AddrsOn(ms, server))
    ensures SentExcept(msgs, ms, todo - {server})
  {
    forall s ensures SentTo(msgs, s) == if s in todo - {server} then [] else AddrsOn(ms, s) {
      SentOne(before, msgs, ms, todo, server, s);
    }
  }

  lemma SentOne(before: seq<DiscardMsg>, msgs: seq<DiscardMsg>, ms: seq<Mapping>, todo: set<nat>, server: nat, s: nat)
    requires server in todo && SentTo(before, s) == (if s in todo then [] else AddrsOn(ms, s))
    requires SentTo(msgs, s) == SentTo(before, s) + Part(DiscardMsg(server, AddrsOn(ms, server)), s)
    ensures SentTo(msgs, s) == if s in todo - {server} then [] else AddrsOn(ms, s)
  {
  }

  /** What was sent to each server so far is everything the collector took, once and in order. */
  ghost predicate Collected(discarded: seq<Mapping>, taken: nat, sent: seq<DiscardMsg>)
    requires taken <= |discarded|
  {
    SentAll(sent, discarded[..taken])
  }

  /** Whatever clients were missing, each server received a part of that, in order and without repeats. */
  ghost predicate SentOnce(discarded: seq<Mapping>, taken: nat, sent: seq<DiscardMsg>)
    requires taken <= |discarded|
  {
    SmallBatches(sent) && forall server :: Subsequence(SentTo(sent, server), AddrsOn(discarded[..taken], server))
  }

  lemma SentNothingOnce(discarded: seq<Mapping>)
    ensures SentOnce(discarded, 0, []) && Collected(discarded, 0, [])
  {
  }

  /** More discards change nothing about what was taken. */
  lemma DiscardMore(discarded: seq<Mapping>, more: seq<Mapping>, taken: nat, sent: seq<DiscardMsg>)
    requires taken <= |discarded| && SentOnce(discarded, taken, sent)
    ensures SentOnce(discarded + more, taken, sent)
    ensures Collected(discarded + more, taken, sent) <==> Collected(discarded, taken, sent)
  {
    assert (discarded + more)[..taken] == discarded[..taken];
  }

  /** One server's part of a round: all of it, or nothing. */
  lemma CollectServer(a: seq<Mapping>, b: seq<Mapping>, sent: seq<DiscardMsg>, msgs: seq<DiscardMsg>, server: nat)
    requires Subsequence(SentTo(sent, server), AddrsOn(a, server))
    requires SentTo(msgs, server) == AddrsOn(b, server) || SentTo(msgs, server) == []
    ensures Subsequence(SentTo(sent + msgs, server), AddrsOn(a + b, server))
    ensures SentTo(sent + msgs, server) == AddrsOn(a + b, server)
      <==> SentTo(sent, server) == AddrsOn(a, server) && SentTo(msgs, server) == AddrsOn(b, server)
  {
    SentToConcat(sent, msgs, server);
    AddrsOnConcat(a, b, server);
    CancelPart(SentTo(sent, server), SentTo(msgs, server), AddrsOn(a, server), AddrsOn(b, server));
  }

  lemma CancelPart(x: seq<nat>, y: seq<nat>, a: seq<nat>, p: seq<nat>)
    requires Subsequence(x, a) && (y == p || y == [])
    ensures Subsequence(x + y, a + p)
    ensures x + y == a + p <==> x == a && y == p
  {
    SubsequenceSelf(p);
    SubsequenceConcat(x, a, y, p);
    SubsequenceFacts(x, a);
    if x + y == a + p {
      assert |x + y| == |a + p|;
      assert x == (x + y)[..|x|] && a == (a + p)[..|a|];
    }
  }

  lemma CollectMore(discarded: seq<Mapping>, taken: nat, taken': nat, sent: seq<DiscardMsg>, msgs: seq<DiscardMsg>)
    requires taken <= taken' <= |discarded| && SentOnce(discarded, taken, sent)
    requires SmallBatches(msgs) && AllOrNothing(msgs, discarded[taken..taken'])
    ensures SentOnce(discarded, taken', sent + msgs)
    ensures Collected(discarded, taken', sent + msgs)
      <==> Collected(discarded, taken, sent) && SentAll(msgs, discarded[taken..taken'])
  {
    var a, b := discarded[..taken], discarded[taken..taken'];
    assert a + b == discarded[..taken'];
    forall server
      ensures Subsequence(SentTo(sent + msgs, server), AddrsOn(a + b, server))
      ensures SentTo(sent + msgs, server) == AddrsOn(a + b, server)
        <==> SentTo(sent, server) == AddrsOn(a, server) && SentTo(msgs, server) == AddrsOn(b, server)
    {
      CollectServer(a, b, sent, msgs, server);
    }
  }

  /** One round (lines 599-649): nothing is sent twice, and nothing is left out if and only if every
      server with a block on the discard list has a client. */
  method RunGarbageCollector(res: BlockResolver, clients: set<nat>, sent: seq<DiscardMsg>) returns (sent': seq<DiscardMsg>)
    requires res.Valid() && SentOnce(res.discarded, res.taken, sent)
    modifies res`discardList, res`taken
    ensures res.Valid() && res.taken == |res.discarded| && sent <= sent' && SentOnce(res.discarded, res.taken, sent')
    ensures Collected(res.discarded, res.taken, sent')
      <==> old(Collected(res.discarded, res.taken, sent)) && Reached(old(res.discardList), clients)
  {
    ghost var before := res.taken;
    assert res.discardList == res.discarded[before..|res.discarded|];
    var blks := res.GetAndResetDiscardedBlocks();
    if blks.Err? {
      return sent;
    }
    var msgs := SendAll(blks.value, clients);
    CollectMore(res.discarded, before, res.taken, sent, msgs);
    sent' := sent + msgs;
  }

  /** A volume's resolver as its threads use it: mappings are added, and now and then a round runs,
      with the clients there are at the time. */
  datatype ResolverOp = Add(addr: nat, m: Mapping) | Collect(clients: set<nat>)

  function AddsIn(ops: seq<ResolverOp>): seq<Installed> {
    if ops == [] then []
    else
      var last := ops[|ops| - 1];
      AddsIn(ops[..|ops| - 1]) + (if last.Add? then [Installed(last.addr, last.m)] else [])
  }

  /** What the discard list holds after these operations. */
  function Due(added: seq<Installed>, ops: seq<ResolverOp>): seq<Mapping> {
    if ops == [] then Discards(added)
    else
      var before := ops[..|ops| - 1];
      match ops[|ops| - 1]
      case Add(addr, m) => Due(added, before) + Replaced(LastAdded(added + AddsIn(before), addr))
      case Collect(_) => []
  }

  /** In every round each server with a block on the discard list had a client. */
  ghost predicate AlwaysReached(added: seq<Installed>, ops: seq<ResolverOp>) {
    if ops == [] then true
    else
      var before, last := ops[..|ops| - 1], ops[|ops| - 1];
      AlwaysReached(added, before) && (last.Collect? ==> Reached(Due(added, before), last.clients))
  }

  /** Where the collector is after these operations on a resolver that started with `added`. */
  ghost predicate Progress(added: seq<Installed>, ops: seq<ResolverOp>, discarded: seq<Mapping>, taken: nat,
                           discardList: seq<Mapping>, sent: seq<DiscardMsg>) {
    && taken <= |discarded| && Discards(added) <= discarded
    && discardList == Due(added, ops) && SentOnce(discarded, taken, sent)
    && (Collected(discarded, taken, sent) <==> AlwaysReached(added, ops))
    && (ops != [] && ops[|ops| - 1].Collect? ==> taken == |discarded|)
  }

  lemma ProgressStarts(added: seq<Installed>)
    ensures Progress(added, [], Discards(added), 0, Discards(added), [])
  {
    SentNothingOnce(Discards(added));
  }

  lemma ProgressAdds(added: seq<Installed>, ops: seq<ResolverOp>, discarded: seq<Mapping>, taken: nat,
                     discardList: seq<Mapping>, sent: seq<DiscardMsg>, addr: nat, m: Mapping)
    requires Progress(added, ops, discarded, taken, discardList, sent)
    ensures
      var more := Replaced(LastAdded(added + AddsIn(ops), addr));
      Progress(added, ops + [Add(addr, m)], discarded + more, taken, discardList + more, sent)
  {
    assert (ops + [Add(addr, m)])[..|ops|] == ops;
    DiscardMore(discarded, Replaced(LastAdded(added + AddsIn(ops), addr)), taken, sent);
  }

  lemma ProgressCollects(added: seq<Installed>, ops: seq<ResolverOp>, discarded: seq<Mapping>, taken: nat,
                         discardList: seq<Mapping>, sent: seq<DiscardMsg>, clients: set<nat>, sent': seq<DiscardMsg>)
    requires Progress(added, ops, discarded, taken, discardList, sent) && SentOnce(discarded, |discarded|, sent')
    requires Collected(discarded, |discarded|, sent') <==> Collected(discarded, taken, sent) && Reached(discardList, clients)
    ensures Progress(added, ops + [ResolverOp.Collect(clients)], discarded, |discarded|, [], sent')
  {
    assert (ops + [ResolverOp.Collect(clients)])[..|ops|] == ops;
  }

  lemma AddsInPush(added: seq<Installed>, ops: seq<ResolverOp>, op: ResolverOp)
    ensures added + AddsIn(ops + [op]) == if op.Add? then added + AddsIn(ops) + [Installed(op.addr, op.m)] else added + AddsIn(ops)
  {
    assert (ops + [op])[..|ops|] == ops;
  }

  method PerformAdd(res: BlockResolver, addr: nat, m: Mapping, ghost sent: seq<DiscardMsg>,
                    ghost added: seq<Installed>, ghost ops: seq<ResolverOp>)
    requires res.Valid() && res.added == added + AddsIn(ops) && addr < res.blkMap.Length
    requires Progress(added, ops, res.discarded, res.taken, res.discardList, sent)
    modifies res`discardList, res`added, res`discarded, res.blkMap
    ensures res.Valid() && res.added == added + AddsIn(ops) + [Installed(addr, m)]
    ensures Progress(added, ops + [Add(addr, m)], res.discarded, res.taken, res.discardList, sent)
  {
    ProgressAdds(added, ops, res.discarded, res.taken, res.discardList, sent, addr, m);
    res.AddMapping(addr, m);
  }

  method PerformCollect(res: BlockResolver, clients: set<nat>, sent: seq<DiscardMsg>,
                        ghost added: seq<Installed>, ghost ops: seq<ResolverOp>)
    returns (sent': seq<DiscardMsg>)
    requires res.Valid() && Progress(added, ops, res.discarded, res.taken, res.discardList, sent)
    modifies res`discardList, res`taken
    ensures res.Valid()
    ensures Progress(added, ops + [ResolverOp.Collect(clients)], res.discarded, res.taken, res.discardList, sent')
  {
    ghost var taken, list := res.taken, res.discardList;
    sent' := RunGarbageCollector(res, clients, sent);
    ProgressCollects(added, ops, res.discarded, taken, list, sent, clients, sent');
  }

  method PerformOp(res: BlockResolver, op: ResolverOp, sent: seq<DiscardMsg>,
                   ghost added: seq<Installed>, ghost ops: seq<ResolverOp>)
    returns (sent': seq<DiscardMsg>)
    requires res.Valid() && res.added == added + AddsIn(ops) && (op.Add? ==> op.addr < res.blkMap.Length)
    requires Progress(added, ops, res.discarded, res.taken, res.discardList, sent)
    modifies res`discardList, res`added, res`discarded, res`taken, res.blkMap
    ensures res.Valid() && res.added == added + AddsIn(ops + [op])
    ensures Progress(added, ops + [op], res.discarded, res.taken, res.discardList, sent')
  {
    AddsInPush(added, ops, op);
    match op
    case Add(addr, m) =>
      PerformAdd(res, addr, m, sent, added, ops);
      sent' := sent;
    case Collect(clients) =>
      sent' := PerformCollect(res, clients, sent, added, ops);
  }

  /** Over any number of rounds, in between any additions, no discarded block is sent twice; each is sent
      exactly once, in batches of at most 2048, if and only if no round lacked a client it needed. */
  method RunResolver(res: BlockResolver, ops: seq<ResolverOp>) returns (sent: seq<DiscardMsg>)
    requires res.Valid() && res.taken == 0
    requires forall i :: 0 <= i < |ops| && ops[i].Add? ==> ops[i].addr < res.blkMap.Length
    modifies res, res.blkMap
    ensures res.Valid() && res.added == old(res.added) + AddsIn(ops) && old(res.discarded) <= res.discarded
    ensures SentOnce(res.discarded, res.taken, sent)
    ensures Collected(res.discarded, res.taken, sent) <==> AlwaysReached(old(res.added), ops)
    ensures ops != [] && ops[|ops| - 1].Collect? ==> res.taken == |res.discarded|
  {
    sent := PerformAll(res, ops);
  }

  method PerformAll(res: BlockResolver, ops: seq<ResolverOp>) returns (sent: seq<DiscardMsg>)
    requires res.Valid() && res.taken == 0
    requires forall i :: 0 <= i < |ops| && ops[i].Add? ==> ops[i].addr < res.blkMap.Length
    modifies res, res.blkMap
    ensures res.Valid() && res.added == old(res.added) + AddsIn(ops)
    ensures Progress(old(res.added), ops, res.discarded, res.taken, res.discardList, sent)
  {
    if ops == [] {
      ProgressStarts(res.added);
      return [];
    }
    var l := |ops| - 1;
    sent := PerformAll(res, ops[..l]);
    assert ops[..l] + [ops[l]] == ops;
    sent := PerformOp(res, ops[l], sent, old(res.added), ops[..l]);
  }

  // ---------------------------------------------------------------- sharded requests

  const SECTOR_BYTES: nat := 4096
  const MAX_REQUEST_THREADS: nat := 4
  const MAX_WRITE_THREADS: nat := 1

  function Threads(n: nat, isWrite: bool): nat {
    var limit := if isWrite then MAX_WRITE_THREADS else MAX_REQUEST_THREADS;
    if n < limit then n else limit
  }

  function PerThread(n: nat, isWrite: bool): nat {
    var t := Threads(n, isWrite);
    if t == n then 1 else n / t
  }

  /** Thread `tid` handles sectors [ShardStart(tid), ShardStart(tid) + ShardCount(tid)). */
  function ShardStart(n: nat, isWrite: bool, tid: nat): nat {
    tid * PerThread(n, isWrite)
  }

  function ShardCount(n: nat, isWrite: bool, tid: nat): nat
    requires tid < Threads(n, isWrite)
  {
    var t, per := Threads(n, isWrite), PerThread(n, isWrite);
    ShardSums(n, isWrite);
    if tid == t - 1 then per + (n - per * t) else per
  }

  lemma ShardSums(n: nat, isWrite: bool)
    ensures PerThread(n, isWrite) * Threads(n, isWrite) <= n
    ensures n > 0 ==> PerThread(n, isWrite) >= 1 && Threads(n, isWrite) >= 1
  {
    var t := Threads(n, isWrite);
    if t != n {
      assert t == 1 || t == 4;
    }
  }

  /** The shard that owns a sector. */
  function Owner(n: nat, isWrite: bool, off: nat): nat
    requires off < n
  {
    ShardSums(n, isWrite);
    var q := off / PerThread(n, isWrite);
    if q < Threads(n, isWrite) then q else Threads(n, isWrite) - 1
  }

  ghost predicate InShard(n: nat, isWrite: bool, tid: nat, off: nat)
    requires tid < Threads(n, isWrite)
  {
    ShardStart(n, isWrite, tid) <= off < ShardStart(n, isWrite, tid) + ShardCount(n, isWrite, tid)
  }

  /** Every sector of a request belongs to exactly one thread, and threads stay inside the request. */
  lemma ShardsPartition(n: nat, isWrite: bool, tid: nat, off: nat)
    requires tid < Threads(n, isWrite)
    ensures InShard(n, isWrite, tid, off) <==> off < n && tid == Owner(n, isWrite, off)
  {
    ShardSums(n, isWrite);
    var t, per := Threads(n, isWrite), PerThread(n, isWrite);
    if t == n {
      assert per == 1;
    } else {
      assert t == 1 || t == 4;
    }
  }

  datatype SectorRequest = SectorRequest(sector: nat, addr: nat)
  datatype IOResult = Done(res: int) | Failed(code: Errno)

  /** Sector `off` of a request goes to its own buffer offset. */
  function RequestAt(start: nat, addr: nat, off: nat): SectorRequest {
    SectorRequest(start + off, addr + SECTOR_BYTES * off)
  }

  function Value(outcome: nat -> Status<int>, off: nat): int {
    if outcome(off).Ok? then outcome(off).value else 0
  }

  function Total(outcome: nat -> Status<int>, n: nat): int {
    if n == 0 then 0 else Total(outcome, n - 1) + Value(outcome, n - 1)
  }

  /** Sum over the offsets below n that are in done. */
  ghost function Partial(outcome: nat -> Status<int>, done: set<nat>, n: nat): int {
    if n == 0 then 0 else Partial(outcome, done, n - 1) + if n - 1 in done then Value(outcome, n - 1) else 0
  }

  lemma {:induction false} PartialGrows(outcome: nat -> Status<int>, done: set<nat>, off: nat, n: nat)
    requires off !in done
    ensures Partial(outcome, done + {off}, n) == Partial(outcome, done, n) + if off < n then Value(outcome, off) else 0
  {
    if n > 0 {
      PartialGrows(outcome, done, off, n - 1);
    }
  }

  lemma {:induction false} PartialOfNone(outcome: nat -> Status<int>, n: nat)
    ensures Partial(outcome, {}, n) == 0
  {
    if n > 0 {
      PartialOfNone(outcome, n - 1);
    }
  }

  lemma {:induction false} PartialOfAll(outcome: nat -> Status<int>, done: set<nat>, n: nat)
    requires forall off :: 0 <= off < n ==> off in done
    ensures Partial(outcome, done, n) == Total(outcome, n)
  {
    if n > 0 {
      PartialOfAll(outcome, done, n - 1);
    }
  }

  /** Thread tid has processed the first pos[tid] sectors of its shard, and order lists all of those. */
  ghost predicate Sharded(n: nat, isWrite: bool, pos: seq<nat>, order: seq<nat>) {
    && |pos| == Threads(n, isWrite) && NoRepeat(order)
    && (forall tid :: 0 <= tid < |pos| ==> pos[tid] <= ShardCount(n, isWrite, tid))
    && (forall k :: 0 <= k < |order| ==> order[k] < n && Processed(n, isWrite, pos, order[k]))
    && (forall off: nat :: off < n && Processed(n, isWrite, pos, off) ==> off in order)
  }

  ghost predicate Processed(n: nat, isWrite: bool, pos: seq<nat>, off: nat)
    requires |pos| == Threads(n, isWrite) && off < n
  {
    OwnerInRange(n, isWrite, off);
    off < ShardStart(n, isWrite, Owner(n, isWrite, off)) + pos[Owner(n, isWrite, off)]
  }

  lemma OwnerInRange(n: nat, isWrite: bool, off: nat)
    requires off < n
    ensures Owner(n, isWrite, off) < Threads(n, isWrite)
  {
    ShardSums(n, isWrite);
  }

  /** The next sector of any thread is new. */
  lemma ShardAdvances(n: nat, isWrite: bool, pos: seq<nat>, order: seq<nat>, tid: nat)
    requires Sharded(n, isWrite, pos, order) && tid < |pos| && pos[tid] < ShardCount(n, isWrite, tid)
    ensures
      var off := ShardStart(n, isWrite, tid) + pos[tid];
      && off < n && off !in order && Sharded(n, isWrite, pos[tid := pos[tid] + 1], order + [off])
      && 0 <= Remaining(n, isWrite, pos[tid := pos[tid] + 1], |pos|) < Remaining(n, isWrite, pos, |pos|)
  {
    RemainingDrops(n, isWrite, pos, tid, |pos|);
    RemainingNonNegative(n, isWrite, pos[tid := pos[tid] + 1], |pos|);
    var off := ShardStart(n, isWrite, tid) + pos[tid];
    ShardsPartition(n, isWrite, tid, off);
    var pos', order' := pos[tid := pos[tid] + 1], order + [off];
    forall x: nat | x < n ensures Processed(n, isWrite, pos', x) <==> Processed(n, isWrite, pos, x) || x == off {
      OwnerInRange(n, isWrite, x);
      ShardsPartition(n, isWrite, tid, x);
    }
  }

  /** When no thread has anything left, every sector has been processed. */
  lemma ShardsFinish(n: nat, isWrite: bool, pos: seq<nat>, order: seq<nat>)
    requires Sharded(n, isWrite, pos, order) && !Busy(n, isWrite, pos)
    ensures NoRepeat(order) && forall off: nat :: off in order <==> off < n
  {
    forall off: nat | off < n ensures off in order {
      OwnerInRange(n, isWrite, off);
      ShardsPartition(n, isWrite, Owner(n, isWrite, off), off);
    }
  }

  /** Some thread has sectors left. */
  predicate Busy(n: nat, isWrite: bool, pos: seq<nat>)
    requires |pos| == Threads(n, isWrite)
  {
    exists tid :: 0 <= tid < |pos| && pos[tid] < ShardCount(n, isWrite, tid)
  }

  /** The thread the scheduler lets run next. */
  method AnyBusy(n: nat, isWrite: bool, pos: seq<nat>) returns (tid: nat)
    requires |pos| == Threads(n, isWrite) && Busy(n, isWrite, pos)
    ensures tid < |pos| && pos[tid] < ShardCount(n, isWrite, tid)
  {
    tid :| 0 <= tid < |pos| && pos[tid] < ShardCount(n, isWrite, tid);
  }

  ghost function Elements(order: seq<nat>): set<nat> {
    set off | off in order
  }

  /** Sectors the first k threads have left. */
  function Remaining(n: nat, isWrite: bool, pos: seq<nat>, k: nat): int
    requires k <= |pos| == Threads(n, isWrite)
  {
    if k == 0 then 0 else Remaining(n, isWrite, pos, k - 1) + ShardCount(n, isWrite, k - 1) - pos[k - 1]
  }

  lemma {:induction false} RemainingDrops(n: nat, isWrite: bool, pos: seq<nat>, tid: nat, k: nat)
    requires k <= |pos| == Threads(n, isWrite) && tid < |pos|
    ensures Remaining(n, isWrite, pos[tid := pos[tid] + 1], k) == Remaining(n, isWrite, pos, k) - if tid < k then 1 else 0
  {
    if k > 0 {
      RemainingDrops(n, isWrite, pos, tid, k - 1);
    }
  }

  lemma {:induction false} RemainingNonNegative(n: nat, isWrite: bool, pos: seq<nat>, k: nat)
    requires k <= |pos| == Threads(n, isWrite)
    requires forall tid :: 0 <= tid < |pos| ==> pos[tid] <= ShardCount(n, isWrite, tid)
    ensures Remaining(n, isWrite, pos, k) >= 0
  {
    if k > 0 {
      RemainingNonNegative(n, isWrite, pos, k - 1);
    }
  }

  /** Results of the sectors processed so far: the sum, and the error exchanged last. */
  ghost predicate Gathered(outcome: nat -> Status<int>, order: seq<nat>, n: nat, res: int, err: Option<Errno>) {
    && res == Partial(outcome, Elements(order), n)
    && (match err
        case None => forall k :: 0 <= k < |order| ==> outcome(order[k]).Ok?
        case Some(code) => exists k: nat :: LastError(outcome, order, k, code))
  }

  ghost predicate LastError(outcome: nat -> Status<int>, order: seq<nat>, k: nat, code: Errno) {
    k < |order| && outcome(order[k]) == Err(code) && forall l :: k < l < |order| ==> outcome(order[l]).Ok?
  }

  lemma GatherOne(outcome: nat -> Status<int>, order: seq<nat>, n: nat, res: int, err: Option<Errno>, off: nat)
    requires Gathered(outcome, order, n, res, err) && off !in order && off < n
    ensures
      var err' := if outcome(off).Err? then Some(outcome(off).code) else err;
      Gathered(outcome, order + [off], n, res + Value(outcome, off), err')
  {
    PartialGrows(outcome, Elements(order), off, n);
    assert Elements(order + [off]) == Elements(order) + {off};
    if outcome(off).Err? {
      assert LastError(outcome, order + [off], |order|, outcome(off).code);
    } else if err.Some? {
      var k: nat :| LastError(outcome, order, k, err.value);
      assert LastError(outcome, order + [off], k, err.value);
    }
  }

  /** The k-th request is for sector order[k], at its own buffer offset. */
  ghost predicate Traced(trace: seq<SectorRequest>, order: seq<nat>, start: nat, addr: nat) {
    |trace| == |order| && forall k :: 0 <= k < |trace| ==> trace[k] == RequestAt(start, addr, order[k])
  }

  /**
   Runs the shards in any interleaving; `outcome(off)` is what ProcessRequest returned for sector
   `off` and `order` the offsets in the order they were processed.  Each sector is processed exactly
   once at its own buffer offset; the results add up, and the last error fails the request.
   */
  method ProcessShardedRequests(isWrite: bool, n: nat, start: nat, addr: nat, outcome: nat -> Status<int>)
    returns (result: IOResult, trace: seq<SectorRequest>, ghost order: seq<nat>)
    ensures NoRepeat(order) && forall off: nat :: off in order <==> off < n
    ensures Traced(trace, order, start, addr)
    ensures (forall off :: 0 <= off < n ==> outcome(off).Ok?) ==> result == Done(Total(outcome, n))
    ensures result.Failed? <==> exists off :: 0 <= off < n && outcome(off).Err?
    ensures result.Failed? ==> exists k: nat :: LastError(outcome, order, k, result.code)
  {
    trace, order := [], [];
    var res, err: Option<Errno> := 0, None;
    var pos: seq<nat> := seq(Threads(n, isWrite), _ => 0);
    StartShards(n, isWrite, pos);
    PartialOfNone(outcome, n);
    assert Elements(order) == {};
    while Busy(n, isWrite, pos)
      invariant Sharded(n, isWrite, pos, order) && Gathered(outcome, order, n, res, err)
      invariant Traced(trace, order, start, addr)
      decreases Remaining(n, isWrite, pos, |pos|)
    {
      var off;
      var tid := AnyBusy(n, isWrite, pos);
      pos, off := TakeSector(isWrite, n, pos, tid, order);
      res, err := Account(outcome, n, off, res, err, order);
      trace, order := trace + [RequestAt(start, addr, off)], order + [off];
    }
    ShardsFinish(n, isWrite, pos, order);
    GatheredAll(outcome, order, n, res, err);
    result := if err.Some? then Failed(err.value) else Done(res);
  }

  /** Thread tid takes the next sector of its shard (lines 198-203). */
  method TakeSector(isWrite: bool, n: nat, pos: seq<nat>, tid: nat, ghost order: seq<nat>)
    returns (pos': seq<nat>, off: nat)
    requires Sharded(n, isWrite, pos, order) && tid < |pos| && pos[tid] < ShardCount(n, isWrite, tid)
    ensures Sharded(n, isWrite, pos', order + [off]) && off < n && off !in order
    ensures |pos'| == |pos| && 0 <= Remaining(n, isWrite, pos', |pos|) < Remaining(n, isWrite, pos, |pos|)
  {
    off, pos' := ShardStart(n, isWrite, tid) + pos[tid], pos[tid := pos[tid] + 1];
    ShardAdvances(n, isWrite, pos, order, tid);
  }

  /** The result of a sector joins the shared total, or replaces the error (lines 205-212). */
  method Account(outcome: nat -> Status<int>, n: nat, off: nat, res: int, err: Option<Errno>, ghost order: seq<nat>)
    returns (res': int, err': Option<Errno>)
    requires Gathered(outcome, order, n, res, err) && off !in order && off < n
    ensures Gathered(outcome, order + [off], n, res', err')
  {
    GatherOne(outcome, order, n, res, err, off);
    match outcome(off) {
      case Err(code) => res', err' := res, Some(code);
      case Ok(v) => res', err' := res + v, err;
    }
  }

  lemma GatheredAll(outcome: nat -> Status<int>, order: seq<nat>, n: nat, res: int, err: Option<Errno>)
    requires Gathered(outcome, order, n, res, err) && forall off: nat :: off in order <==> off < n
    ensures res == Total(outcome, n)
    ensures err.Some? <==> exists off :: 0 <= off < n && outcome(off).Err?
  {
    PartialOfAll(outcome, Elements(order), n);
    if err.Some? {
      var k: nat :| LastError(outcome, order, k, err.value);
      assert order[k] in order;
    } else {
      forall off | 0 <= off < n ensures outcome(off).Ok? {
        assert off in order;
      }
    }
  }

  lemma StartShards(n: nat, isWrite: bool, pos: seq<nat>)
    requires |pos| == Threads(n, isWrite) && forall tid :: 0 <= tid < |pos| ==> pos[tid] == 0
    ensures Sharded(n, isWrite, pos, [])
  {
    forall off: nat | off < n ensures !Processed(n, isWrite, pos, off) {
      OwnerInRange(n, isWrite, off);
      ShardsPartition(n, isWrite, Owner(n, isWrite, off), off);
    }
  }
}
