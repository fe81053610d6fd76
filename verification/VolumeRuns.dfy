/**
 The block resolvers and garbage collectors of all volumes beside the running disk:
 the objects of `DiskRequests` follow the state machine of `VirtualDisk`.
 */
module VolumeRuns {
  import opened DiskRequests
  import opened Sequences
  import opened VirtualDisk

  /** The AddMapping call of a step on the resolver of volume `vol`, if any. */
  function AddOf(a: Action, vol: nat): seq<Installed> {
    match a
    case BeginWrite(k, _, b0, b1) => if k.vol == vol then [Installed(k.lba, Mapped(b0, b1, true))] else []
    case Retry(k, _, _, b0, b1) => if k.vol == vol then [Installed(k.lba, Mapped(b0, b1, true))] else []
    case Allocate(k, b0, b1) => if k.vol == vol then [Installed(k.lba, Mapped(b0, b1, false))] else []
    case _ => []
  }

  function Adds(actions: seq<Action>, vol: nat): seq<Installed> {
    if actions == [] then [] else Adds(actions[..|actions| - 1], vol) + AddOf(actions[|actions| - 1], vol)
  }

  lemma AddsNext(actions: seq<Action>, i: nat, vol: nat)
    requires i < |actions|
    ensures Adds(actions[..i + 1], vol) == Adds(actions[..i], vol) + AddOf(actions[i], vol)
  {
    assert actions[..i + 1][..i] == actions[..i];
  }

  lemma AddTracks(s: State, a: Action, added: seq<Installed>, vol: nat, lba: nat)
    requires Enabled(s, a) && s.mapping(Key(vol, lba)) == LastAdded(added, lba)
    ensures Step(s, a).mapping(Key(vol, lba)) == LastAdded(added + AddOf(a, vol), lba)
  {
    if AddOf(a, vol) == [] {
      assert added + [] == added;
    } else {
      assert (added + AddOf(a, vol))[..|added|] == added;
    }
  }

  /** The resolver object refines the disk: in every reachable state the mapping of a sector is the one
      added last by the AddMapping calls of its volume. */
  lemma {:induction false} ResolverTracksDisk(states: seq<State>, actions: seq<Action>, n: nat, vol: nat, lba: nat)
    requires IsRun(states, actions) && n <= |actions|
    ensures states[n].mapping(Key(vol, lba)) == LastAdded(Adds(actions[..n], vol), lba)
  {
    if n > 0 {
      var i := n - 1;
      ResolverTracksDisk(states, actions, i, vol, lba);
      assert Next(states[i], actions[i], states[i + 1]);
      AddsNext(actions, i, vol);
      AddTracks(states[i], actions[i], Adds(actions[..i], vol), vol, lba);
    }
  }

  /** The mappings discarded so far, over all volumes, in order. */
  ghost function Discarded(s: State): (r: seq<Mapping>)
    ensures |r| == s.nTrash
  {
    seq(s.nTrash, (i: nat) => s.trash(i))
  }

  /** The places on that list of what one volume discarded. */
  ghost function Spots(states: seq<State>, actions: seq<Action>, n: nat, vol: nat): seq<nat>
    requires IsRun(states, actions) && n <= |actions|
  {
    if n == 0 then []
    else
      var grows := AddOf(actions[n - 1], vol) != [] && states[n].nTrash > states[n - 1].nTrash;
      Spots(states, actions, n - 1, vol) + (if grows then [states[n - 1].nTrash] else [])
  }

  lemma StepTrash(s: State, a: Action, added: seq<Installed>, vol: nat, i: nat)
    requires Enabled(s, a) && forall lba :: s.mapping(Key(vol, lba)) == LastAdded(added, lba)
    ensures s.nTrash <= Step(s, a).nTrash && (i < s.nTrash ==> Step(s, a).trash(i) == s.trash(i))
    ensures
      var more := Step(s, a).nTrash > s.nTrash;
      AddOf(a, vol) != [] ==>
        Discards(added + AddOf(a, vol)) == Discards(added) + (if more then [Step(s, a).trash(s.nTrash)] else [])
  {
    if AddOf(a, vol) != [] {
      var x := AddOf(a, vol)[0];
      assert s.mapping(Key(vol, x.addr)) == LastAdded(added, x.addr);
      DiscardsPush(added, x);
    }
  }

  /** Different places in a list of `n`. */
  ghost predicate Places(places: seq<nat>, n: nat) {
    NoRepeat(places) && forall i :: 0 <= i < |places| ==> places[i] < n
  }

  /** The mappings at these places. */
  ghost function Picked(ms: seq<Mapping>, places: seq<nat>): seq<Mapping>
    requires Places(places, |ms|)
  {
    seq(|places|, i requires 0 <= i < |places| => ms[places[i]])
  }

  ghost predicate AtSpots(s: State, spots: seq<nat>, ms: seq<Mapping>) {
    Places(spots, s.nTrash) && ms == Picked(Discarded(s), spots)
  }

  /** What a volume's resolver discarded is what the disk has at the volume's places. */
  lemma {:induction false} ResolverDiscards(states: seq<State>, actions: seq<Action>, n: nat, vol: nat)
    requires IsRun(states, actions) && n <= |actions|
    ensures AtSpots(states[n], Spots(states, actions, n, vol), Discards(Adds(actions[..n], vol)))
  {
    if n > 0 {
      var i := n - 1;
      ResolverDiscards(states, actions, i, vol);
      SpotsStep(states, actions, i, vol);
      AddsNext(actions, i, vol);
    }
  }

  lemma TracksAll(states: seq<State>, actions: seq<Action>, n: nat, vol: nat)
    requires IsRun(states, actions) && n <= |actions|
    ensures forall lba :: states[n].mapping(Key(vol, lba)) == LastAdded(Adds(actions[..n], vol), lba)
  {
    forall lba ensures states[n].mapping(Key(vol, lba)) == LastAdded(Adds(actions[..n], vol), lba) {
      ResolverTracksDisk(states, actions, n, vol, lba);
    }
  }

  lemma SpotsStep(states: seq<State>, actions: seq<Action>, i: nat, vol: nat)
    requires IsRun(states, actions) && i < |actions|
    requires AtSpots(states[i], Spots(states, actions, i, vol), Discards(Adds(actions[..i], vol)))
    ensures AtSpots(states[i + 1], Spots(states, actions, i + 1, vol), Discards(Adds(actions[..i], vol) + AddOf(actions[i], vol)))
  {
    TracksAll(states, actions, i, vol);
    assert Next(states[i], actions[i], states[i + 1]);
    SpotsFollow(states[i], actions[i], Adds(actions[..i], vol), vol, Spots(states, actions, i, vol));
  }

  lemma KeepsTrash(s: State, a: Action, added: seq<Installed>, vol: nat)
    requires Enabled(s, a) && forall lba :: s.mapping(Key(vol, lba)) == LastAdded(added, lba)
    ensures forall j: nat :: j < s.nTrash ==> Step(s, a).trash(j) == s.trash(j)
  {
    forall j: nat | j < s.nTrash ensures Step(s, a).trash(j) == s.trash(j) {
      StepTrash(s, a, added, vol, j);
    }
  }

  lemma SpotsFollow(s: State, a: Action, added: seq<Installed>, vol: nat, spots: seq<nat>)
    requires Enabled(s, a) && forall lba :: s.mapping(Key(vol, lba)) == LastAdded(added, lba)
    requires AtSpots(s, spots, Discards(added))
    ensures
      var grows := AddOf(a, vol) != [] && Step(s, a).nTrash > s.nTrash;
      AtSpots(Step(s, a), spots + (if grows then [s.nTrash] else []), Discards(added + AddOf(a, vol)))
  {
    StepTrash(s, a, added, vol, 0);
    KeepsTrash(s, a, added, vol);
    SpotsGrow(s, Step(s, a), spots);
    assert added + [] == added && spots + [] == spots;
  }

  /** The discard list grows at its end. */
  lemma SpotsGrow(s: State, s': State, spots: seq<nat>)
    requires s.nTrash <= s'.nTrash && Places(spots, s.nTrash) && forall j: nat :: j < s.nTrash ==> s'.trash(j) == s.trash(j)
    ensures Places(spots, s'.nTrash) && Picked(Discarded(s'), spots) == Picked(Discarded(s), spots)
    ensures s.nTrash < s'.nTrash ==>
      && Places(spots + [s.nTrash], s'.nTrash)
      && Picked(Discarded(s'), spots + [s.nTrash]) == Picked(Discarded(s), spots) + [s'.trash(s.nTrash)]
  {
    if s.nTrash < s'.nTrash {
      NoRepeatConcat(spots, [s.nTrash]);
    }
  }

  lemma SpotsBelow(states: seq<State>, actions: seq<Action>, n: nat, vol: nat)
    requires IsRun(states, actions) && n <= |actions|
    ensures forall x :: x in Spots(states, actions, n, vol) ==> x < states[n].nTrash
  {
    ResolverDiscards(states, actions, n, vol);
  }

  lemma OneVolume(a: Action, vol: nat, other: nat)
    requires vol != other && AddOf(a, vol) != []
    ensures AddOf(a, other) == []
  {
  }

  /** Different volumes have different places. */
  lemma {:induction false} SpotsApart(states: seq<State>, actions: seq<Action>, n: nat, vol: nat, other: nat, x: nat)
    requires IsRun(states, actions) && n <= |actions| && vol != other && x in Spots(states, actions, n, vol)
    ensures x !in Spots(states, actions, n, other)
  {
    var i := n - 1;
    SpotsBelow(states, actions, i, vol);
    SpotsBelow(states, actions, i, other);
    if x in Spots(states, actions, i, vol) {
      SpotsApart(states, actions, i, vol, other, x);
    } else {
      OneVolume(actions[i], vol, other);
    }
  }

  /** In every reachable state the discarded mappings have pairwise different blocks. */
  lemma DiscardedDistinct(states: seq<State>, actions: seq<Action>, n: nat)
    requires IsRun(states, actions) && n <= |actions|
    ensures DistinctBlocks(Discarded(states[n]))
  {
    var s := states[n];
    var ms := Discarded(s);
    forall i: nat, j: nat | i < |ms| && j < |ms|
      ensures ms[i].Mapped? && ms[j].Mapped? && ms[i].b0 != ms[j].b1
      ensures i != j ==> ms[i].b0 != ms[j].b0 && ms[i].b1 != ms[j].b1
    {
      TrashIsDiscardedOnce(states, actions, n, i, j, Key(0, 0));
    }
  }

  lemma PickedDistinct(ms: seq<Mapping>, places: seq<nat>)
    requires DistinctBlocks(ms) && Places(places, |ms|)
    ensures DistinctBlocks(Picked(ms, places))
  {
    var ps := Picked(ms, places);
    forall i, j | 0 <= i < |ps| && 0 <= j < |ps|
      ensures ps[i].Mapped? && ps[i].b0 != ps[j].b1
      ensures i < j ==> ps[i].b0 != ps[j].b0 && ps[i].b1 != ps[j].b1
    {
      var x, y := places[i], places[j];
      assert x < y || y < x || x == y;
    }
  }

  /** Whichever of the discarded mappings a collector takes, and in whatever order, no address goes
      twice to a server. */
  lemma TrimmedOnce(states: seq<State>, actions: seq<Action>, n: nat, places: seq<nat>, server: nat)
    requires IsRun(states, actions) && n <= |actions| && Places(places, states[n].nTrash)
    ensures
      var ms := Picked(Discarded(states[n]), places);
      AllMapped(ms) && NoRepeat(AddrsOn(ms, server))
  {
    DiscardedDistinct(states, actions, n);
    PickedDistinct(Discarded(states[n]), places);
    NoAddressTwice(Picked(Discarded(states[n]), places), server);
  }

  /** What the collector of one volume of a running disk sends is part of what the volume discarded. */
  lemma VolumeSends(states: seq<State>, actions: seq<Action>, vol: nat, taken: nat, sent: seq<DiscardMsg>, server: nat)
    requires IsRun(states, actions) && taken <= |Discards(Adds(actions, vol))|
    requires SentOnce(Discards(Adds(actions, vol)), taken, sent)
    ensures
      var spots := Spots(states, actions, |actions|, vol);
      && Places(spots, states[|actions|].nTrash)
      && Subsequence(SentTo(sent, server), AddrsOn(Picked(Discarded(states[|actions|]), spots), server))
  {
    var ms := Discards(Adds(actions, vol));
    ResolverDiscards(states, actions, |actions|, vol);
    assert actions[..|actions|] == actions;
    assert Subsequence(SentTo(sent, server), AddrsOn(ms[..taken], server));
    OfAll(SentTo(sent, server), ms, taken, server);
  }

  lemma OfAll(x: seq<nat>, ms: seq<Mapping>, taken: nat, server: nat)
    requires taken <= |ms| && Subsequence(x, AddrsOn(ms[..taken], server))
    ensures Subsequence(x, AddrsOn(ms, server))
  {
    assert ms[..taken] + ms[taken..] == ms;
    AddrsOnConcat(ms[..taken], ms[taken..], server);
    SubsequenceSelf(AddrsOn(ms[taken..], server));
    SubsequenceConcat(x, AddrsOn(ms[..taken], server), [], AddrsOn(ms[taken..], server));
    assert x + [] == x;
  }

  /** A block sent to its server is on the discard list of the disk: neither in use nor in a cache. */
  ghost predicate OnlyTrash(s: State, sent: seq<DiscardMsg>, server: nat) {
    forall a :: a in SentTo(sent, server) ==> s.stage(Block(server, a)).Trash?
  }

  lemma TrashOnly(states: seq<State>, actions: seq<Action>, places: seq<nat>, server: nat, a: nat)
    requires IsRun(states, actions) && Places(places, states[|actions|].nTrash)
    requires a in AddrsOn(Picked(Discarded(states[|actions|]), places), server)
    ensures states[|actions|].stage(Block(server, a)).Trash? && states[|actions|].stage(Block(server, a)).i in places
  {
    var s := states[|actions|];
    var ms := Picked(Discarded(s), places);
    DiscardedDistinct(states, actions, |actions|);
    RunKeepsInv(states, actions, |actions|);
    AddrsOnFrom(ms, server, a);
    var i :| 0 <= i < |ms| && ms[i].Mapped? && (ms[i].b0 == Block(server, a) || ms[i].b1 == Block(server, a));
    assert ms[i] == s.trash(places[i]);
  }

  /** The entries of a resolver are the disk's mappings of its volume. */
  ghost predicate Mirrors(s: State, vol: nat, entries: seq<Mapping>) {
    forall lba: nat :: lba < |entries| ==> entries[lba] == s.mapping(Key(vol, lba))
  }

  /** The resolver and the collector of one volume while the disk runs: the resolver holds the disk's
      mappings, no address is sent twice to a server, and only discarded blocks are sent. */
  method RunVolume(ghost states: seq<State>, ghost actions: seq<Action>, vol: nat, res: BlockResolver, ops: seq<ResolverOp>)
    returns (sent: seq<DiscardMsg>)
    requires IsRun(states, actions) && res.Valid() && res.added == [] && res.taken == 0
    requires AddsIn(ops) == Adds(actions, vol)
    requires forall i :: 0 <= i < |ops| && ops[i].Add? ==> ops[i].addr < res.blkMap.Length
    modifies res, res.blkMap
    ensures Mirrors(states[|actions|], vol, res.blkMap[..])
    ensures forall server :: NoRepeat(SentTo(sent, server)) && OnlyTrash(states[|actions|], sent, server)
  {
    sent := RunResolver(res, ops);
    assert res.added == Adds(actions, vol);
    MirrorsDisk(states, actions, vol, res.blkMap[..]);
    SentIsTrashAll(states, actions, vol, res.taken, sent);
  }

  lemma MirrorsDisk(states: seq<State>, actions: seq<Action>, vol: nat, entries: seq<Mapping>)
    requires IsRun(states, actions)
    requires Maps(entries, Adds(actions, vol))
    ensures Mirrors(states[|actions|], vol, entries)
  {
    assert actions[..|actions|] == actions;
    forall lba: nat | lba < |entries| ensures entries[lba] == states[|actions|].mapping(Key(vol, lba)) {
      ResolverTracksDisk(states, actions, |actions|, vol, lba);
    }
  }

  lemma SentIsTrashAll(states: seq<State>, actions: seq<Action>, vol: nat, taken: nat, sent: seq<DiscardMsg>)
    requires IsRun(states, actions) && taken <= |Discards(Adds(actions, vol))|
    requires SentOnce(Discards(Adds(actions, vol)), taken, sent)
    ensures forall server :: NoRepeat(SentTo(sent, server)) && OnlyTrash(states[|actions|], sent, server)
  {
    forall server ensures NoRepeat(SentTo(sent, server)) && OnlyTrash(states[|actions|], sent, server) {
      SentIsTrash(states, actions, vol, taken, sent, server);
    }
  }

  lemma SentIsTrash(states: seq<State>, actions: seq<Action>, vol: nat, taken: nat, sent: seq<DiscardMsg>, server: nat)
    requires IsRun(states, actions) && taken <= |Discards(Adds(actions, vol))|
    requires SentOnce(Discards(Adds(actions, vol)), taken, sent)
    ensures NoRepeat(SentTo(sent, server)) && OnlyTrash(states[|actions|], sent, server)
  {
    VolumeSends(states, actions, vol, taken, sent, server);
    var spots := Spots(states, actions, |actions|, vol);
    var all := AddrsOn(Picked(Discarded(states[|actions|]), spots), server);
    TrimmedOnce(states, actions, |actions|, spots, server);
    SubsequenceNoRepeat(SentTo(sent, server), all);
    SubsequenceFacts(SentTo(sent, server), all);
    forall a | a in SentTo(sent, server) ensures states[|actions|].stage(Block(server, a)).Trash? {
      TrashOnly(states, actions, spots, server, a);
    }
  }

  /** The collectors of two volumes never send the same block. */
  lemma VolumesTrimApart(states: seq<State>, actions: seq<Action>, vol: nat, taken: nat, sent: seq<DiscardMsg>,
                         vol': nat, taken': nat, sent': seq<DiscardMsg>, server: nat, a: nat)
    requires IsRun(states, actions) && vol != vol'
    requires taken <= |Discards(Adds(actions, vol))| && SentOnce(Discards(Adds(actions, vol)), taken, sent)
    requires taken' <= |Discards(Adds(actions, vol'))| && SentOnce(Discards(Adds(actions, vol')), taken', sent')
    requires a in SentTo(sent, server)
    ensures a !in SentTo(sent', server)
  {
    SentFromSpot(states, actions, vol, taken, sent, server, a);
    if a in SentTo(sent', server) {
      SentFromSpot(states, actions, vol', taken', sent', server, a);
      SpotsApart(states, actions, |actions|, vol, vol', states[|actions|].stage(Block(server, a)).i);
    }
  }

  lemma SentFromSpot(states: seq<State>, actions: seq<Action>, vol: nat, taken: nat, sent: seq<DiscardMsg>, server: nat, a: nat)
    requires IsRun(states, actions) && taken <= |Discards(Adds(actions, vol))|
    requires SentOnce(Discards(Adds(actions, vol)), taken, sent) && a in SentTo(sent, server)
    ensures
      var stage := states[|actions|].stage(Block(server, a));
      stage.Trash? && stage.i in Spots(states, actions, |actions|, vol)
  {
    VolumeSends(states, actions, vol, taken, sent, server);
    var spots := Spots(states, actions, |actions|, vol);
    SubsequenceFacts(SentTo(sent, server), AddrsOn(Picked(Discarded(states[|actions|]), spots), server));
    TrashOnly(states, actions, spots, server, a);
  }
}
