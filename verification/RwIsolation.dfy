/**
 Read/write mode allocation (sandook/scheduler/control_plane/rw_isolation_base.h): how many
 servers take writes, which ones, and how the write window rotates around the ring of servers.
 GetPeakIOPS is a parameter, so the base and the adaptive scheduler are both covered.
 */
module RwIsolation {
  import opened Wrappers
  import opened DiskModel
  import opened Numbers
  import opened ProfileGuided

  const NUM_REPLICAS: nat := 2
  const EXTRA_WRITE_SSDS: nat := 1
  const MODE_SWITCH_INTERVAL_US: nat := 300_000

  datatype WriteStats = WriteStats(inflight: nat, completed: nat, rejected: nat)
  datatype Allocation = Allocation(isTraffic: bool, numRead: nat, numWrite: nat)
  datatype Switch = Switch(start: nat, numWrite: nat)

  /** Modes by server id; an id without an entry was left unassigned. */
  type Modes = map<nat, Mode>

  // ---------------------------------------------------------------- the ring

  /** i places after start on the ring 0..n-1. */
  function Position(start: nat, i: nat, n: nat): (p: nat)
    requires start < n && i <= n
    ensures p < n
  {
    if start + i < n then start + i else start + i - n
  }

  /** How many places after start the index s lies. */
  function Offset(start: nat, s: nat, n: nat): (o: nat)
    requires start < n && s < n
    ensures o < n && Position(start, o, n) == s
  {
    if s >= start then s - start else s + n - start
  }

  ghost predicate InWindow(start: nat, len: nat, n: nat, s: nat)
    requires start < n && s < n
  {
    Offset(start, s, n) < len
  }

  /** Stepping once around the ring. */
  lemma RingStep(start: nat, i: nat, n: nat)
    requires start < n && i < n
    ensures (Position(start, i, n) + 1) % n == Position(start, i + 1, n)
    ensures Offset(start, Position(start, i, n), n) == i
  {
    var p := Position(start, i, n);
    if p + 1 == n {
      assert (p + 1) % n == 0;
    } else {
      assert (p + 1) % n == p + 1;
    }
  }

  lemma RingJump(start: nat, i: nat, n: nat)
    requires start < n && i <= n
    ensures (start + i) % n == Position(start, i, n)
  {
    if start + i >= n {
      ModOnce(start + i - n, n);
    }
  }

  lemma ModOnce(x: nat, n: nat)
    requires x < n
    ensures (x + n) % n == x
  {
  }

  // ---------------------------------------------------------------- how many servers take writes

  /** Peak IOPS of the first k servers from start together; ids are one above ring indices. */
  function WindowPeak(peak: nat -> nat, start: nat, n: nat, k: nat): nat
    requires start < n && k <= n
  {
    if k == 0 then 0 else WindowPeak(peak, start, n, k - 1) + peak(Position(start, k - 1, n) + 1)
  }

  lemma {:induction false} WindowPeakMonotone(peak: nat -> nat, start: nat, n: nat, j: nat, k: nat)
    requires start < n && j <= k <= n
    ensures WindowPeak(peak, start, n, j) <= WindowPeak(peak, start, n, k)
  {
    if j < k {
      WindowPeakMonotone(peak, start, n, j, k - 1);
    }
  }

  /** With both reads and writes: the least count of at least two write servers that either is
      everyone or leaves one spare beyond a window covering the write load. */
  ghost predicate TightWriteCount(peak: nat -> nat, start: nat, n: nat, writeOps: nat, w: nat)
    requires start < n
  {
    && NUM_REPLICAS <= w <= n
    && (w == n || WindowPeak(peak, start, n, w - 1) >= writeOps)
    && (w > NUM_REPLICAS ==> WindowPeak(peak, start, n, w - 2) < writeOps)
  }

  lemma TightWriteCountUnique(peak: nat -> nat, start: nat, n: nat, writeOps: nat, v: nat, w: nat)
    requires start < n
    requires TightWriteCount(peak, start, n, writeOps, v) && TightWriteCount(peak, start, n, writeOps, w)
    ensures v == w
  {
    if v < w {
      WindowPeakMonotone(peak, start, n, v - 1, w - 2);
    } else if w < v {
      WindowPeakMonotone(peak, start, n, w - 1, v - 2);
    }
  }

  /** The allocation a call computes afresh. */
  ghost predicate IsFresh(a: Allocation, peak: nat -> nat, start: nat, n: nat, load: Load)
    requires start < n
  {
    && (a.isTraffic <==> load.readOps + load.writeOps > 0)
    && (load.writeOps == 0 ==> a.numWrite == 0 && a.numRead == if load.readOps == 0 then 0 else n)
    && (load.writeOps > 0 && load.readOps == 0 ==> a.numWrite == n && a.numRead == 0)
    && (load.writeOps > 0 && load.readOps > 0 ==>
      TightWriteCount(peak, start, n, load.writeOps, a.numWrite) && a.numRead == n - a.numWrite)
  }

  /** Lines 233-246: servers taken from start until their peak covers the writes. */
  method WriteDemand(peak: nat -> nat, start: nat, n: nat, writeOps: nat) returns (dem: nat)
    requires start < n
    ensures dem <= n
    ensures dem == n || WindowPeak(peak, start, n, dem) >= writeOps
    ensures dem > 0 ==> WindowPeak(peak, start, n, dem - 1) < writeOps
  {
    var handled, serverId := 0, start;
    dem := 0;
    while handled < writeOps && dem != n
      invariant dem <= n && serverId == Position(start, dem, n)
      invariant handled == WindowPeak(peak, start, n, dem)
      invariant dem > 0 ==> WindowPeak(peak, start, n, dem - 1) < writeOps
      decreases n - dem
    {
      RingStep(start, dem, n);
      handled := handled + peak(serverId + 1);
      dem := dem + 1;
      serverId := (serverId + 1) % n;
    }
  }

  lemma DemandIsTight(peak: nat -> nat, start: nat, n: nat, writeOps: nat, dem: nat)
    requires start < n && n > NUM_REPLICAS && dem <= n
    requires dem == n || WindowPeak(peak, start, n, dem) >= writeOps
    requires dem > 0 ==> WindowPeak(peak, start, n, dem - 1) < writeOps
    ensures TightWriteCount(peak, start, n, writeOps, Min(n, Max(NUM_REPLICAS, dem + EXTRA_WRITE_SSDS)))
  {
    var w := Min(n, Max(NUM_REPLICAS, dem + EXTRA_WRITE_SSDS));
    if w < n {
      WindowPeakMonotone(peak, start, n, dem, w - 1);
    }
    if w > NUM_REPLICAS {
      WindowPeakMonotone(peak, start, n, w - 2, dem - 1);
    }
  }

  // ---------------------------------------------------------------- assigning modes

  /** Every server 1..n has a mode, and it is the write mode exactly in the window. */
  ghost predicate Installed(modes: Modes, start: nat, n: nat, numWrite: nat)
    requires start < n
  {
    && (forall id: nat :: id in modes <==> 1 <= id <= n)
    && (forall id: nat :: id in modes ==>
      modes[id] == if InWindow(start, numWrite, n, id - 1) then WriteMode else ReadMode)
  }

  /** What has been assigned after the first k places. */
  ghost predicate Partial(modes: Modes, start: nat, n: nat, numWrite: nat, k: nat)
    requires start < n
  {
    && (forall id: nat :: id in modes <==> 1 <= id <= n && Offset(start, id - 1, n) < k)
    && (forall id: nat :: id in modes ==>
      modes[id] == if InWindow(start, numWrite, n, id - 1) then WriteMode else ReadMode)
  }

  /** Assigning the next place touches a server that has no mode yet. */
  lemma AssignNext(modes: Modes, start: nat, n: nat, numWrite: nat, k: nat, mode: Mode)
    requires start < n && k < n && Partial(modes, start, n, numWrite, k)
    requires mode == if k < numWrite then WriteMode else ReadMode
    ensures
      var id := Position(start, k, n) + 1;
      id !in modes && Partial(modes[id := mode], start, n, numWrite, k + 1)
  {
    RingStep(start, k, n);
    var p := Position(start, k, n);
    var modes' := modes[p + 1 := mode];
    forall s: nat | s < n && Offset(start, s, n) == k ensures s == p {
      assert Position(start, k, n) == s;
    }
  }

  /** Lines 99-112. */
  method AssignModes(start: nat, n: nat, numWrite: nat, numRead: nat) returns (modes: Modes)
    requires start < n && numWrite + numRead == n
    ensures Installed(modes, start, n, numWrite)
  {
    modes := map[];
    var serverId := start;
    for i := 0 to numWrite
      invariant serverId == Position(start, i, n) && Partial(modes, start, n, numWrite, i)
    {
      RingStep(start, i, n);
      AssignNext(modes, start, n, numWrite, i, WriteMode);
      modes := modes[serverId + 1 := WriteMode];
      serverId := (serverId + 1) % n;
    }
    for i := 0 to numRead
      invariant serverId == Position(start, numWrite + i, n) && Partial(modes, start, n, numWrite, numWrite + i)
    {
      RingStep(start, numWrite + i, n);
      AssignNext(modes, start, n, numWrite, numWrite + i, ReadMode);
      modes := modes[serverId + 1 := ReadMode];
      serverId := (serverId + 1) % n;
    }
  }

  ghost predicate IsAllMix(modes: Modes) {
    && (forall id: nat :: id in modes <==> id < MAX_SERVERS)
    && (forall id: nat :: id in modes ==> modes[id] == Mix)
  }

  method AllMix() returns (modes: Modes)
    ensures IsAllMix(modes)
  {
    modes := map[];
    for i := 0 to MAX_SERVERS
      invariant forall id: nat :: id in modes <==> id < i
      invariant forall id: nat :: id in modes ==> modes[id] == Mix
    {
      modes := modes[i := Mix];
    }
  }

  // ---------------------------------------------------------------- rotation over a run

  /** Each window starts where the previous one ended. */
  ghost predicate Chained(switches: seq<Switch>, n: nat) {
    && (forall k :: 0 <= k < |switches| ==> switches[k].start < n && switches[k].numWrite <= n)
    && (forall k :: 0 <= k < |switches| - 1 ==>
      switches[k + 1].start == Position(switches[k].start, switches[k].numWrite, n))
  }

  /** Where the next window starts. */
  ghost function Next(switches: seq<Switch>, n: nat): nat
    requires Chained(switches, n) && switches != []
  {
    var last := switches[|switches| - 1];
    Position(last.start, last.numWrite, n)
  }

  lemma ChainGrows(switches: seq<Switch>, n: nat, s: Switch)
    requires Chained(switches, n) && s.start < n && s.numWrite <= n
    requires switches != [] ==> s.start == Next(switches, n)
    ensures Chained(switches + [s], n) && Next(switches + [s], n) == Position(s.start, s.numWrite, n)
  {
  }

  function TotalWrites(switches: seq<Switch>): nat {
    if switches == [] then 0 else switches[0].numWrite + TotalWrites(switches[1..])
  }

  ghost predicate Covered(switches: seq<Switch>, n: nat, s: nat)
    requires s < n && Chained(switches, n)
  {
    exists k :: 0 <= k < |switches| && InWindow(switches[k].start, switches[k].numWrite, n, s)
  }

  lemma OffsetAfterWindow(start: nat, len: nat, n: nat, s: nat)
    requires start < n && s < n && len <= Offset(start, s, n)
    ensures Offset(Position(start, len, n), s, n) == Offset(start, s, n) - len
  {
  }

  /** A server fewer places ahead than the remaining windows are long is inside one of them. */
  lemma {:induction false} WindowsReach(switches: seq<Switch>, n: nat, s: nat)
    requires s < n && Chained(switches, n) && switches != []
    requires Offset(switches[0].start, s, n) < TotalWrites(switches)
    ensures Covered(switches, n, s)
    decreases |switches|
  {
    var first, rest := switches[0], switches[1..];
    if InWindow(first.start, first.numWrite, n, s) {
    } else {
      assert rest != [];
      assert Chained(rest, n) by {
        forall k | 0 <= k < |rest| - 1
          ensures rest[k + 1].start == Position(rest[k].start, rest[k].numWrite, n)
        {
          assert switches[k + 2].start == Position(switches[k + 1].start, switches[k + 1].numWrite, n);
        }
      }
      assert rest[0].start == Position(first.start, first.numWrite, n) by {
        assert switches[0 + 1] == rest[0];
      }
      OffsetAfterWindow(first.start, first.numWrite, n, s);
      WindowsReach(rest, n, s);
      var k :| 0 <= k < |rest| && InWindow(rest[k].start, rest[k].numWrite, n, s);
      assert switches[k + 1] == rest[k];
    }
  }

  /** Consecutive windows totalling at least n put every server in write mode. */
  lemma WindowsTile(switches: seq<Switch>, n: nat, i: nat, j: nat, s: nat)
    requires s < n && Chained(switches, n) && i <= j <= |switches|
    requires TotalWrites(switches[i..j]) >= n
    ensures exists k :: i <= k < j && InWindow(switches[k].start, switches[k].numWrite, n, s)
  {
    var part := switches[i..j];
    assert Chained(part, n) by {
      forall k | 0 <= k < |part| - 1
        ensures part[k + 1].start == Position(part[k].start, part[k].numWrite, n)
      {
        assert switches[i + k + 1].start == Position(switches[i + k].start, switches[i + k].numWrite, n);
      }
    }
    WindowsReach(part, n, s);
    var k :| 0 <= k < |part| && InWindow(part[k].start, part[k].numWrite, n, s);
    assert switches[i + k] == part[k];
  }

  // ---------------------------------------------------------------- the scheduler

  class RWIsolationBase {
    var lastAllocation: Allocation
    var prevLoad: Load
    var lastModeSwitchTime: nat
    var numServers: nat
    var lastWriteIdx: nat

    /** The windows installed since the server count last changed. */
    ghost var switches: seq<Switch>

    ghost predicate Valid()
      reads this
    {
      && (if numServers == 0 then lastWriteIdx == 0 else lastWriteIdx < numServers)
      && lastAllocation.numRead + lastAllocation.numWrite <= numServers
      && (!lastAllocation.isTraffic ==> lastAllocation.numRead + lastAllocation.numWrite == 0)
      && Chained(switches, numServers)
      && (switches != [] ==> lastWriteIdx == Next(switches, numServers))
    }

    constructor (now: nat)
      ensures Valid() && numServers == 0 && switches == [] && lastModeSwitchTime == now
    {
      lastAllocation := Allocation(false, 0, 0);
      prevLoad := Load(0, 0);
      lastModeSwitchTime := now;
      numServers, lastWriteIdx, switches := 0, 0, [];
    }

    method AddServer()
      requires Valid()
      modifies this`numServers, this`lastWriteIdx, this`switches
      ensures Valid() && numServers == old(numServers) + 1 && lastWriteIdx == 0 && switches == []
    {
      numServers := numServers + 1;
      lastWriteIdx := 0;
      switches := [];
    }

    method GetAllocation(peak: nat -> nat, stats: seq<WriteStats>, load: Load) returns (a: Allocation)
      requires Valid() && |stats| == numServers > NUM_REPLICAS
      ensures IsFresh(a, peak, lastWriteIdx, numServers, load)
    {
      var n := |stats|;
      var allWrites := 0;
      for i := 0 to n {
        allWrites := allWrites + stats[i].inflight + stats[i].completed + stats[i].rejected;
      }
      var minWrite := 0;
      if allWrites > 0 || load.writeOps > 0 {
        minWrite := NUM_REPLICAS;
      }
      var numRead, numWrite := 0, 0;
      if load.readOps != 0 && load.writeOps != 0 {
        var dem := WriteDemand(peak, lastWriteIdx, n, load.writeOps);
        DemandIsTight(peak, lastWriteIdx, n, load.writeOps, dem);
        numWrite := Min(n, Max(minWrite, dem + EXTRA_WRITE_SSDS));
        numRead := n - numWrite;
      } else if load.readOps != 0 && load.writeOps == 0 {
        numRead := n;
      } else if load.writeOps != 0 && load.readOps == 0 {
        numWrite := n;
      }
      return Allocation(load.readOps + load.writeOps > 0, numRead, numWrite);
    }

    predicate IsAllocationChanged(a: Allocation)
      reads this
    {
      || (a.numRead != 0 && lastAllocation.numRead == 0)
      || (a.numWrite != 0 && lastAllocation.numWrite == 0)
      || a.numRead > lastAllocation.numRead || a.numWrite > lastAllocation.numWrite
    }

    /** Testing for increases only is enough: an unchanged allocation is the installed one. */
    lemma UnchangedIsInstalled(a: Allocation)
      requires Valid() && a.isTraffic && a.numRead + a.numWrite == numServers > 0
      ensures !IsAllocationChanged(a) <==> a == lastAllocation
    {
    }

    /** Lines 96-120. */
    method Install(a: Allocation, done: nat) returns (modes: Modes)
      requires Valid() && a.isTraffic && a.numRead + a.numWrite == numServers > 0
      modifies this`lastAllocation, this`lastModeSwitchTime, this`lastWriteIdx, this`switches
      ensures Valid() && lastAllocation == a && lastModeSwitchTime == done
      ensures Installed(modes, old(lastWriteIdx), numServers, a.numWrite)
      ensures switches == old(switches) + [Switch(old(lastWriteIdx), a.numWrite)]
    {
      lastAllocation := a;
      modes := AssignModes(lastWriteIdx, numServers, a.numWrite, a.numRead);
      ChainGrows(switches, numServers, Switch(lastWriteIdx, a.numWrite));
      switches := switches + [Switch(lastWriteIdx, a.numWrite)];
      RingJump(lastWriteIdx, a.numWrite, numServers);
      lastWriteIdx := (lastWriteIdx + a.numWrite) % numServers;
      lastModeSwitchTime := done;
    }

    /** now is the time of the interval test and done the time recorded after installing. */
    method ComputeModes(peak: nat -> nat, stats: seq<WriteStats>, load: Load, now: nat, done: nat)
      returns (r: Status<Modes>)
      requires Valid() && |stats| == numServers < MAX_SERVERS && lastModeSwitchTime <= now <= done
      modifies this
      ensures Valid() && numServers == old(numServers) && prevLoad == load
      ensures r.Err? ==>
        && r.code == EAGAIN && lastWriteIdx == old(lastWriteIdx) && switches == old(switches)
        && lastModeSwitchTime == old(lastModeSwitchTime) && lastAllocation == old(lastAllocation)
      ensures numServers <= NUM_REPLICAS ==>
        r.Ok? && IsAllMix(r.value) && switches == old(switches)
      ensures numServers > NUM_REPLICAS && load.readOps + load.writeOps == 0 ==> r.Err?
      ensures numServers > NUM_REPLICAS && load.readOps + load.writeOps > 0 ==>
        && IsFresh(lastAllocation, peak, old(lastWriteIdx), numServers, load)
        && (r.Err? <==> lastAllocation == old(lastAllocation)
                        && now - old(lastModeSwitchTime) < MODE_SWITCH_INTERVAL_US)
        && (r.Ok? ==>
          && Installed(r.value, old(lastWriteIdx), numServers, lastAllocation.numWrite)
          && switches == old(switches) + [Switch(old(lastWriteIdx), lastAllocation.numWrite)]
          && lastModeSwitchTime == done)
    {
      if |stats| <= NUM_REPLICAS {
        prevLoad := load;
        var mix := AllMix();
        return Ok(mix);
      }
      var a := GetAllocation(peak, stats, load);
      if !a.isTraffic {
        prevLoad := load;
        return Err(EAGAIN);
      }
      // With traffic the counts total the number of servers, so they are never both zero.
      assert a.numRead + a.numWrite == numServers;
      UnchangedIsInstalled(a);
      var isUpdate := IsAllocationChanged(a);
      prevLoad := load;
      if !isUpdate && !(now - lastModeSwitchTime >= MODE_SWITCH_INTERVAL_US) {
        return Err(EAGAIN);
      }
      var modes := Install(a, done);
      return Ok(modes);
    }

    /** Over every run with a fixed server count, windows totalling n reach every server. */
    lemma EveryServerWrites(i: nat, j: nat, s: nat)
      requires Valid() && i <= j <= |switches| && s < numServers
      requires TotalWrites(switches[i..j]) >= numServers
      ensures exists k :: i <= k < j && InWindow(switches[k].start, switches[k].numWrite, numServers, s)
    {
      WindowsTile(switches, numServers, i, j, s);
    }
  }
}
