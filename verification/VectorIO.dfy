/**
 Full vectored transfers over a transport that may stop short (sandook/base/io.cc).
 The transport's answers are arbitrary: an error, or any positive part of what is left.
 */
module VectorIO {
  import opened Wrappers

  datatype Iov = Iov(base: nat, len: nat)

  /** The bytes of an iovec array, by address, in transfer order. */
  function Addresses(iov: seq<Iov>): seq<nat> {
    if iov == [] then [] else seq(iov[0].len, (i: nat) => iov[0].base + i) + Addresses(iov[1..])
  }

  function Total(iov: seq<Iov>): nat {
    if iov == [] then 0 else iov[0].len + Total(iov[1..])
  }

  lemma {:induction false} TotalIsLength(iov: seq<Iov>)
    ensures Total(iov) == |Addresses(iov)|
  {
    if iov != [] {
      TotalIsLength(iov[1..]);
    }
  }

  lemma {:induction false} TotalSplit(iov: seq<Iov>, k: nat)
    requires k <= |iov|
    ensures Total(iov) == Total(iov[..k]) + Total(iov[k..])
  {
    if k > 0 {
      TotalSplit(iov[1..], k - 1);
      assert iov[..k][1..] == iov[1..][..k - 1] && iov[k..] == iov[1..][k - 1..];
    } else {
      assert iov[0..] == iov;
    }
  }

  /** SumIOV. */
  method SumIOV(iov: seq<Iov>) returns (len: nat)
    ensures len == |Addresses(iov)|
  {
    len := 0;
    for i := 0 to |iov|
      invariant len == Total(iov[..i])
    {
      assert iov[..i + 1][..i] == iov[..i] && iov[..i + 1][i..] == [iov[i]];
      TotalSplit(iov[..i + 1], i);
      assert Total([iov[i]]) == iov[i].len + Total([iov[i]][1..]);
      len := len + iov[i].len;
    }
    assert iov[..|iov|] == iov;
    TotalIsLength(iov);
  }

  // ---------------------------------------------------------------- advancing the vector

  /** Skipping a whole entry. */
  lemma SkipEntry(s: seq<Iov>, n: nat)
    requires s != [] && s[0].len <= n <= |Addresses(s)|
    ensures n - s[0].len <= |Addresses(s[1..])|
    ensures Addresses(s)[n..] == Addresses(s[1..])[n - s[0].len..]
  {
  }

  /** Advancing inside an entry. */
  lemma TrimEntry(s: seq<Iov>, n: nat)
    requires s != [] && n < s[0].len
    ensures n <= |Addresses(s)|
    ensures Addresses([Iov(s[0].base + n, s[0].len - n)] + s[1..]) == Addresses(s)[n..]
  {
    var t := [Iov(s[0].base + n, s[0].len - n)] + s[1..];
    assert t[1..] == s[1..];
  }

  /** PullIOV on the span v[lo..]: drops the first n bytes in place and returns the new start.
      A span that is left over starts with a non-empty entry. */
  method PullIOV(v: array<Iov>, lo: nat, n: nat) returns (lo': nat)
    requires lo <= v.Length && n <= |Addresses(v[lo..])|
    modifies v
    ensures lo <= lo' <= v.Length
    ensures Addresses(v[lo'..]) == old(Addresses(v[lo..]))[n..]
    ensures lo' < v.Length ==> v[lo'].len > 0
  {
    var left: nat := n;
    lo' := lo;
    while lo' < v.Length
      invariant lo <= lo' <= v.Length && v[..] == old(v[..])
      invariant left <= |Addresses(v[lo'..])|
      invariant Addresses(v[lo'..])[left..] == old(Addresses(v[lo..]))[n..]
    {
      ghost var s := v[lo'..];
      assert s[1..] == v[lo' + 1..];
      if left < v[lo'].len {
        TrimEntry(s, left);
        v[lo'] := Iov(v[lo'].base + left, v[lo'].len - left);
        assert v[lo'..] == [v[lo']] + s[1..];
        return;
      }
      SkipEntry(s, left);
      left := left - v[lo'].len;
      lo' := lo' + 1;
    }
    assert v[lo'..] == [];
    assert left == 0;
  }

  // ---------------------------------------------------------------- the transport

  class Transport {
    /** What the k-th call answers, before clamping to what it was offered. */
    const replies: nat -> Status<nat>
    var calls: nat
    /** The addresses transferred so far, in order. */
    ghost var log: seq<nat>

    constructor (replies: nat -> Status<nat>)
      ensures this.replies == replies && calls == 0 && log == []
    {
      this.replies := replies;
      calls, log := 0, [];
    }

    /** Readv or Writev. */
    method Transfer(iov: seq<Iov>) returns (r: Status<nat>)
      modifies this
      ensures calls == old(calls) + 1
      ensures r.Err? <==> replies(old(calls)).Err?
      ensures r.Err? ==> r == replies(old(calls)) && log == old(log)
      ensures r.Ok? ==>
        && r.value <= |Addresses(iov)| && (Addresses(iov) != [] ==> r.value > 0)
        && log == old(log) + Addresses(iov)[..r.value]
    {
      r := replies(calls);
      calls := calls + 1;
      if r.Ok? {
        var total := SumIOV(iov);
        var n := if r.value > total then total else if r.value == 0 && total > 0 then 1 else r.value;
        log := log + Addresses(iov)[..n];
        r := Ok(n);
      }
    }
  }

  /** The first k bytes of all have been transferred on top of base. */
  ghost predicate Progress(log: seq<nat>, base: seq<nat>, all: seq<nat>, k: nat) {
    k <= |all| && log == base + all[..k]
  }

  lemma MoreProgress(log: seq<nat>, base: seq<nat>, all: seq<nat>, k: nat, n: nat)
    requires Progress(log, base, all, k) && k + n <= |all|
    ensures Progress(log + all[k..][..n], base, all, k + n)
  {
    assert all[..k] + all[k..][..n] == all[..k + n];
  }

  /** The span still describes everything from byte `done` on. */
  ghost predicate Left(span: seq<Iov>, all: seq<nat>, done: nat) {
    done <= |all| && Addresses(span) == all[done..]
  }

  lemma LeftAfterPull(before: seq<Iov>, span: seq<Iov>, all: seq<nat>, done: nat, n: nat)
    requires Left(before, all, done) && done + n <= |all| && Addresses(span) == Addresses(before)[n..]
    ensures Left(span, all, done + n)
  {
    assert all[done..][n..] == all[done + n..];
  }

  lemma NothingLeft(span: seq<Iov>, all: seq<nat>, done: nat)
    requires Left(span, all, done) && span == []
    ensures done == |all|
  {
  }

  lemma SomethingLeft(span: seq<Iov>, all: seq<nat>, done: nat)
    requires Left(span, all, done) && span != [] && span[0].len > 0
    ensures done < |all| && Addresses(span) != []
  {
    LeadingEntry(span);
  }

  /** Lines 55-75: the rest of a transfer whose first call moved n bytes. */
  method FinishPartial(io: Transport, iov: seq<Iov>, n: nat, ghost base: seq<nat>, ghost first: nat)
    returns (r: Status<()>)
    requires 0 < n < |Addresses(iov)| && Progress(io.log, base, Addresses(iov), n)
    requires first < io.calls <= first + n && io.replies(io.calls - 1).Ok?
    modifies io
    ensures first < io.calls <= first + |Addresses(iov)|
    ensures r.Ok? ==> Progress(io.log, base, Addresses(iov), |Addresses(iov)|)
    ensures r.Err? ==> exists k :: 0 <= k < |Addresses(iov)| && Progress(io.log, base, Addresses(iov), k)
    ensures r.Err? <==> io.replies(io.calls - 1).Err?
    ensures r.Err? ==> r.code == io.replies(io.calls - 1).code
  {
    ghost var all := Addresses(iov);
    var v := CopyOf(iov);
    var lo, moved := 0, n;
    ghost var done: nat := 0;
    while true
      invariant fresh(v) && lo <= v.Length && done + moved <= |all| && moved > 0
      invariant Left(v[lo..], all, done) && Progress(io.log, base, all, done + moved)
      invariant first < io.calls <= first + done + moved && io.replies(io.calls - 1).Ok?
      decreases |all| - done
    {
      ghost var span := v[lo..];
      lo := PullIOV(v, lo, moved);
      LeftAfterPull(span, v[lo..], all, done, moved);
      done := done + moved;
      if lo == v.Length {
        NothingLeft(v[lo..], all, done);
        return Ok(());
      }
      SomethingLeft(v[lo..], all, done);
      ghost var log := io.log;
      var ret := io.Transfer(v[lo..]);
      if ret.Err? {
        assert Progress(io.log, base, all, done);
        return Err(ret.code);
      }
      moved := ret.value;
      MoreProgress(log, base, all, done, moved);
    }
  }

  method CopyOf(iov: seq<Iov>) returns (v: array<Iov>)
    ensures fresh(v) && v[..] == iov && v[0..] == iov && Left(v[0..], Addresses(iov), 0)
  {
    v := new Iov[|iov|](i requires 0 <= i < |iov| => iov[i]);
    assert v[..] == iov && v[0..] == v[..];
  }

  /** DoFull: success means every byte was transferred once and in order; on an error a proper
      prefix was, and the error is the last answer of the transport. */
  method DoFull(io: Transport, iov: seq<Iov>) returns (r: Status<()>)
    modifies io
    ensures io.calls > old(io.calls)
    ensures r.Ok? ==> io.log == old(io.log) + Addresses(iov)
    ensures r.Err? ==> exists k :: 0 <= k <= |Addresses(iov)| && (k < |Addresses(iov)| || k == 0)
                                && Progress(io.log, old(io.log), Addresses(iov), k)
    ensures r.Err? <==> io.replies(io.calls - 1).Err?
    ensures r.Err? ==> r.code == io.replies(io.calls - 1).code
    ensures io.calls - old(io.calls) <= if Addresses(iov) == [] then 1 else |Addresses(iov)|
  {
    var ret := io.Transfer(iov);
    if ret.Err? {
      assert Progress(io.log, old(io.log), Addresses(iov), 0);
      return Err(ret.code);
    }
    var total := SumIOV(iov);
    if ret.value == total {
      assert Addresses(iov)[..total] == Addresses(iov);
      return Ok(());
    }
    r := FinishPartial(io, iov, ret.value, old(io.log), old(io.calls));
    assert Addresses(iov)[..total] == Addresses(iov);
  }

  lemma LeadingEntry(s: seq<Iov>)
    requires s != [] && s[0].len > 0
    ensures Addresses(s) != []
  {
  }
}
