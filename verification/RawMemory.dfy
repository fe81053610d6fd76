/**
 Byte-addressed memory with 64-bit little-endian words, as the slab allocator
 sees it through `reinterpret_cast`.  Index = address; address 0 is nullptr.
 */
module RawMemory {
  type Byte = b: int | 0 <= b < 256
  const WORD: nat := 8
  /** Addresses fit in one word. */
  ghost const ADDRESS_SPACE: nat := Pow256(WORD)

  function Pow256(k: nat): (p: nat)
    ensures p >= 1
  {
    if k == 0 then 1 else 256 * Pow256(k - 1)
  }

  function Encode(w: nat, k: nat): (r: seq<Byte>)
    ensures |r| == k
  {
    if k == 0 then [] else [w % 256] + Encode(w / 256, k - 1)
  }

  function Decode(b: seq<Byte>): nat {
    if b == [] then 0 else b[0] + 256 * Decode(b[1..])
  }

  lemma {:induction false} DecodeEncode(w: nat, k: nat)
    requires w < Pow256(k)
    ensures Decode(Encode(w, k)) == w
  {
    if k > 0 {
      DecodeEncode(w / 256, k - 1);
      assert Encode(w, k)[1..] == Encode(w / 256, k - 1);
    }
  }

  function Load(m: seq<Byte>, a: nat): nat
    requires a + WORD <= |m|
  {
    Decode(m[a..a + WORD])
  }

  function Store(m: seq<Byte>, a: nat, w: nat): (r: seq<Byte>)
    requires a + WORD <= |m|
    ensures |r| == |m|
  {
    m[..a] + Encode(w, WORD) + m[a + WORD..]
  }

  /** `m'` differs from `m` at most on [lo, hi). */
  ghost predicate SameOutside(m: seq<Byte>, m': seq<Byte>, lo: int, hi: int) {
    |m| == |m'| && forall a :: 0 <= a < |m| && !(lo <= a < hi) ==> m'[a] == m[a]
  }

  lemma LoadStored(m: seq<Byte>, a: nat, w: nat)
    requires a + WORD <= |m| && w < ADDRESS_SPACE
    ensures Load(Store(m, a, w), a) == w
    ensures SameOutside(m, Store(m, a, w), a, a + WORD)
  {
    assert Store(m, a, w)[a..a + WORD] == Encode(w, WORD);
    DecodeEncode(w, WORD);
  }

  lemma LoadFrame(m: seq<Byte>, m': seq<Byte>, lo: int, hi: int, a: nat)
    requires SameOutside(m, m', lo, hi) && a + WORD <= |m|
    requires a + WORD <= lo || hi <= a
    ensures Load(m', a) == Load(m, a)
  {
    assert m'[a..a + WORD] == m[a..a + WORD];
  }

  lemma NextByte(m: seq<Byte>, bytes: seq<Byte>, a: nat, i: nat)
    requires i < |bytes| && a + |bytes| <= |m|
    ensures (m[..a] + bytes[..i] + m[a + i..])[a + i := bytes[i]] == m[..a] + bytes[..i + 1] + m[a + i + 1..]
  {
  }

  /** Writes one word in place. */
  method StoreWord(mem: array<Byte>, a: nat, w: nat)
    requires a + WORD <= mem.Length && w < ADDRESS_SPACE
    modifies mem
    ensures mem[..] == Store(old(mem[..]), a, w)
    ensures Load(mem[..], a) == w && SameOutside(old(mem[..]), mem[..], a, a + WORD)
  {
    ghost var m := mem[..];
    var bytes := Encode(w, WORD);
    for i := 0 to WORD
      invariant mem[..] == m[..a] + bytes[..i] + m[a + i..]
    {
      NextByte(m, bytes, a, i);
      mem[a + i] := bytes[i];
    }
    LoadStored(m, a, w);
  }

  method LoadWord(mem: array<Byte>, a: nat) returns (w: nat)
    requires a + WORD <= mem.Length
    ensures w == Load(mem[..], a)
  {
    w := Decode(mem[a..a + WORD]);
    assert mem[..][a..a + WORD] == mem[a..a + WORD];
  }
}
