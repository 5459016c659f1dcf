/** Top-k indices on the wire: little-endian unsigned 32-bit numbers. */
module Indices {
  import opened Wrappers

  type Byte = b: nat | b < 256

  const LIMIT: nat := 0x1_0000_0000

  predicate Packable(indices: seq<int>) {
    forall i | 0 <= i < |indices| :: 0 <= indices[i] < LIMIT
  }

  /** The n lowest bytes of a number, the least significant first. */
  function Bytes(value: nat, n: nat): (w: seq<Byte>)
    ensures |w| == n
    decreases n
  {
    if n == 0 then [] else [(value as int) % 256] + Bytes(value / 256, n - 1)
  }

  function Number(w: seq<Byte>): nat {
    if w == [] then 0 else w[0] as nat + 256 * Number(w[1..])
  }

  /** A length that is a multiple of four. */
  predicate Aligned(n: nat) {
    n == 0 || (n >= 4 && Aligned(n - 4))
  }

  lemma {:induction false} AlignedIs(n: nat)
    ensures Aligned(n) <==> n % 4 == 0
  {
    if n >= 4 {
      AlignedIs(n - 4);
      assert n % 4 == (n - 4) % 4;
    }
  }

  // ---------- sequences of words ----------

  function Joined(word: nat -> seq<Byte>, values: seq<nat>): (data: seq<Byte>) {
    if values == [] then [] else Joined(word, values[..|values| - 1]) + word(values[|values| - 1])
  }

  function Cut(number: seq<Byte> -> nat, data: seq<Byte>): (values: seq<nat>)
    requires Aligned(|data|)
  {
    if data == [] then [] else Cut(number, data[..|data| - 4]) + [number(data[|data| - 4..])]
  }

  ghost predicate FourWide(word: nat -> seq<Byte>) {
    forall value :: |word(value)| == 4
  }

  lemma {:induction false} JoinedLength(word: nat -> seq<Byte>, values: seq<nat>)
    requires FourWide(word)
    ensures |Joined(word, values)| == 4 * |values| && Aligned(|Joined(word, values)|)
  {
    if values != [] {
      JoinedLength(word, values[..|values| - 1]);
    }
  }

  lemma JoinedLast(word: nat -> seq<Byte>, values: seq<nat>, value: nat)
    ensures Joined(word, values + [value]) == Joined(word, values) + word(value)
  {
    assert (values + [value])[..|values|] == values;
  }

  lemma CutLast(number: seq<Byte> -> nat, data: seq<Byte>, w: seq<Byte>)
    requires Aligned(|data|) && |w| == 4
    ensures Cut(number, data + w) == Cut(number, data) + [number(w)]
  {
    assert (data + w)[..|data|] == data;
    assert (data + w)[|data|..] == w;
  }

  lemma {:induction false} CutJoined(word: nat -> seq<Byte>, number: seq<Byte> -> nat, values: seq<nat>)
    requires FourWide(word) && forall value | value in values :: number(word(value)) == value
    ensures Aligned(|Joined(word, values)|) && Cut(number, Joined(word, values)) == values
  {
    JoinedLength(word, values);
    if values != [] {
      var before, value := values[..|values| - 1], values[|values| - 1];
      CutJoined(word, number, before);
      CutLast(number, Joined(word, before), word(value));
      assert values == before + [value];
    }
  }

  lemma JoinedCutStep(word: nat -> seq<Byte>, number: seq<Byte> -> nat, data: seq<Byte>, w: seq<Byte>)
    requires Aligned(|data|) && |w| == 4 && word(number(w)) == w && Joined(word, Cut(number, data)) == data
    ensures Joined(word, Cut(number, data + w)) == data + w
  {
    CutLast(number, data, w);
    JoinedLast(word, Cut(number, data), number(w));
  }

  lemma {:induction false} JoinedCut(word: nat -> seq<Byte>, number: seq<Byte> -> nat, data: seq<Byte>)
    requires Aligned(|data|) && forall w | |w| == 4 :: word(number(w)) == w
    ensures Joined(word, Cut(number, data)) == data
  {
    if data != [] {
      var before, w := data[..|data| - 4], data[|data| - 4..];
      JoinedCut(word, number, before);
      JoinedCutStep(word, number, before, w);
      assert data == before + w;
    }
  }

  // ---------- the Worker's functions ----------

  function Word(value: nat): (w: seq<Byte>)
    ensures |w| == 4
  {
    Bytes(value, 4)
  }

  function Packed(indices: seq<int>): (data: seq<Byte>)
    requires Packable(indices)
    ensures |data| == 4 * |indices| && Aligned(|data|)
  {
    JoinedLength(Word, indices);
    Joined(Word, indices)
  }

  function PackU32(indices: seq<int>): Option<seq<Byte>> {
    if Packable(indices) then Some(Packed(indices)) else None
  }

  function UnpackU32(data: seq<Byte>): Option<seq<nat>> {
    if Aligned(|data|) then Some(Unpacked(data)) else None
  }

  function Unpacked(data: seq<Byte>): (indices: seq<nat>)
    requires Aligned(|data|)
  {
    Cut(Number, data)
  }

  /** How many numbers n bytes can tell apart. */
  function Range(n: nat): (r: nat)
    ensures r > 0
  {
    if n == 0 then 1 else 256 * Range(n - 1)
  }

  lemma {:induction false} NumberBytes(value: nat, n: nat)
    requires value < Range(n)
    ensures Number(Bytes(value, n)) == value
    decreases n
  {
    if n > 0 {
      NumberBytes(value / 256, n - 1);
      assert Bytes(value, n)[1..] == Bytes(value / 256, n - 1);
    }
  }

  lemma {:induction false} BytesNumber(w: seq<Byte>)
    ensures Number(w) < Range(|w|) && Bytes(Number(w), |w|) == w
  {
    if w != [] {
      BytesNumber(w[1..]);
      assert Number(w) / 256 == Number(w[1..]);
      assert w == [w[0]] + w[1..];
    }
  }

  lemma FourBytes()
    ensures Range(4) == LIMIT
  {
    assert Range(1) == 256 * Range(0);
    assert Range(2) == 256 * Range(1);
    assert Range(3) == 256 * Range(2);
  }

  lemma WordNumber(value: nat)
    requires value < LIMIT
    ensures Number(Word(value)) == value
  {
    FourBytes();
    NumberBytes(value, 4);
  }

  lemma NumberWord(w: seq<Byte>)
    requires |w| == 4
    ensures Number(w) < LIMIT && Word(Number(w)) == w
  {
    FourBytes();
    BytesNumber(w);
  }

  /** Packing loses nothing. */
  lemma UnpackPacked(indices: seq<int>)
    requires Packable(indices)
    ensures Unpacked(Packed(indices)) == indices
  {
    forall value: nat | value in indices ensures Number(Word(value)) == value {
      WordNumber(value);
    }
    CutJoined(Word, Number, indices);
  }

  lemma {:induction false} CutBelow(number: seq<Byte> -> nat, data: seq<Byte>)
    requires Aligned(|data|) && forall w | |w| == 4 :: number(w) < LIMIT
    ensures Packable(Cut(number, data))
  {
    if data != [] {
      CutBelow(number, data[..|data| - 4]);
    }
  }

  /** Unpacking loses nothing, and gives numbers that can be packed. */
  lemma PackUnpacked(data: seq<Byte>)
    requires Aligned(|data|)
    ensures Packable(Unpacked(data)) && Packed(Unpacked(data)) == data
  {
    forall w: seq<Byte> | |w| == 4 ensures Number(w) < LIMIT && Word(Number(w)) == w {
      NumberWord(w);
    }
    CutBelow(Number, data);
    JoinedCut(Word, Number, data);
  }

  // ---------- the Master's loops over a byte buffer ----------

  method PutWord(data: array<Byte>, offset: nat, value: nat)
    requires offset + 4 <= data.Length && value < LIMIT
    modifies data
    ensures data[..offset + 4] == old(data[..offset]) + Word(value)
  {
    var w := Word(value);
    data[offset], data[offset + 1], data[offset + 2], data[offset + 3] := w[0], w[1], w[2], w[3];
    assert data[..offset + 4] == old(data[..offset]) + w;
  }

  lemma PackedNext(indices: seq<int>, n: nat)
    requires n < |indices| && Packable(indices[..n]) && 0 <= indices[n] < LIMIT
    ensures Packable(indices[..n+1]) && Packed(indices[..n+1]) == Packed(indices[..n]) + Word(indices[n])
  {
    assert indices[..n+1] == indices[..n] + [indices[n]];
    JoinedLast(Word, indices[..n], indices[n]);
  }

  /** The same bytes as the Worker's function, and the same refusals. */
  method PackUint32Indices(indices: seq<int>) returns (r: Option<seq<Byte>>)
    ensures r == PackU32(indices)
  {
    if |indices| == 0 {
      return Some([]);
    }
    var data := new Byte[4 * |indices|](i => 0);
    for index := 0 to |indices|
      invariant Packable(indices[..index])
      invariant data[..4 * index] == Packed(indices[..index])
    {
      var value := indices[index];
      if value < 0 || value >= LIMIT {
        return None;
      }
      PackedNext(indices, index);
      PutWord(data, 4 * index, value);
    }
    assert indices[..|indices|] == indices;
    assert data[..] == data[..4 * |indices|];
    return Some(data[..]);
  }

  lemma NextWord(data: seq<Byte>, offset: nat)
    requires offset + 4 <= |data| && Aligned(offset)
    ensures Unpacked(data[..offset + 4]) == Unpacked(data[..offset]) + [Number(data[offset..offset + 4])]
  {
    assert data[..offset + 4] == data[..offset] + data[offset..offset + 4];
    CutLast(Number, data[..offset], data[offset..offset + 4]);
  }

  lemma NextFits(n: nat, offset: nat)
    requires Aligned(n) && Aligned(offset) && offset < n
    ensures offset + 4 <= n
  {
    AlignedIs(n);
    AlignedIs(offset);
  }

  method UnpackUint32Indices(data: seq<Byte>) returns (r: Option<seq<nat>>)
    ensures r == UnpackU32(data)
  {
    AlignedIs(|data|);
    if |data| % 4 != 0 {
      return None;
    }
    var indices: seq<nat> := [];
    var offset := 0;
    while offset < |data|
      invariant 0 <= offset <= |data| && Aligned(offset)
      invariant indices == Unpacked(data[..offset])
    {
      NextFits(|data|, offset);
      NextWord(data, offset);
      indices := indices + [Number(data[offset..offset + 4])];
      offset := offset + 4;
    }
    assert data[..offset] == data;
    return Some(indices);
  }
}
