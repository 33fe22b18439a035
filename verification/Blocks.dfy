/** Splitting a byte string into 8-byte blocks and joining blocks back. */
module Blocks {
  import opened CanTypes

  function Zeros(n: nat): (z: seq<Byte>)
    ensures |z| == n && forall i :: 0 <= i < n ==> z[i] == 0
  {
    seq(n, i => 0)
  }

  function NumBlocks(data: seq<Byte>): nat {
    (|data| + 7) / 8
  }

  /** Block i of a write: eight bytes of data, the last block filled up with zeros. */
  function Chunk(data: seq<Byte>, i: nat): (c: Payload)
    requires 8 * i < |data|
    ensures |c| == 8
  {
    var end := if 8 * i + 8 <= |data| then 8 * i + 8 else |data|;
    data[8 * i..end] + Zeros(8 * i + 8 - end)
  }

  function Chunks(data: seq<Byte>): (bs: seq<Payload>)
    ensures |bs| == NumBlocks(data)
    ensures forall i :: 0 <= i < |bs| ==> bs[i] == Chunk(data, i)
  {
    seq(NumBlocks(data), i requires 0 <= i < NumBlocks(data) => Chunk(data, i))
  }

  /** Block i of a read response whose size is a multiple of eight. */
  function Slices(data: seq<Byte>, n: nat): (bs: seq<Payload>)
    requires |data| == 8 * n
    ensures |bs| == n
    ensures forall i :: 0 <= i < n ==> bs[i] == data[8 * i..8 * i + 8]
  {
    seq(n, i requires 0 <= i < n => data[8 * i..8 * i + 8])
  }

  function Padded(data: seq<Byte>): (p: seq<Byte>)
    ensures |p| == 8 * NumBlocks(data)
    ensures data <= p
    ensures forall i :: |data| <= i < |p| ==> p[i] == 0
  {
    data + Zeros(8 * NumBlocks(data) - |data|)
  }

  function Flatten(blocks: seq<Payload>): seq<Byte> {
    if blocks == [] then [] else Flatten(blocks[..|blocks| - 1]) + blocks[|blocks| - 1]
  }

  /** Which blocks carry data. */
  function Flags(blocks: seq<Payload>): (flags: seq<bool>)
    ensures |flags| == |blocks|
    ensures forall i :: 0 <= i < |flags| ==> flags[i] == (blocks[i] != [])
  {
    seq(|blocks|, i requires 0 <= i < |blocks| => blocks[i] != [])
  }

  lemma {:induction false} FlattenSlices(data: seq<Byte>, n: nat, k: nat)
    requires |data| == 8 * n && k <= n
    ensures Flatten(Slices(data, n)[..k]) == data[..8 * k]
  {
    if k > 0 {
      FlattenSlices(data, n, k - 1);
      assert Slices(data, n)[..k][..k - 1] == Slices(data, n)[..k - 1];
    }
  }

  lemma SlicesRoundTrip(data: seq<Byte>, n: nat)
    requires |data| == 8 * n
    ensures Flatten(Slices(data, n)) == data
  {
    FlattenSlices(data, n, n);
    assert Slices(data, n)[..n] == Slices(data, n);
  }

  /** Joining keeps the blocks whole and in order, whatever their lengths. */
  lemma {:induction false} FlattenConcat(x: seq<Payload>, y: seq<Payload>)
    ensures Flatten(x + y) == Flatten(x) + Flatten(y)
    ensures |x| == 1 ==> Flatten(x) == x[0]
  {
    if |x| == 1 {
      assert x[..0] == [];
    }
    if y == [] {
      assert x + y == x;
    } else {
      assert (x + y)[..|x + y| - 1] == x + y[..|y| - 1];
      FlattenConcat(x, y[..|y| - 1]);
    }
  }

  /** Slice i of joined 8-byte blocks is block i. */
  lemma {:induction false} FlattenedSlice(blocks: seq<Payload>, i: nat)
    requires i < |blocks| && forall j :: 0 <= j < |blocks| ==> |blocks[j]| == 8
    ensures |Flatten(blocks)| == 8 * |blocks|
    ensures Flatten(blocks)[8 * i..8 * i + 8] == blocks[i]
  {
    var rest := blocks[..|blocks| - 1];
    if rest != [] {
      FlattenedSlice(rest, if i < |rest| then i else 0);
    }
  }

  /** Byte strings with the same slices are the same. */
  lemma SameSlices(x: seq<Byte>, y: seq<Byte>, n: nat)
    requires |x| == |y| == 8 * n
    requires forall i: nat :: i < n ==> x[8 * i..8 * i + 8] == y[8 * i..8 * i + 8]
    ensures x == y
  {
    assert Slices(x, n) == Slices(y, n);
    SlicesRoundTrip(x, n);
    SlicesRoundTrip(y, n);
  }

  /**
   * Cutting a byte string into blocks and joining them adds only trailing zeros; 1 to 512 bytes make 1 to 64
   * blocks.
   */
  lemma ChunksRoundTrip(data: seq<Byte>)
    ensures Flatten(Chunks(data)) == Padded(data)
    ensures 1 <= |data| <= 512 <==> 1 <= |Chunks(data)| <= 64
    ensures |data| <= 8 * |Chunks(data)| < |data| + 8
  {
    var n := NumBlocks(data);
    forall i | 0 <= i < n
      ensures Chunk(data, i) == Padded(data)[8 * i..8 * i + 8]
    {
    }
    assert Chunks(data) == Slices(Padded(data), n);
    SlicesRoundTrip(Padded(data), n);
  }

  /** What the reassembly guard relies on: a full set of non-empty blocks joins to a non-empty string. */
  lemma FlattenNonEmpty(blocks: seq<Payload>)
    requires blocks != [] && blocks[|blocks| - 1] != []
    ensures Flatten(blocks) != []
  {
  }

  /** What fits one frame: the first eight bytes, or all if there are fewer. */
  function FirstBytes(bytes: seq<Byte>): (p: Payload)
    ensures p == bytes[..if |bytes| < 8 then |bytes| else 8]
  {
    if |bytes| <= 8 then bytes else bytes[..8]
  }

  /** Joins blocks one after the other. */
  method Assemble(blocks: seq<Payload>) returns (data: seq<Byte>)
    ensures data == Flatten(blocks)
  {
    data := [];
    for i := 0 to |blocks|
      invariant data == Flatten(blocks[..i])
    {
      assert blocks[..i + 1][..i] == blocks[..i];
      data := data + blocks[i];
    }
    assert blocks[..|blocks|] == blocks;
  }
}
