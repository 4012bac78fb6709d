/** The chunk plan of `upload_video`: a file of `size` bytes is cut into
    pieces of CHUNK_SIZE bytes, chunk `i` being read at offset
    `i * CHUNK_SIZE`.  The file is a sequence of bytes and a read is a slice. */
module Chunking {

  /** A byte of the uploaded file. */
  type Byte = bv8

  /** The fixed chunk size, 10 MiB. */
  const CHUNK_SIZE: nat := 10 * 1024 * 1024

  function Min(a: int, b: int): int { if a <= b then a else b }

  /** `size // CHUNK_SIZE`, plus one when a remainder is left over.
      The result is the ceiling of `size / CHUNK_SIZE`: enough chunks to
      hold every byte, and one fewer would not be. */
  function TotalChunks(size: nat): (n: nat)
    ensures n * CHUNK_SIZE >= size
    ensures n > 0 ==> (n - 1) * CHUNK_SIZE < size
    ensures n == 0 <==> size == 0
  {
    size / CHUNK_SIZE + (if size % CHUNK_SIZE != 0 then 1 else 0)
  }

  /** TotalChunks is the least chunk count whose capacity covers the file. */
  lemma TotalChunksIsLeast(size: nat, k: nat)
    ensures k * CHUNK_SIZE >= size <==> k >= TotalChunks(size)
  {
    var n := TotalChunks(size);
    if k < n {
      assert k * CHUNK_SIZE <= (n - 1) * CHUNK_SIZE;
    }
  }

  /** A size that is an exact multiple of CHUNK_SIZE is cut into exactly
      that many chunks: there is no trailing empty or short chunk. */
  lemma ExactMultiple(k: nat)
    ensures TotalChunks(k * CHUNK_SIZE) == k
  {
    TotalChunksIsLeast(k * CHUNK_SIZE, k);
    if k > 0 {
      TotalChunksIsLeast(k * CHUNK_SIZE, k - 1);
    }
  }

  /** The byte offset at which chunk `index` is read. */
  function ChunkOffset(index: nat): nat { index * CHUNK_SIZE }

  /** `seek(offset)` followed by `read(count)`: the bytes found from `offset`
      on, at most `count` of them, fewer at the end of the file and none
      past it. */
  function ReadAt(file: seq<Byte>, offset: nat, count: nat): (r: seq<Byte>)
    ensures |r| == if offset < |file| then Min(count, |file| - offset) else 0
    ensures forall j :: 0 <= j < |r| ==> r[j] == file[offset + j]
  {
    if offset < |file| then file[offset .. Min(offset + count, |file|)] else []
  }

  /** The payload of chunk `index`. */
  function ChunkPayload(file: seq<Byte>, index: nat): seq<Byte>
  {
    ReadAt(file, ChunkOffset(index), CHUNK_SIZE)
  }

  /** The payloads of every chunk, in index order. */
  function Plan(file: seq<Byte>): seq<seq<Byte>>
  {
    seq(TotalChunks(|file|), i requires 0 <= i => ChunkPayload(file, i))
  }

  /** The concatenation of a sequence of byte strings. */
  function Concat(chunks: seq<seq<Byte>>): seq<Byte>
  {
    if chunks == [] then [] else Concat(chunks[..|chunks| - 1]) + chunks[|chunks| - 1]
  }

  /** Every planned chunk is non-empty and at most CHUNK_SIZE bytes; every
      chunk but the last is exactly CHUNK_SIZE bytes, and the last holds
      what remains, `size - (total - 1) * CHUNK_SIZE`.  Each payload is the
      slice of the file at its offset. */
  lemma ChunkShape(file: seq<Byte>, index: nat)
    requires index < TotalChunks(|file|)
    ensures var p := ChunkPayload(file, index);
            && 0 < |p| <= CHUNK_SIZE
            && (index + 1 < TotalChunks(|file|) ==> |p| == CHUNK_SIZE)
            && (index + 1 == TotalChunks(|file|) ==>
                  |p| == |file| - (TotalChunks(|file|) - 1) * CHUNK_SIZE)
            && ChunkOffset(index) + |p| <= |file|
            && p == file[ChunkOffset(index) .. ChunkOffset(index) + |p|]
  {
    var n := TotalChunks(|file|);
    assert index * CHUNK_SIZE <= (n - 1) * CHUNK_SIZE;
    if index + 1 < n {
      assert (index + 1) * CHUNK_SIZE <= (n - 1) * CHUNK_SIZE;
    }
  }

  /** The first `k` chunks, concatenated, are the first `k * CHUNK_SIZE`
      bytes of the file (all of it once `k` reaches the chunk count). */
  lemma {:induction false} PlanPrefix(file: seq<Byte>, k: nat)
    requires k <= TotalChunks(|file|)
    ensures Concat(Plan(file)[..k]) == file[..Min(k * CHUNK_SIZE, |file|)]
  {
    var plan := Plan(file);
    if k == 0 {
      assert plan[..0] == [];
    } else {
      PlanPrefix(file, k - 1);
      var lo := (k - 1) * CHUNK_SIZE;
      var p := plan[k - 1];
      assert Concat(plan[..k]) == Concat(plan[..k - 1]) + p by {
        assert plan[..k][..k - 1] == plan[..k - 1];
      }
      ChunkShape(file, k - 1);
      assert Min(lo, |file|) == lo && lo + |p| == Min(k * CHUNK_SIZE, |file|);
      assert file[..lo] + file[lo .. lo + |p|] == file[..lo + |p|];
    }
  }

  /** Full coverage: the chunks, concatenated in index order, are the file. */
  lemma PlanCoversFile(file: seq<Byte>)
    ensures Concat(Plan(file)) == file
    ensures |Plan(file)| == TotalChunks(|file|)
  {
    var plan := Plan(file);
    PlanPrefix(file, |plan|);
    assert plan[..|plan|] == plan;
  }

  /** A 25 MiB file is sent as three chunks of 10, 10 and 5 MiB. */
  lemma TwentyFiveMiBFile(file: seq<Byte>)
    requires |file| == 25 * 1024 * 1024
    ensures TotalChunks(|file|) == 3
    ensures |ChunkPayload(file, 0)| == 10 * 1024 * 1024
    ensures |ChunkPayload(file, 1)| == 10 * 1024 * 1024
    ensures |ChunkPayload(file, 2)| == 5 * 1024 * 1024
  {
  }
}
