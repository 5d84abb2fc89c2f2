/**
 Shared vocabulary of the chunked file store: bytes, chunk identifiers,
 the maximum chunk size and the generator of fresh chunk identifiers.
 */
module Types {

  /** One octet of a chunk payload. */
  newtype byte = b: int | 0 <= b < 256

  type Bytes = seq<byte>

  /**
   A chunk identifier. The system draws a random 128-bit UUID per chunk and
   treats collisions as impossible; the model uses naturals drawn from a
   counter, which are distinct by construction.
   */
  type ChunkId = nat

  /** Maximum number of bytes in one chunk (512 KiB, main.go:13). */
  const ChunkSize: nat := 512 * 1024

  /** Concatenation of a sequence of byte strings, in order. */
  function Flatten(parts: seq<Bytes>): Bytes
  {
    if parts == [] then [] else parts[0] + Flatten(parts[1..])
  }

  /** Appending one more part at the end appends its bytes at the end. */
  lemma {:induction false} FlattenSnoc(parts: seq<Bytes>, last: Bytes)
    ensures Flatten(parts + [last]) == Flatten(parts) + last
  {
    if parts == [] {
      assert parts + [last] == [last];
    } else {
      assert (parts + [last])[1..] == parts[1..] + [last];
      FlattenSnoc(parts[1..], last);
    }
  }

  /**
   The source of fresh chunk identifiers (the role of uuid.New()). One
   source serves the whole service; the upload handler relies on every
   identifier already in use being below `next`.
   */
  class IdSource {
    var next: ChunkId

    constructor ()
      ensures next == 0
    {
      next := 0;
    }

    /** Returns an identifier never returned before by this source. */
    method New() returns (id: ChunkId)
      modifies this
      ensures id == old(next) && next == old(next) + 1
    {
      id := next;
      next := next + 1;
    }
  }
}
