/**
 The per-node chunk store (store.go): a map from chunk identifier to the
 chunk's bytes with get, set and delete. The read/write lock of the source
 is not modelled; every operation is one atomic step.
 */
module Store {
  import opened Types

  class Storage {
    /** The chunks this node holds (the `db` field). */
    var db: map<ChunkId, Bytes>

    /** NewStorage: a store holding no chunk at all. */
    constructor ()
      ensures db == map[]
      ensures forall key :: key !in db
    {
      db := map[];
    }

    /**
     Get: the stored chunk and true when `key` is present, and an empty
     chunk (Go's nil slice) and false otherwise. Changes nothing.
     */
    method Get(key: ChunkId) returns (chunk: Bytes, ok: bool)
      ensures ok <==> key in db
      ensures ok ==> chunk == db[key]
      ensures !ok ==> chunk == []
    {
      ok := key in db;
      chunk := if ok then db[key] else [];
    }

    /** Set: stores or overwrites the chunk under `key`; no other key changes. */
    method Set(key: ChunkId, chunk: Bytes)
      modifies this
      ensures db == old(db)[key := chunk]
      ensures key in db && db[key] == chunk
      ensures forall k :: k != key ==> (k in db <==> k in old(db))
      ensures forall k | k != key && k in db :: db[k] == old(db)[k]
    {
      db := db[key := chunk];
    }

    /** Delete: removes `key` if present (no-op otherwise); no other key changes. */
    method Delete(key: ChunkId)
      modifies this
      ensures db == old(db) - {key}
      ensures key !in db
      ensures key !in old(db) ==> db == old(db)
      ensures forall k | k != key :: (k in db <==> k in old(db))
    {
      db := db - {key};
    }
  }
}
