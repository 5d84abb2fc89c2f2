/**
 The node registry (cluster.go): a map from node address to that node's
 Storage, with membership changes and chunk get/set routed by address.
 Storage objects are kept by reference, as in the source; `Repr` collects
 every Storage the registry has ever created.
 */
module Clusters {
  import opened Types
  import opened Store

  /** The abstract state of a cluster: each live node's chunks, by address. */
  type Contents = map<string, map<ChunkId, Bytes>>

  /** Abstract effect of SetChunk: the node's store gains the chunk; an unknown node is ignored. */
  function Put(c: Contents, address: string, key: ChunkId, chunk: Bytes): Contents
  {
    if address in c then
      var node: map<ChunkId, Bytes> := c[address][key := chunk];
      c[address := node]
    else c
  }

  /** Abstract lookup of GetChunk: the chunk when both the node and the key exist. */
  predicate Holds(c: Contents, address: string, key: ChunkId)
  {
    address in c && key in c[address]
  }

  /** A cluster none of whose objects changed still has the same contents. */
  twostate lemma ContentsUnchanged(cl: Cluster)
    requires old(cl.Valid()) && unchanged(cl) && unchanged(old(cl.Repr))
    ensures cl.Valid() && cl.Contents() == old(cl.Contents())
  {
  }

  class Cluster {
    /** Live nodes, by address (the `servers` field). */
    var servers: map<string, Storage>
    /** Every Storage this cluster created. */
    ghost var Repr: set<Storage>

    ghost predicate Valid()
      reads this
    {
      && (forall a | a in servers :: servers[a] in Repr)
      && (forall a, b | a in servers && b in servers && a != b :: servers[a] != servers[b])
    }

    /** The chunks held by each live node. */
    ghost function Contents(): (c: Contents)
      reads this, Repr
      requires Valid()
      ensures c.Keys == servers.Keys
    {
      map a | a in servers :: servers[a].db
    }

    /** NewCluster: no nodes. */
    constructor ()
      ensures Valid() && servers == map[] && Contents() == map[]
      ensures Repr == {}
    {
      servers := map[];
      Repr := {};
    }

    /**
     AddServer: `address` is mapped to a fresh empty Storage, replacing any
     Storage (and so any chunks) it had before; no other node changes.
     */
    method AddServer(address: string)
      requires Valid()
      modifies this
      ensures Valid()
      ensures old(Repr) <= Repr && fresh(Repr - old(Repr))
      ensures address in servers && fresh(servers[address])
      ensures Contents() == old(Contents())[address := map[]]
    {
      ghost var old0, c0 := servers, Contents();
      var s := new Storage();
      servers := servers[address := s];
      Repr := Repr + {s};
      forall a, b | a in servers && b in servers && a != b
        ensures servers[a] != servers[b]
      {
        if a != address && b != address {
          assert servers[a] == old0[a] && servers[b] == old0[b];
        }
      }
      forall a | a in servers
        ensures servers[a].db == c0[address := map[]][a]
      {
        if a != address {
          assert servers[a] == old0[a];
        }
      }
    }

    /** GetServer: the node's Storage and true, or null and false for an unknown address. */
    method GetServer(address: string) returns (server: Storage?, ok: bool)
      ensures ok <==> address in servers
      ensures ok ==> server == servers[address]
      ensures !ok ==> server == null
    {
      ok := address in servers;
      server := if ok then servers[address] else null;
    }

    /** DeleteServer: the node leaves the registry; its chunks become unreachable. */
    method DeleteServer(address: string)
      requires Valid()
      modifies this
      ensures Valid() && Repr == old(Repr)
      ensures Contents() == old(Contents()) - {address}
      ensures address !in Contents()
    {
      servers := servers - {address};
    }

    /**
     GetChunk: not-found when the node is unknown or does not hold the key
     (the two cases look the same to the caller); otherwise the node's chunk.
     */
    method GetChunk(address: string, key: ChunkId) returns (chunk: Bytes, ok: bool)
      requires Valid()
      ensures ok <==> Holds(Contents(), address, key)
      ensures ok ==> chunk == Contents()[address][key]
      ensures address !in servers ==> !ok && chunk == []
    {
      var server, found := GetServer(address);
      if !found {
        return [], false;
      }
      chunk, ok := server.Get(key);
    }

    /**
     SetChunk: stores the chunk at a live node; for an unknown address it is
     a silent no-op. No other node and no other key changes.
     */
    method SetChunk(address: string, key: ChunkId, chunk: Bytes)
      requires Valid()
      modifies Repr
      ensures Valid() && servers == old(servers) && Repr == old(Repr)
      ensures Contents() == Put(old(Contents()), address, key, chunk)
      ensures address !in servers ==> Contents() == old(Contents())
      ensures address in servers ==> Holds(Contents(), address, key) && Contents()[address][key] == chunk
    {
      ghost var c0 := Contents();
      var server, found := GetServer(address);
      if !found {
        return;
      }
      server.Set(key, chunk);
      forall a | a in servers
        ensures servers[a].db == Put(c0, address, key, chunk)[a]
      {
        if a != address {
          assert servers[a] != server;
        }
      }
    }
  }
}
