/**
 The download handler (download.go): looks the File up by name and writes
 the bytes of its chunks, in list order, resolving each chunk's node in the
 owner table and fetching the bytes from that node. It stops at the first
 chunk whose owner entry or bytes are missing; what was already written
 stays written.
 */
module Downloads {
  import opened Types
  import opened Clusters
  import opened Database

  /** How the request ended. Every failure is reported after the bytes written so far. */
  datatype Outcome = Ok | BadRequest | FileNotFound | ChunkMetaMissing | ChunkMissing

  /**
   The HTTP status the client receives when the handler ends with outcome
   `o` after `written` calls of Write. The first Write sends 200, and a
   later error cannot change it; before any Write, the error's own status is
   sent; a handler that sends nothing at all answers 200.
   */
  function Status(o: Outcome, written: nat): (code: nat)
    ensures code == 200 <==> o == Ok || written > 0
    ensures code == 400 <==> o == BadRequest && written == 0
    ensures code == 404 <==> o in {FileNotFound, ChunkMetaMissing, ChunkMissing} && written == 0
  {
    if written > 0 then 200
    else match o
      case Ok => 200
      case BadRequest => 400
      case _ => 404
  }

  /** What looking up one chunk finds: its bytes, no owner entry, or an owner that lacks it. */
  datatype Fetch = Got(chunk: Bytes) | NoOwner | NoChunk

  /** The lookup of chunk `id` against the owner table and the cluster contents. */
  function Resolve(owners: map<ChunkId, string>, c: Contents, id: ChunkId): (f: Fetch)
    ensures f == NoOwner <==> id !in owners
    ensures f.Got? <==> id in owners && Holds(c, owners[id], id)
    ensures f.Got? ==> f.chunk == c[owners[id]][id]
  {
    if id !in owners then NoOwner
    else if !Holds(c, owners[id], id) then NoChunk
    else Got(c[owners[id]][id])
  }

  /** The bytes of the longest run of chunks, from the head of `ids`, that all resolve. */
  function Pieces(owners: map<ChunkId, string>, c: Contents, ids: seq<ChunkId>): seq<Bytes>
  {
    if ids == [] then []
    else match Resolve(owners, c, ids[0])
      case Got(b) => [b] + Pieces(owners, c, ids[1..])
      case _ => []
  }

  /**
   Pieces is the resolving prefix: piece j is what chunk j resolves to, and
   the chunk after the last piece (if any) does not resolve.
   */
  lemma {:induction false} PiecesAt(owners: map<ChunkId, string>, c: Contents, ids: seq<ChunkId>)
    ensures |Pieces(owners, c, ids)| <= |ids|
    ensures forall j | 0 <= j < |Pieces(owners, c, ids)| ::
      Resolve(owners, c, ids[j]) == Got(Pieces(owners, c, ids)[j])
    ensures |Pieces(owners, c, ids)| < |ids| ==> !Resolve(owners, c, ids[|Pieces(owners, c, ids)|]).Got?
  {
    if ids != [] && Resolve(owners, c, ids[0]).Got? {
      var ps, rest := Pieces(owners, c, ids), Pieces(owners, c, ids[1..]);
      PiecesAt(owners, c, ids[1..]);
      assert ps == [Resolve(owners, c, ids[0]).chunk] + rest;
      forall j | 0 <= j < |ps|
        ensures Resolve(owners, c, ids[j]) == Got(ps[j])
      {
        if j > 0 {
          assert ps[j] == rest[j - 1] && ids[j] == ids[1..][j - 1];
        }
      }
      assert |ps| < |ids| ==> ids[|ps|] == ids[1..][|rest|];
    }
  }

  /** When every chunk resolves, the pieces are exactly the resolved chunks, all of them. */
  lemma {:induction false} PiecesAll(owners: map<ChunkId, string>, c: Contents, ids: seq<ChunkId>, bs: seq<Bytes>)
    requires |bs| == |ids|
    requires forall j | 0 <= j < |ids| :: Resolve(owners, c, ids[j]) == Got(bs[j])
    ensures Pieces(owners, c, ids) == bs
  {
    if ids != [] {
      assert Resolve(owners, c, ids[0]) == Got(bs[0]);
      forall j | 0 <= j < |ids[1..]|
        ensures Resolve(owners, c, ids[1..][j]) == Got(bs[1..][j])
      {
        assert ids[1..][j] == ids[j + 1] && bs[1..][j] == bs[j + 1];
      }
      PiecesAll(owners, c, ids[1..], bs[1..]);
      assert bs == [bs[0]] + bs[1..];
    }
  }

  /** The outcome of the chunk loop: Ok when every chunk resolves, else the first failure's kind. */
  function Verdict(owners: map<ChunkId, string>, c: Contents, ids: seq<ChunkId>): Outcome
  {
    var n := |Pieces(owners, c, ids)|;
    if n >= |ids| then Ok
    else if ids[n] !in owners then ChunkMetaMissing
    else ChunkMissing
  }

  /** The chunk loop succeeds exactly when every chunk of the list resolves. */
  lemma VerdictOk(owners: map<ChunkId, string>, c: Contents, ids: seq<ChunkId>)
    ensures Verdict(owners, c, ids) == Ok <==> forall j | 0 <= j < |ids| :: Resolve(owners, c, ids[j]).Got?
  {
    PiecesAt(owners, c, ids);
  }

  /**
   One round of the chunk loop, with n pieces written: if chunk n resolves it
   is piece n and the output grows by its bytes; otherwise the pieces end at
   n and the verdict names the failure.
   */
  lemma PieceStep(owners: map<ChunkId, string>, c: Contents, ids: seq<ChunkId>, n: nat)
    requires n < |ids| && n <= |Pieces(owners, c, ids)|
    ensures Resolve(owners, c, ids[n]).Got? ==>
      var ps := Pieces(owners, c, ids);
      && n < |ps| && ps[n] == Resolve(owners, c, ids[n]).chunk
      && Flatten(ps[..n + 1]) == Flatten(ps[..n]) + ps[n]
    ensures !Resolve(owners, c, ids[n]).Got? ==>
      var ps := Pieces(owners, c, ids);
      && |ps| == n && Flatten(ps[..n]) == Flatten(ps)
      && Verdict(owners, c, ids) == if ids[n] !in owners then ChunkMetaMissing else ChunkMissing
  {
    var ps := Pieces(owners, c, ids);
    PiecesAt(owners, c, ids);
    assert n < |ps| ==> Resolve(owners, c, ids[n]) == Got(ps[n]);
    if Resolve(owners, c, ids[n]).Got? {
      assert n < |ps|;
      assert ps[..n + 1] == ps[..n] + [ps[n]];
      FlattenSnoc(ps[..n], ps[n]);
    } else {
      assert ps[..n] == ps;
    }
  }

  /** When the loop has run over every chunk, all of them were pieces and the verdict is Ok. */
  lemma PiecesDone(owners: map<ChunkId, string>, c: Contents, ids: seq<ChunkId>)
    requires |ids| <= |Pieces(owners, c, ids)|
    ensures Flatten(Pieces(owners, c, ids)[..|ids|]) == Flatten(Pieces(owners, c, ids))
    ensures Verdict(owners, c, ids) == Ok
  {
    PiecesAt(owners, c, ids);
    assert Pieces(owners, c, ids)[..|ids|] == Pieces(owners, c, ids);
  }

  /**
   Two states in which every chunk of the list resolves alike serve the same
   pieces and end with the same verdict.
   */
  lemma {:induction false} PiecesAgree(owners: map<ChunkId, string>, c: Contents,
                                       owners': map<ChunkId, string>, c': Contents, ids: seq<ChunkId>)
    requires forall j | 0 <= j < |ids| :: Resolve(owners', c', ids[j]) == Resolve(owners, c, ids[j])
    ensures Pieces(owners', c', ids) == Pieces(owners, c, ids)
    ensures Verdict(owners', c', ids) == Verdict(owners, c, ids)
  {
    if ids != [] {
      assert Resolve(owners', c', ids[0]) == Resolve(owners, c, ids[0]);
      forall j | 0 <= j < |ids[1..]|
        ensures Resolve(owners', c', ids[1..][j]) == Resolve(owners, c, ids[1..][j])
      {
        assert ids[1..][j] == ids[j + 1];
      }
      PiecesAgree(owners, c, owners', c', ids[1..]);
      var n: nat := |Pieces(owners, c, ids)|;
      assert n < |ids| ==> Resolve(owners', c', ids[n]) == Resolve(owners, c, ids[n]);
    }
  }

  class Download {
    const db: DB
    const cluster: Cluster

    /** NewDownload. */
    constructor (db: DB, cluster: Cluster)
      ensures this.db == db && this.cluster == cluster
    {
      this.db := db;
      this.cluster := cluster;
    }

    /**
     Handler, with the file name taken from the request path, the response
     body returned as `out` and the status the client receives as `status`.
     `header` is the response's status line: 0 until the first Write or
     http.Error fixes it. Nothing in the DB or the cluster changes.
     */
    method Handler(fileName: string) returns (out: Bytes, outcome: Outcome, status: nat)
      requires cluster.Valid()
      ensures fileName == "" ==> out == [] && outcome == BadRequest && status == 400
      ensures fileName != "" && fileName !in db.files ==> out == [] && outcome == FileNotFound && status == 404
      ensures fileName != "" && fileName in db.files ==>
        var ids := db.files[fileName].chunks;
        var ps := Pieces(db.chunksServers, cluster.Contents(), ids);
        && out == Flatten(ps)
        && outcome == Verdict(db.chunksServers, cluster.Contents(), ids)
        && status == Status(outcome, |ps|)
    {
      if fileName == "" {
        return [], BadRequest, 400;
      }
      var file, ok := db.GetFile(fileName);
      if !ok {
        return [], FileNotFound, 404;
      }
      ghost var owners, contents := db.chunksServers, old(cluster.Contents());
      var header := 0;
      out := [];
      for n := 0 to |file.chunks|
        invariant n <= |Pieces(owners, contents, file.chunks)|
        invariant out == Flatten(Pieces(owners, contents, file.chunks)[..n])
        invariant header == if n == 0 then 0 else 200
      {
        var chunk := file.chunks[n];
        PieceStep(owners, contents, file.chunks, n);
        var serverAddress, found := db.GetChunkServer(chunk);
        if !found {
          ContentsUnchanged(cluster);
          header := if header == 0 then 404 else header;
          return out, ChunkMetaMissing, header;
        }
        var b, stored := cluster.GetChunk(serverAddress, chunk);
        ContentsUnchanged(cluster);
        if !stored {
          header := if header == 0 then 404 else header;
          return out, ChunkMissing, header;
        }
        header := if header == 0 then 200 else header;
        out := out + b;
      }
      PiecesDone(owners, contents, file.chunks);
      ContentsUnchanged(cluster);
      outcome := Ok;
      status := if header == 0 then 200 else header;
    }
  }
}
