/**
 The service wiring (main.go) and the properties it exists for: a file
 uploaded through the upload handler is served back, byte for byte, by the
 download handler sharing the same DB and cluster, and an upload leaves
 every other file's download as it was.
 */
module Service {
  import opened Types
  import opened Clusters
  import opened Database
  import opened Uploads
  import opened Downloads

  /** The storage node addresses, in round-robin order. */
  const StorageServers: seq<string> := ["storage0", "storage1", "storage2", "storage3", "storage4"]

  /**
   Reading back a plan: once every unit of a plan with distinct identifiers
   has been recorded and stored on live nodes, every identifier of the plan
   resolves to its own chunk, so the download loop yields all chunks, in
   order, and succeeds.
   */
  lemma DownloadAfterUpload(owners: map<ChunkId, string>, c: Contents, servers: seq<string>,
                            first: ChunkId, cs: seq<Bytes>)
    requires |servers| > 0
    requires forall j | 0 <= j < |servers| :: servers[j] in c
    ensures
      var p := Plan(servers, first, cs);
      && Pieces(ApplyOwners(owners, p), ApplyStore(c, p), IdsOf(p)) == cs
      && Verdict(ApplyOwners(owners, p), ApplyStore(c, p), IdsOf(p)) == Ok
  {
    var p := Plan(servers, first, cs);
    var owners', c', ids := ApplyOwners(owners, p), ApplyStore(c, p), IdsOf(p);
    PlanAt(servers, first, cs);
    PlanIds(servers, first, cs);
    OwnersRecorded(owners, p);
    ChunksStored(c, p);
    forall j | 0 <= j < |ids|
      ensures Resolve(owners', c', ids[j]) == Got(cs[j])
    {
      assert p[j] == Unit(servers[Slot(j, |servers|)], first + j, cs[j]);
      assert ids[j] == p[j].id;
    }
    PiecesAll(owners', c', ids, cs);
    VerdictOk(owners', c', ids);
  }

  /** An identifier outside a plan resolves after the plan exactly as before it. */
  lemma {:induction false} ResolveUntouched(owners: map<ChunkId, string>, c: Contents, p: seq<Unit>, id: ChunkId)
    requires DistinctIds(p) && id !in IdSet(p)
    ensures Resolve(ApplyOwners(owners, p), ApplyStore(c, p), id) == Resolve(owners, c, id)
  {
    OwnersUntouched(owners, p, id);
    ChunksStored(c, p);
    if id in owners && owners[id] in c {
      ChunksUntouched(c, p, owners[id], id);
    }
  }

  /**
   Uploading one name leaves every other name as it was: the same File, and
   a download of it serves the same pieces with the same verdict. This rests
   on the id source being ahead of every identifier in use.
   */
  lemma OtherFilesKept(files: map<string, File>, owners: map<ChunkId, string>, c: Contents,
                       servers: seq<string>, first: ChunkId, cs: seq<Bytes>, file: File, other: string)
    requires |servers| > 0 && Issued(files, owners, c, first) && other != file.fileName
    ensures other in files[file.fileName := file] <==> other in files
    ensures other in files ==>
      var p := Plan(servers, first, cs);
      var ids := files[other].chunks;
      && files[file.fileName := file][other] == files[other]
      && Pieces(ApplyOwners(owners, p), ApplyStore(c, p), ids) == Pieces(owners, c, ids)
      && Verdict(ApplyOwners(owners, p), ApplyStore(c, p), ids) == Verdict(owners, c, ids)
  {
    if other in files {
      var p := Plan(servers, first, cs);
      var ids := files[other].chunks;
      PlanIds(servers, first, cs);
      PlanIdsFresh(servers, first, cs);
      forall j | 0 <= j < |ids|
        ensures Resolve(ApplyOwners(owners, p), ApplyStore(c, p), ids[j]) == Resolve(owners, c, ids[j])
      {
        assert ids[j] < first;
        ResolveUntouched(owners, c, p, ids[j]);
      }
      PiecesAgree(owners, c, ApplyOwners(owners, p), ApplyStore(c, p), ids);
    }
  }

  /**
   Upload then download of the same name, with nothing else in between: the
   download serves exactly the bytes the part delivered before end of input
   or its first read error, with outcome Ok. A part without a file name is
   committed under "", which the download refuses.
   */
  method UploadThenDownload(up: Upload, down: Download, fileName: string, contentType: string,
                            stream: seq<ReadResult>)
    returns (reply: Reply, out: Bytes, outcome: Outcome, status: nat)
    requires up.db == down.db && up.cluster == down.cluster
    requires |up.servers| > 0 && up.cluster.Valid()
    requires forall j | 0 <= j < |up.servers| :: up.servers[j] in up.cluster.servers
    requires Issued(up.db.files, up.db.chunksServers, up.cluster.Contents(), up.uuids.next)
    modifies up.db, up.cluster.Repr, up.uuids
    ensures fileName != "" ==> out == Received(stream) && outcome == Ok && status == 200
    ensures fileName == "" ==> out == [] && outcome == BadRequest && status == 400
    ensures reply == if ReadFailed(stream) then StatusInternalServerError else StatusOK
  {
    ghost var owners, c, first := up.db.chunksServers, up.cluster.Contents(), up.uuids.next;
    reply := up.Handler(fileName, contentType, stream);
    out, outcome, status := down.Handler(fileName);
    DownloadAfterUpload(owners, c, up.servers, first, Chunks(stream));
    ChunksCoverStream(stream);
  }

  /**
   An upload of one name, between two downloads of another name, does not
   change what that other download serves, its outcome or its status.
   */
  method UploadKeepsOtherFiles(up: Upload, down: Download, fileName: string, contentType: string,
                               stream: seq<ReadResult>, other: string)
    returns (before: Bytes, after: Bytes, outcomeBefore: Outcome, outcomeAfter: Outcome,
             statusBefore: nat, statusAfter: nat)
    requires up.db == down.db && up.cluster == down.cluster
    requires |up.servers| > 0 && up.cluster.Valid()
    requires Issued(up.db.files, up.db.chunksServers, up.cluster.Contents(), up.uuids.next)
    requires other != fileName
    modifies up.db, up.cluster.Repr, up.uuids
    ensures after == before && outcomeAfter == outcomeBefore && statusAfter == statusBefore
  {
    before, outcomeBefore, statusBefore := down.Handler(other);
    ContentsUnchanged(up.cluster);
    ghost var files, owners, c, first := up.db.files, up.db.chunksServers, up.cluster.Contents(), up.uuids.next;
    var reply := up.Handler(fileName, contentType, stream);
    after, outcomeAfter, statusAfter := down.Handler(other);
    PlanIds(up.servers, first, Chunks(stream));
    OtherFilesKept(files, owners, c, up.servers, first, Chunks(stream),
      File(fileName, contentType, IdsOf(Plan(up.servers, first, Chunks(stream)))), other);
  }

  /**
   main's setup: an empty DB, a cluster with every address of
   StorageServers registered with an empty store, and a fresh id source.
   */
  method Setup() returns (db: DB, cluster: Cluster, uuids: IdSource)
    ensures fresh(db) && fresh(cluster) && fresh(cluster.Repr) && fresh(uuids) && cluster.Valid()
    ensures db.files == map[] && db.chunksServers == map[]
    ensures forall j | 0 <= j < |StorageServers| :: StorageServers[j] in cluster.servers
    ensures forall a | a in cluster.Contents() :: a in StorageServers && cluster.Contents()[a] == map[]
    ensures Issued(db.files, db.chunksServers, cluster.Contents(), uuids.next)
  {
    cluster := new Cluster();
    db := new DB();
    uuids := new IdSource();
    for i := 0 to |StorageServers|
      invariant fresh(cluster) && cluster.Valid() && fresh(cluster.Repr)
      invariant db.files == map[] && db.chunksServers == map[]
      invariant forall j | 0 <= j < i :: StorageServers[j] in cluster.servers
      invariant forall a | a in cluster.Contents() :: a in StorageServers[..i] && cluster.Contents()[a] == map[]
    {
      cluster.AddServer(StorageServers[i]);
    }
    assert StorageServers[..|StorageServers|] == StorageServers;
  }

  /**
   The whole service on a fresh start: set up as main does, upload a file,
   download it by name, and get back exactly the bytes uploaded.
   */
  method Scenario(fileName: string, contentType: string, stream: seq<ReadResult>)
    returns (reply: Reply, out: Bytes, outcome: Outcome, status: nat)
    ensures fileName != "" ==> out == Received(stream) && outcome == Ok && status == 200
    ensures fileName == "" ==> out == [] && outcome == BadRequest && status == 400
    ensures reply == if ReadFailed(stream) then StatusInternalServerError else StatusOK
  {
    var db, cluster, uuids := Setup();
    var up := new Upload(db, cluster, StorageServers, uuids);
    var down := new Download(db, cluster);
    reply, out, outcome, status := UploadThenDownload(up, down, fileName, contentType, stream);
  }
}
