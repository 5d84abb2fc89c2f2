/**
 The upload coordinator (upload.go): reads the uploaded part in reads of at
 most ChunkSize bytes, gives every non-empty read a fresh chunk identifier,
 assigns it round-robin to the configured node list, records the owner and
 stores the bytes, and finally commits the File record.

 The source launches one goroutine per chunk from the read loop and waits
 for all of them before committing. The model keeps that shape: the read
 loop returns the launched jobs, and Wait runs them one after the other in
 launch order. Each job writes only its own fresh identifier and
 `processChunk` never fails, so this order reaches the same final state as
 any interleaving.
 */
module Uploads {
  import opened Types
  import opened Store
  import opened Clusters
  import opened Database

  /** The error a read returns: none, end of input, or any other I/O error. */
  datatype ReadErr = NoErr | EOF | IOErr

  /** One call of the part's Read: the bytes it delivered and its error. */
  datatype ReadResult = ReadResult(data: Bytes, err: ReadErr)

  /**
   The uploaded part, as the results of its successive reads. Once the
   sequence is used up every further read delivers nothing and end of input.
   */
  function ReadAt(stream: seq<ReadResult>, k: nat): ReadResult
  {
    if k < |stream| then stream[k] else ReadResult([], EOF)
  }

  /** A read the loop turns into a chunk: no I/O error and at least one byte. */
  predicate Dispatches(r: ReadResult)
  {
    r.err != IOErr && |r.data| > 0
  }

  /**
   The chunks an upload dispatches from read k on: the data of each read
   until the first one that fails with an I/O error or delivers zero bytes.
   */
  function ChunksFrom(stream: seq<ReadResult>, k: nat): seq<Bytes>
    decreases |stream| - k
  {
    if k < |stream| && Dispatches(stream[k]) then [stream[k].data] + ChunksFrom(stream, k + 1) else []
  }

  /** The chunks an upload dispatches, in read order. */
  function Chunks(stream: seq<ReadResult>): seq<Bytes>
  {
    ChunksFrom(stream, 0)
  }

  /**
   Chunks is the longest run of dispatching reads at the head of the stream:
   each chunk is its read's data, and the read after the last chunk (if any)
   does not dispatch.
   */
  lemma {:induction false} ChunksFromAt(stream: seq<ReadResult>, k: nat)
    requires k <= |stream|
    ensures |ChunksFrom(stream, k)| <= |stream| - k
    ensures forall i | k <= i < k + |ChunksFrom(stream, k)| ::
      Dispatches(stream[i]) && ChunksFrom(stream, k)[i - k] == stream[i].data
    ensures k + |ChunksFrom(stream, k)| < |stream| ==> !Dispatches(stream[k + |ChunksFrom(stream, k)|])
    decreases |stream| - k
  {
    if k < |stream| && Dispatches(stream[k]) {
      ChunksFromAt(stream, k + 1);
      var cs, rest := ChunksFrom(stream, k), ChunksFrom(stream, k + 1);
      assert cs == [stream[k].data] + rest;
      forall i | k <= i < k + |cs|
        ensures Dispatches(stream[i]) && cs[i - k] == stream[i].data
      {
        if i > k {
          assert cs[i - k] == rest[i - (k + 1)];
        }
      }
    }
  }

  /** Every dispatched chunk is its read's data; the loop stops at the first read that does not dispatch. */
  lemma ChunksAt(stream: seq<ReadResult>)
    ensures |Chunks(stream)| <= |stream|
    ensures forall j | 0 <= j < |Chunks(stream)| :: Dispatches(stream[j]) && Chunks(stream)[j] == stream[j].data
    ensures |Chunks(stream)| < |stream| ==> !Dispatches(stream[|Chunks(stream)|])
  {
    ChunksFromAt(stream, 0);
  }

  /** A loop that dispatched reads 0 .. k-1 and stops at read k has dispatched exactly k chunks. */
  lemma ChunksEnd(stream: seq<ReadResult>, k: nat)
    requires k <= |stream|
    requires forall j | 0 <= j < k :: Dispatches(stream[j])
    requires k == |stream| || !Dispatches(stream[k])
    ensures |Chunks(stream)| == k
    ensures ReadFailed(stream) <==> k < |stream| && stream[k].err == IOErr
  {
    ChunksAt(stream);
    var n: nat := |Chunks(stream)|;
    assert n < k ==> Dispatches(ReadAt(stream, n));
    assert n > k ==> Dispatches(ReadAt(stream, k));
  }

  /** The loop stopped on an I/O error (rather than on a zero-byte read or the end). */
  predicate ReadFailed(stream: seq<ReadResult>)
  {
    |Chunks(stream)| < |stream| && stream[|Chunks(stream)|].err == IOErr
  }

  /**
   The bytes the part delivers from read k up to end of input or the first
   I/O error. The bytes a read returns together with an I/O error are not
   among them: the loop tests the error before the byte count.
   */
  function ReceivedFrom(stream: seq<ReadResult>, k: nat): Bytes
    decreases |stream| - k
  {
    if k >= |stream| || stream[k].err == IOErr || |stream[k].data| == 0 then []
    else stream[k].data + ReceivedFrom(stream, k + 1)
  }

  /** The bytes the part delivers up to end of input or the first I/O error (exclusive). */
  function Received(stream: seq<ReadResult>): Bytes
  {
    ReceivedFrom(stream, 0)
  }

  /** Splitting loses no byte and keeps their order. */
  lemma ChunksCoverStream(stream: seq<ReadResult>)
    ensures Flatten(Chunks(stream)) == Received(stream)
  {
    ChunksCoverFrom(stream, 0);
  }

  lemma {:induction false} ChunksCoverFrom(stream: seq<ReadResult>, k: nat)
    ensures Flatten(ChunksFrom(stream, k)) == ReceivedFrom(stream, k)
    decreases |stream| - k
  {
    if k < |stream| && Dispatches(stream[k]) {
      ChunksCoverFrom(stream, k + 1);
    }
  }

  /** Every dispatched chunk is non-empty and no larger than ChunkSize. */
  lemma ChunksWellSized(stream: seq<ReadResult>)
    requires forall r | r in stream :: |r.data| <= ChunkSize
    ensures forall b | b in Chunks(stream) :: 0 < |b| <= ChunkSize
  {
    var cs := Chunks(stream);
    ChunksAt(stream);
    forall b | b in cs
      ensures 0 < |b| <= ChunkSize
    {
      var j :| 0 <= j < |cs| && cs[j] == b;
      assert stream[j] in stream;
    }
  }

  /** One unit of work: the node a chunk is assigned to, its identifier and its bytes. */
  datatype Unit = Unit(server: string, id: ChunkId, chunk: Bytes)

  /**
   The node index the upload loop's counter holds for chunk j: it starts at
   0, steps by one per chunk and is reset to 0 on reaching n.
   */
  function Slot(j: nat, n: nat): (s: nat)
    requires n > 0
    ensures s < n
  {
    if j == 0 then 0
    else if Slot(j - 1, n) + 1 == n then 0
    else Slot(j - 1, n) + 1
  }

  /** The loop's counter at the top of round k, before the reset. */
  function Counter(k: nat, n: nat): nat
    requires n > 0
  {
    if k == 0 then 0 else Slot(k - 1, n) + 1
  }

  /** The counter with reset is the chunk index modulo n. */
  lemma {:induction false} SlotIsMod(j: nat, n: nat)
    requires n > 0
    ensures Slot(j, n) == j % n
  {
    if j > 0 {
      SlotIsMod(j - 1, n);
      CounterStep(Slot(j - 1, n), j - 1, n);
    }
  }

  /**
   What the loop hands to the error group for one chunk: the arguments of
   its processChunk call (the bytes read, the fresh identifier and the
   counter's node index).
   */
  datatype Job = Job(chunk: Bytes, id: ChunkId, serverIndex: nat)

  /**
   The jobs the read loop launches for the first m of chunks cs over n
   nodes: chunk j gets identifier first + j and the node index the counter
   holds for it.
   */
  function Jobs(n: nat, first: ChunkId, cs: seq<Bytes>, m: nat): (r: seq<Job>)
    requires n > 0 && m <= |cs|
    ensures |r| == m
  {
    if m == 0 then [] else Jobs(n, first, cs, m - 1) + [Job(cs[m - 1], first + m - 1, Slot(m - 1, n))]
  }

  /** Job j carries chunk j, identifier first + j and the counter's index for j. */
  lemma {:induction false} JobsAt(n: nat, first: ChunkId, cs: seq<Bytes>, m: nat)
    requires n > 0 && m <= |cs|
    ensures forall j | 0 <= j < m :: Jobs(n, first, cs, m)[j] == Job(cs[j], first + j, Slot(j, n))
  {
    if m > 0 {
      JobsAt(n, first, cs, m - 1);
    }
  }

  /**
   One more dispatched read k is chunk k: it extends the jobs and the
   identifiers by one, and the counter, reset on reaching n, selects Slot(k).
   */
  lemma ReadStep(stream: seq<ReadResult>, k: nat, n: nat, first: ChunkId)
    requires k < |stream| && n > 0
    requires forall j | 0 <= j < k :: Dispatches(stream[j])
    requires Dispatches(stream[k])
    ensures k < |Chunks(stream)| && Chunks(stream)[k] == stream[k].data
    ensures Jobs(n, first, Chunks(stream), k + 1)
         == Jobs(n, first, Chunks(stream), k) + [Job(stream[k].data, first + k, Slot(k, n))]
    ensures Range(first, k + 1) == Range(first, k) + [first + k]
    ensures Counter(k, n) <= n
    ensures Slot(k, n) == if Counter(k, n) == n then 0 else Counter(k, n)
    ensures Counter(k + 1, n) == Slot(k, n) + 1
  {
    ChunksAt(stream);
    var c: nat := |Chunks(stream)|;
    assert c <= k ==> Dispatches(ReadAt(stream, c));
  }

  /** Every job names an index into the node list. */
  predicate InRange(jobs: seq<Job>, n: nat)
  {
    forall j | 0 <= j < |jobs| :: jobs[j].serverIndex < n
  }

  /** The counter never leaves the node list. */
  lemma JobsInRange(n: nat, first: ChunkId, cs: seq<Bytes>, m: nat)
    requires n > 0 && m <= |cs|
    ensures InRange(Jobs(n, first, cs, m), n)
  {
    JobsAt(n, first, cs, m);
  }

  /** The units the first m jobs perform: each job's index resolved to its node address. */
  function Units(servers: seq<string>, jobs: seq<Job>, m: nat): (r: seq<Unit>)
    requires InRange(jobs, |servers|) && m <= |jobs|
    ensures |r| == m
  {
    if m == 0 then []
    else Units(servers, jobs, m - 1) + [Unit(servers[jobs[m - 1].serverIndex], jobs[m - 1].id, jobs[m - 1].chunk)]
  }

  lemma {:induction false} UnitsAt(servers: seq<string>, jobs: seq<Job>, m: nat)
    requires InRange(jobs, |servers|) && m <= |jobs|
    ensures forall j | 0 <= j < m ::
      Units(servers, jobs, m)[j] == Unit(servers[jobs[j].serverIndex], jobs[j].id, jobs[j].chunk)
  {
    if m > 0 {
      UnitsAt(servers, jobs, m - 1);
    }
  }

  /**
   Placement of an upload: the units of all jobs the read loop launches for
   chunks cs.
   */
  function Plan(servers: seq<string>, first: ChunkId, cs: seq<Bytes>): seq<Unit>
    requires |servers| > 0
  {
    JobsInRange(|servers|, first, cs, |cs|);
    Units(servers, Jobs(|servers|, first, cs, |cs|), |cs|)
  }

  /** Unit j of a plan carries chunk j, identifier first + j and node servers[Slot(j)]. */
  lemma PlanAt(servers: seq<string>, first: ChunkId, cs: seq<Bytes>)
    requires |servers| > 0
    ensures |Plan(servers, first, cs)| == |cs|
    ensures forall j | 0 <= j < |cs| ::
      Plan(servers, first, cs)[j] == Unit(servers[Slot(j, |servers|)], first + j, cs[j])
  {
    var jobs := Jobs(|servers|, first, cs, |cs|);
    JobsAt(|servers|, first, cs, |cs|);
    UnitsAt(servers, jobs, |cs|);
  }

  /** The chunk identifiers of a plan, in order. */
  function IdsOf(p: seq<Unit>): seq<ChunkId>
  {
    seq(|p|, j requires 0 <= j < |p| => p[j].id)
  }

  /** The set of identifiers a plan writes. */
  function IdSet(p: seq<Unit>): set<ChunkId>
  {
    set u | u in p :: u.id
  }

  predicate DistinctIds(p: seq<Unit>)
  {
    forall i, j | 0 <= i < j < |p| :: p[i].id != p[j].id
  }

  /** Chunk-owner table after recording every unit of the plan in order. */
  function ApplyOwners(owners: map<ChunkId, string>, p: seq<Unit>): map<ChunkId, string>
  {
    if p == [] then owners
    else
      var u := p[|p| - 1];
      ApplyOwners(owners, p[..|p| - 1])[u.id := u.server]
  }

  /** Cluster contents after SetChunk of every unit of the plan in order. */
  function ApplyStore(c: Contents, p: seq<Unit>): Contents
  {
    if p == [] then c
    else
      var u := p[|p| - 1];
      Put(ApplyStore(c, p[..|p| - 1]), u.server, u.id, u.chunk)
  }

  /** Recording and storing one more unit extends both tables by that unit alone. */
  lemma ApplySnoc(owners: map<ChunkId, string>, c: Contents, p: seq<Unit>, u: Unit)
    ensures ApplyOwners(owners, p + [u]) == ApplyOwners(owners, p)[u.id := u.server]
    ensures ApplyStore(c, p + [u]) == Put(ApplyStore(c, p), u.server, u.id, u.chunk)
  {
    assert (p + [u])[..|p|] == p;
  }

  /** The identifiers first, first + 1, ..., first + n - 1 that n calls of the id source hand out. */
  function Range(first: ChunkId, n: nat): (r: seq<ChunkId>)
    ensures |r| == n
  {
    if n == 0 then [] else Range(first, n - 1) + [first + n - 1]
  }

  lemma {:induction false} RangeAt(first: ChunkId, n: nat)
    ensures forall j | 0 <= j < n :: Range(first, n)[j] == first + j
  {
    if n > 0 {
      RangeAt(first, n - 1);
    }
  }

  /** A plan takes its identifiers, all distinct, from consecutive calls of the id source. */
  lemma PlanIds(servers: seq<string>, first: ChunkId, cs: seq<Bytes>)
    requires |servers| > 0
    ensures DistinctIds(Plan(servers, first, cs))
    ensures IdsOf(Plan(servers, first, cs)) == Range(first, |cs|)
  {
    var p, ids := Plan(servers, first, cs), Range(first, |cs|);
    PlanAt(servers, first, cs);
    RangeAt(first, |cs|);
    forall j | 0 <= j < |cs|
      ensures p[j].id == first + j
    {
    }
    assert IdsOf(p) == ids;
  }

  /** The Go loop's counter, reset to 0 on reaching n, tracks the chunk index modulo n. */
  lemma CounterStep(i: nat, k: nat, n: nat)
    requires i < n && i == k % n
    ensures i + 1 < n ==> i + 1 == (k + 1) % n
    ensures i + 1 == n ==> (k + 1) % n == 0
  {
    var q := k / n;
    assert k == q * n + i;
    if i + 1 < n {
      ModUnique(k + 1, q, i + 1, n);
    } else {
      ModUnique(k + 1, q + 1, 0, n);
    }
  }

  /** The remainder is the only r in [0, n) with x == q * n + r. */
  lemma ModUnique(x: int, q: int, r: int, n: int)
    requires n > 0 && 0 <= r < n && x == q * n + r
    ensures x % n == r
  {
    var q', r' := x / n, x % n;
    assert (q - q') * n == r' - r;
    MulAwayFromZero(q - q', n);
  }

  /** A non-zero multiple of n is at least n away from zero. */
  lemma MulAwayFromZero(d: int, n: int)
    requires n > 0
    ensures d >= 1 ==> d * n >= n
    ensures d <= -1 ==> d * n <= -n
  {
    if d >= 1 {
      assert d * n == (d - 1) * n + n;
    } else if d <= -1 {
      assert d * n == (d + 1) * n - n;
    }
  }


  /** With distinct identifiers, every unit's identifier ends up owned by its assigned node. */
  lemma {:induction false} OwnersRecorded(owners: map<ChunkId, string>, p: seq<Unit>)
    requires DistinctIds(p)
    ensures forall j | 0 <= j < |p| ::
      p[j].id in ApplyOwners(owners, p) && ApplyOwners(owners, p)[p[j].id] == p[j].server
  {
    if p != [] {
      var q := p[..|p| - 1];
      OwnersRecorded(owners, q);
      forall j | 0 <= j < |q|
        ensures q[j].id != p[|p| - 1].id
      {
        assert q[j] == p[j];
      }
    }
  }

  /** Recording a plan leaves the owner of every identifier outside the plan as it was. */
  lemma {:induction false} OwnersUntouched(owners: map<ChunkId, string>, p: seq<Unit>, k: ChunkId)
    requires k !in IdSet(p)
    ensures k in ApplyOwners(owners, p) <==> k in owners
    ensures k in owners ==> ApplyOwners(owners, p)[k] == owners[k]
  {
    if p != [] {
      var q := p[..|p| - 1];
      assert IdSet(p) == IdSet(q) + {p[|p| - 1].id};
      OwnersUntouched(owners, q, k);
    }
  }

  /**
   With distinct identifiers, no node is added or removed; every unit whose
   node is live holds its bytes at that node (a unit whose node is unknown is
   dropped); every other identifier keeps its old entry at every node.
   */
  lemma {:induction false} ChunksStored(c: Contents, p: seq<Unit>)
    requires DistinctIds(p)
    ensures ApplyStore(c, p).Keys == c.Keys
    ensures forall j | 0 <= j < |p| && p[j].server in c ::
      Holds(ApplyStore(c, p), p[j].server, p[j].id) &&
      ApplyStore(c, p)[p[j].server][p[j].id] == p[j].chunk
  {
    if p != [] {
      var q := p[..|p| - 1];
      ChunksStored(c, q);
      forall j | 0 <= j < |q|
        ensures q[j].id != p[|p| - 1].id
      {
        assert q[j] == p[j];
      }
    }
  }

  /** Storing a plan leaves every identifier outside the plan as it was, at every live node. */
  lemma {:induction false} ChunksUntouched(c: Contents, p: seq<Unit>, a: string, k: ChunkId)
    requires a in c && k !in IdSet(p)
    ensures a in ApplyStore(c, p)
    ensures k in ApplyStore(c, p)[a] <==> k in c[a]
    ensures k in c[a] ==> ApplyStore(c, p)[a][k] == c[a][k]
  {
    if p != [] {
      var q := p[..|p| - 1];
      assert IdSet(p) == IdSet(q) + {p[|p| - 1].id};
      ChunksUntouched(c, q, a, k);
    }
  }

  /**
   Round-robin placement: after an upload, the j-th chunk's identifier is
   owned by servers[j mod N].
   */
  lemma RoundRobin(owners: map<ChunkId, string>, servers: seq<string>, first: ChunkId, cs: seq<Bytes>, j: nat)
    requires |servers| > 0 && j < |cs|
    ensures first + j in ApplyOwners(owners, Plan(servers, first, cs))
    ensures ApplyOwners(owners, Plan(servers, first, cs))[first + j] == servers[j % |servers|]
  {
    var p := Plan(servers, first, cs);
    PlanAt(servers, first, cs);
    OwnersRecorded(owners, p);
    SlotIsMod(j, |servers|);
    assert p[j] == Unit(servers[Slot(j, |servers|)], first + j, cs[j]);
  }


  /**
   Every chunk identifier the tables mention (in a File's chunk list, in the
   owner table, or as a key at any node) is below `next`: the id source is
   ahead of everything in use, as uuid.New() never repeats an identifier.
   */
  predicate Issued(files: map<string, File>, owners: map<ChunkId, string>, c: Contents, next: ChunkId)
  {
    && (forall name, j | name in files && 0 <= j < |files[name].chunks| :: files[name].chunks[j] < next)
    && (forall k | k in owners :: k < next)
    && (forall a, k | a in c && k in c[a] :: k < next)
  }

  /** Every identifier a plan writes is one of the fresh ones, first .. first + |cs| - 1. */
  lemma PlanIdsFresh(servers: seq<string>, first: ChunkId, cs: seq<Bytes>)
    requires |servers| > 0
    ensures forall k | k in IdSet(Plan(servers, first, cs)) :: first <= k < first + |cs|
  {
    var p := Plan(servers, first, cs);
    PlanAt(servers, first, cs);
    forall k | k in IdSet(p)
      ensures first <= k < first + |cs|
    {
      var u :| u in p && u.id == k;
      var j :| 0 <= j < |p| && p[j] == u;
    }
  }

  /**
   An upload keeps the id source ahead of everything in use: after the
   File with the plan's identifiers is committed and the plan is applied,
   every identifier is below first + |cs|, the id source's new position.
   */
  lemma IssuedKept(files: map<string, File>, owners: map<ChunkId, string>, c: Contents,
                   servers: seq<string>, first: ChunkId, cs: seq<Bytes>, file: File)
    requires |servers| > 0 && Issued(files, owners, c, first)
    requires file.chunks == IdsOf(Plan(servers, first, cs))
    ensures
      var p := Plan(servers, first, cs);
      Issued(files[file.fileName := file], ApplyOwners(owners, p), ApplyStore(c, p), first + |cs|)
  {
    var p := Plan(servers, first, cs);
    var next := first + |cs|;
    PlanIds(servers, first, cs);
    RangeAt(first, |cs|);
    PlanIdsFresh(servers, first, cs);
    ChunksStored(c, p);
    var files', owners', c' := files[file.fileName := file], ApplyOwners(owners, p), ApplyStore(c, p);
    forall name, j | name in files' && 0 <= j < |files'[name].chunks|
      ensures files'[name].chunks[j] < next
    {
      if name != file.fileName {
        assert files'[name] == files[name];
      }
    }
    forall k | k in owners'
      ensures k < next
    {
      if k !in IdSet(p) {
        OwnersUntouched(owners, p, k);
      }
    }
    forall a, k | a in c' && k in c'[a]
      ensures k < next
    {
      if k !in IdSet(p) {
        ChunksUntouched(c, p, a, k);
      }
    }
  }

  /** The reply the client sees (the first status written wins). */
  datatype Reply = StatusOK | StatusInternalServerError

  class Upload {
    const db: DB
    const cluster: Cluster
    /** The ordered node list used for round-robin placement. */
    const servers: seq<string>
    /** The service's source of fresh chunk identifiers. */
    const uuids: IdSource

    /** NewUpload, with the id source the service draws identifiers from. */
    constructor (db: DB, cluster: Cluster, servers: seq<string>, uuids: IdSource)
      ensures this.db == db && this.cluster == cluster && this.servers == servers && this.uuids == uuids
    {
      this.db := db;
      this.cluster := cluster;
      this.servers := servers;
      this.uuids := uuids;
    }

    /**
     processChunk: records that `chunkUUID` lives on servers[serverIndex], then
     stores the bytes there (a silent no-op when that node is not live).
     It always succeeds.
     */
    method processChunk(chunk: Bytes, chunkUUID: ChunkId, serverIndex: nat)
      requires serverIndex < |servers| && cluster.Valid()
      modifies db, cluster.Repr
      ensures cluster.Valid() && cluster.servers == old(cluster.servers)
      ensures db.chunksServers == old(db.chunksServers)[chunkUUID := servers[serverIndex]]
      ensures db.files == old(db.files)
      ensures cluster.Contents() == Put(old(cluster.Contents()), servers[serverIndex], chunkUUID, chunk)
    {
      var serverAddress := servers[serverIndex];
      db.SetChunkServer(chunkUUID, serverAddress);
      cluster.SetChunk(serverAddress, chunkUUID, chunk);
    }

    /**
     The read loop of Handler: reads the part until a zero-byte read or an
     I/O error, gives each non-empty read the next fresh identifier and the
     node index the round-robin counter holds, and launches a job for it.
     Returns the launched jobs, the identifiers in read order and the reply
     the loop has settled on. Nothing but the id source changes.
     */
    method ReadLoop(stream: seq<ReadResult>)
      returns (jobs: seq<Job>, chunks: seq<ChunkId>, reply: Reply)
      requires |servers| > 0
      modifies uuids
      ensures jobs == Jobs(|servers|, old(uuids.next), Chunks(stream), |Chunks(stream)|)
      ensures chunks == Range(old(uuids.next), |Chunks(stream)|)
      ensures uuids.next == old(uuids.next) + |chunks|
      ensures reply == if ReadFailed(stream) then StatusInternalServerError else StatusOK
    {
      ghost var first := uuids.next;
      jobs, chunks := [], [];
      var i := 0;
      var k := 0;
      reply := StatusOK;
      while true
        invariant k <= |stream| && k <= |Chunks(stream)| && chunks == Range(first, k)
        invariant forall j | 0 <= j < k :: Dispatches(stream[j])
        invariant jobs == Jobs(|servers|, first, Chunks(stream), k)
        invariant i == Counter(k, |servers|)
        invariant uuids.next == first + k
        invariant reply == StatusOK
        decreases |stream| - k
      {
        i := if i == |servers| then 0 else i;
        var r := ReadAt(stream, k);
        if r.err == IOErr {
          reply := StatusInternalServerError;
          break;
        }
        if |r.data| == 0 {
          break;
        }
        var chunkUUID := uuids.New();
        chunks := chunks + [chunkUUID];
        jobs := jobs + [Job(r.data, chunkUUID, i)];
        ReadStep(stream, k, |servers|, first);
        k := k + 1;
        i := i + 1;
      }
      ChunksEnd(stream, k);
    }

    /**
     eg.Wait: every launched job runs processChunk, none fails. Running them
     in launch order adds exactly their units to the owner table and the
     cluster; the file table and the node set stay as they were.
     */
    method Wait(jobs: seq<Job>)
      requires InRange(jobs, |servers|) && cluster.Valid()
      modifies db, cluster.Repr
      ensures cluster.Valid() && cluster.servers == old(cluster.servers)
      ensures db.files == old(db.files)
      ensures db.chunksServers == ApplyOwners(old(db.chunksServers), Units(servers, jobs, |jobs|))
      ensures cluster.Contents() == ApplyStore(old(cluster.Contents()), Units(servers, jobs, |jobs|))
    {
      ghost var owners0, contents0 := db.chunksServers, cluster.Contents();
      for n := 0 to |jobs|
        invariant cluster.Valid() && cluster.servers == old(cluster.servers)
        invariant db.files == old(db.files)
        invariant db.chunksServers == ApplyOwners(owners0, Units(servers, jobs, n))
        invariant cluster.Contents() == ApplyStore(contents0, Units(servers, jobs, n))
      {
        var job := jobs[n];
        processChunk(job.chunk, job.id, job.serverIndex);
        ApplySnoc(owners0, contents0, Units(servers, jobs, n), Unit(servers[job.serverIndex], job.id, job.chunk));
      }
    }

    /**
     Handler (without the HTTP envelope): launches one job per chunk, waits
     for them (none can fail) and commits the File under `fileName`. The File
     is committed even when the loop stopped on a read error; that error only
     changes the reply.
     */
    method Handler(fileName: string, contentType: string, stream: seq<ReadResult>)
      returns (reply: Reply)
      requires |servers| > 0 && cluster.Valid()
      requires Issued(db.files, db.chunksServers, cluster.Contents(), uuids.next)
      modifies db, cluster.Repr, uuids
      ensures cluster.Valid() && cluster.servers == old(cluster.servers)
      ensures
        var p := Plan(servers, old(uuids.next), Chunks(stream));
        && uuids.next == old(uuids.next) + |p|
        && db.files == old(db.files)[fileName := File(fileName, contentType, IdsOf(p))]
        && db.chunksServers == ApplyOwners(old(db.chunksServers), p)
        && cluster.Contents() == ApplyStore(old(cluster.Contents()), p)
      ensures Issued(db.files, db.chunksServers, cluster.Contents(), uuids.next)
      ensures reply == if ReadFailed(stream) then StatusInternalServerError else StatusOK
    {
      var jobs, chunks;
      jobs, chunks, reply := ReadLoop(stream);
      ContentsUnchanged(cluster);
      JobsInRange(|servers|, old(uuids.next), Chunks(stream), |Chunks(stream)|);
      Wait(jobs);
      PlanIds(servers, old(uuids.next), Chunks(stream));
      label committed:
      db.SetFile(fileName, File(fileName, contentType, chunks));
      ContentsUnchanged@committed(cluster);
      IssuedKept(old(db.files), old(db.chunksServers), old(cluster.Contents()), servers, old(uuids.next),
        Chunks(stream), File(fileName, contentType, chunks));
    }
  }
}
