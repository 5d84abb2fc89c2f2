# Chunked in-memory file store, modelled in Dafny

This project models the core of `distributed-storage-poc`, a small HTTP
service written in Go. It keeps files in memory as fixed-size chunks spread
round-robin over storage nodes.

- **Storage** (`store.go`) is one node's map from chunk identifier to bytes.
- **Cluster** (`cluster.go`) maps node addresses to Storage objects and routes
  chunk get and set by address.
- **DB** (`db.go`) holds two metadata tables: file name → File record (name,
  content type, ordered chunk identifiers), and chunk identifier → node address.
- **Upload** (`upload.go`) handles an upload:
  - reads the uploaded part in reads of at most 512 KiB;
  - gives each non-empty read a fresh identifier;
  - assigns it to the node list with a counter that wraps at the list's length;
  - launches one job per chunk, which records the owner and then stores the bytes;
  - waits for the jobs and commits the File record.
- **Download** (`download.go`) looks the File up and writes the bytes of its
  chunks in list order. It stops at the first chunk whose owner entry or bytes
  are missing.
- **Wiring** (`main.go`) supplies the five node addresses and the chunk size.

Storage, Cluster, DB, Upload and Download are classes whose methods update
their fields in place, as in the source. Each method states the new state
exactly. The Cluster's abstract state is `Contents()`, a map from each live
address to that node's chunk map. The upload and download loops are proved
against value-level specification functions:

- `Chunks` is what a read stream splits into.
- `Plan` is which node gets which identifier and bytes.
- `ApplyOwners`/`ApplyStore` are the effect of a plan on the owner table and the cluster.
- `Pieces`/`Verdict` are what a download writes and how it ends.

Lemmas connect these functions to each other and to the properties the
system promises: the round-robin placement, that splitting loses no byte,
that a download returns exactly the bytes uploaded, and that an upload
leaves every other file's download unchanged.

The uploaded part is a sequence of read results. Each result is the bytes
delivered plus an error: none, end of input, or another I/O error. Once the
sequence is used up, every further read delivers nothing and end of input.
The bytes a read returns together with an I/O error are dropped, because
the loop tests the error before the byte count (upload.go:74-82).

`uuid.New()` is an `IdSource` counter shared by the whole service. The
upload handler requires `Uploads.Issued`: every identifier already in use
(in a File's chunk list, in the owner table, or at any node) is below the
counter. This is the model's form of uuid.New() never repeating an
identifier. Every upload preserves it, and it is what makes an upload of one
name leave every other name's download unchanged.

After a read error the handler writes 500 but still commits the File record,
listing the chunks read before the error (upload.go:74-78, 112-116), so a
failed upload is visible to downloads; `Uploads.Upload.Handler` states it.

A part without a file name is committed under the empty name (upload.go:112),
and the download handler refuses that name with 400 (download.go:27-30), so
such a file can never be downloaded; `Service.UploadThenDownload` states it.

## Model

| member | source | states |
|---|---|---|
| Types.FlattenSnoc | download.go:40-58 | writing one more chunk's bytes after a concatenation appends exactly those bytes at the end; this is the step that keeps the download output equal to the concatenation so far |
| Types.IdSource.New | upload.go:91 | returns the next identifier and advances the counter, so no identifier is returned twice |
| Store.Storage.constructor | store.go:16-20 | a new Storage holds no key at all |
| Store.Storage.Get | store.go:23-29 | `ok` exactly when the key is present; then the stored bytes, otherwise empty; nothing changes |
| Store.Storage.Set | store.go:32-37 | the key now maps to the chunk, overwriting any earlier value; every other key keeps its presence and value |
| Store.Storage.Delete | store.go:40-45 | the key is gone and every other key is unchanged; deleting an absent key changes nothing |
| Clusters.Cluster.constructor | cluster.go:16-20 | no live nodes and empty contents |
| Clusters.Cluster.AddServer | cluster.go:23-28 | the address is live with a fresh empty store, replacing any previous store and its chunks; every other node's contents are unchanged |
| Clusters.Cluster.GetServer | cluster.go:31-37 | `ok` exactly when the address is live; then its Storage, otherwise null |
| Clusters.Cluster.DeleteServer | cluster.go:40-45 | the address is no longer live (so every later GetChunk on it fails); every other node's contents are unchanged |
| Clusters.Cluster.GetChunk | cluster.go:48-54 | `ok` exactly when the address is live and its store has the key, and then the bytes stored; for an unknown address not-found and empty |
| Clusters.Cluster.SetChunk | cluster.go:57-63 | contents become `Put(old contents, ...)`: for a live address that node now holds the chunk under the key and nothing else changes; an unknown address changes nothing, and no node is added |
| Database.DB.constructor | db.go:41-46 | no files and no chunk-owner entries |
| Database.DB.GetFile | db.go:49-55 | `ok` exactly when the name is present; then its File; nothing changes |
| Database.DB.SetFile | db.go:58-63 | the name now maps to the given File, overwriting any earlier one; the chunk-owner table is unchanged |
| Database.DB.DeleteFile | db.go:66-71 | the name is gone and every other file entry is unchanged; the chunk-owner table is unchanged |
| Database.DB.GetChunkServer | db.go:74-80 | `ok` exactly when the chunk has an owner entry; then the address, otherwise empty; nothing changes |
| Database.DB.SetChunkServer | db.go:83-88 | the chunk's owner is now the address, overwriting any earlier one; the file table is unchanged |
| Uploads.ChunksAt | upload.go:71-82 | every dispatched chunk is the data of the read at the same position, with no error and at least one byte; the read after the last chunk (if any) fails or is empty |
| Uploads.ChunksEnd | upload.go:74-82 | a loop that dispatched reads 0..k-1 and stopped at read k dispatched exactly k chunks; it failed exactly when read k carries an I/O error |
| Uploads.ChunksCoverStream | upload.go:71-95 | concatenating the dispatched chunks gives, in order, every byte delivered before end of input or the first read error; the bytes returned with that error are not included |
| Uploads.ChunksWellSized | upload.go:72-82 | when each read delivers at most ChunkSize bytes, every dispatched chunk is non-empty and at most ChunkSize bytes |
| Uploads.SlotIsMod | upload.go:61-64 | the counter that is incremented per chunk and reset to 0 on reaching N holds j mod N for chunk j |
| Uploads.JobsAt | upload.go:89-95 | job j carries chunk j, identifier first + j and the counter's node index for j |
| Uploads.JobsInRange | upload.go:61-64 | every job's node index is a valid index into the node list |
| Uploads.ReadStep | upload.go:61-95 | one more non-empty read k is chunk k, adds one job and one identifier at the end, and the counter after its reset selects Slot(k) |
| Uploads.UnitsAt | upload.go:125 | unit j is job j with its index resolved to the node address |
| Uploads.PlanAt | upload.go:61-95 | unit j of an upload's plan carries chunk j, identifier first + j and node servers[Slot(j)] |
| Uploads.RangeAt | upload.go:91-92 | the identifiers the id source hands out for k chunks are first, first + 1, ..., in read order |
| Uploads.PlanIds | upload.go:91-92 | a plan's identifiers are exactly the consecutive fresh identifiers, one per chunk in read order, and they are pairwise distinct |
| Uploads.OwnersRecorded | upload.go:128 | after all units run, every identifier of the plan is owned by its unit's node, whichever nodes the units share |
| Uploads.OwnersUntouched | upload.go:128 | owner entries of identifiers outside the plan keep their presence and value |
| Uploads.ChunksStored | upload.go:131 | no node is added or removed; every unit whose node is live has its bytes at that node (a unit on an unregistered node stores nothing) |
| Uploads.ChunksUntouched | upload.go:131 | chunks of identifiers outside the plan keep their presence and value at every live node |
| Uploads.RoundRobin | upload.go:61-64 | after an upload, the j-th chunk's identifier is owned by servers[j mod N] |
| Uploads.PlanIdsFresh | upload.go:91 | every identifier an upload writes is one of the fresh ones, first .. first + (number of chunks) - 1 |
| Uploads.IssuedKept | upload.go:91-116 | an upload keeps the id source ahead of every identifier in use: after the File is committed and the plan applied, all identifiers are below the source's new position |
| Uploads.Upload.constructor | upload.go:22-28 | the handler keeps the given DB, cluster and node list, and the service's id source |
| Uploads.Upload.processChunk | upload.go:121-134 | the owner table gains identifier → servers[index]; the cluster contents become Put of the chunk at that node; the file table and node set are unchanged |
| Uploads.Upload.ReadLoop | upload.go:61-103 | the launched jobs are the plan's jobs for Chunks(stream); the identifiers are one fresh id per chunk in read order; the reply is 500 exactly when the loop stopped on an I/O error, else 200 |
| Uploads.Upload.Wait | upload.go:105 | running every launched job leaves the owner table and the cluster as the old ones with exactly the jobs' units applied; the file table and the node set are unchanged |
| Uploads.Upload.Handler | upload.go:61-118 | the File {fileName, contentType, the plan's ids} is committed under fileName, even after a read error (an empty read stream commits an empty chunk list); the owner table and the cluster hold the plan's units applied; the id source stays ahead of every identifier in use; the reply as ReadLoop's |
| Downloads.Status | download.go:27-53 | the client gets 200 exactly when the download succeeded or at least one Write happened (the first Write fixes 200, a later http.Error cannot change it); otherwise 400 for BadRequest and 404 for each not-found outcome |
| Downloads.Resolve | download.go:41-51 | a chunk resolves to bytes exactly when it has an owner entry and that live node holds it; no owner entry and missing bytes are told apart |
| Downloads.PiecesAt | download.go:40-52 | the pieces are the longest resolving prefix of the chunk list: piece j is chunk j's bytes, and the next chunk (if any) does not resolve |
| Downloads.PiecesAll | download.go:40-53 | when every chunk resolves, the pieces are exactly the resolved chunks, all of them, in list order |
| Downloads.VerdictOk | download.go:40-58 | the download succeeds exactly when every chunk of the list resolves (so an empty list succeeds) |
| Downloads.PieceStep | download.go:40-53 | a resolving chunk n is piece n and extends the output by its bytes; a chunk with no owner entry ends the download with the output so far and ChunkMetaMissing, and one whose bytes are missing with ChunkMissing |
| Downloads.PiecesDone | download.go:40-58 | a loop that ran over every chunk wrote all pieces and succeeds |
| Downloads.PiecesAgree | download.go:40-58 | two states in which every chunk of a list resolves alike serve the same pieces with the same verdict |
| Downloads.Download.constructor | download.go:17-22 | the handler keeps the given DB and cluster |
| Downloads.Download.Handler | download.go:25-59 | an empty name gives BadRequest and no output; an unknown name gives FileNotFound and no output; otherwise the output is the concatenation of the resolving prefix of the File's chunks, the outcome is Verdict, and the status is Status of that outcome and the number of chunks written; nothing changes |
| Service.DownloadAfterUpload | upload.go:112-116 | after an upload's plan is recorded and stored on live nodes, every identifier of the committed chunk list resolves to its own chunk, so the download yields every chunk in order and succeeds |
| Service.ResolveUntouched | download.go:41-51 | an identifier outside a plan resolves after the plan is applied exactly as before |
| Service.OtherFilesKept | upload.go:112-116 | uploading one name leaves every other name's File, download pieces and verdict as they were, given the id source is ahead of every identifier in use |
| Service.UploadThenDownload | download.go:25-58 | an upload immediately followed by a download of the same name, with all nodes of the list live: the download returns exactly the bytes the part delivered before end of input or the first read error, with outcome Ok and status 200; an empty name (a part without a file name) gives BadRequest, 400 and no bytes |
| Service.UploadKeepsOtherFiles | upload.go:112-116 | a download of another name returns the same bytes, outcome and status before and after an upload |
| Service.Setup | main.go:16-21 | an empty DB, a cluster in which each of the five storage addresses is live with an empty store, and a fresh id source; the id source is ahead of every identifier in use |
| Service.Scenario | main.go:10-25 | on a fresh service wired as in main, an upload followed by a download of the same (non-empty) name returns the uploaded bytes with status 200 |

## Left out

- HTTP envelope of the upload (upload.go:32-49): the body size cap, multipart parsing, the form-name check and the nil-part case. The handler starts from the part's file name, content type and read results.
- The upload's `eg.Wait` error branch (upload.go:105-110) is unreachable, because `processChunk` always returns nil. `Uploads.Upload.Wait` therefore returns no error, and the `stop` flag, its mutex and `cancel` are not modelled.
- Goroutine interleaving: the jobs run one after the other in launch order. Each job writes only its own fresh identifier, so every interleaving reaches the same final state. Interleaving itself is not modelled.
- The `sync.RWMutex` locking in store.go, cluster.go and db.go is not modelled: all operations are sequential.
- `uuid.New()` is a counter shared by the service (`Uploads.Upload.uuids`). The model relies on identifiers being fresh, which `Uploads.Issued` states; their randomness is not modelled.
- `mux.Vars` and the Content-Disposition header (download.go:26, 38). The file name is a parameter.
- Download write errors (download.go:53-57): the response writer is an in-memory byte sequence that never fails.
- The upload's status is a `Uploads.Reply` value, the first status written; the superfluous `WriteHeader(200)` after an earlier `http.Error` (upload.go:118) changes nothing and is not modelled.
- Downloads.Status: the error text that `http.Error` writes into the body ("file is expected", "file not found", "chunk not found in database", "chunk not found in storage", each followed by a newline) is not part of `out`; after a chunk failure the client's body is the bytes written so far followed by that text.
- The router and `ListenAndServe` in main.go.
- Go's distinction between a nil and an empty byte slice: a not-found lookup returns the empty sequence.
- File records are shared by reference in the source but never mutated after commit, so the model stores File values.
- Read sizes: the read buffer is not modelled. A read result may carry any number of bytes; `Uploads.ChunksWellSized` assumes each carries at most ChunkSize, as the buffer guarantees.
