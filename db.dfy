/**
 The metadata catalog (db.go): two independent maps, file name to File
 record and chunk identifier to the address of the node that owns it.
 The source stores each File by reference and never mutates it after creation;
 the model stores File values.
 */
module Database {
  import opened Types

  /** A file record: name, content type and its chunk identifiers in byte order. */
  datatype File = File(fileName: string, contentType: string, chunks: seq<ChunkId>)

  class DB {
    /** file name -> File (the `files` table). */
    var files: map<string, File>
    /** chunk identifier -> node address (the `chunksServers` table). */
    var chunksServers: map<ChunkId, string>

    /** NewDB: no files and no chunk owners. */
    constructor ()
      ensures files == map[] && chunksServers == map[]
    {
      files := map[];
      chunksServers := map[];
    }

    /** GetFile: the record and true, or a blank record and false (Go's nil). Changes nothing. */
    method GetFile(fileName: string) returns (file: File, ok: bool)
      ensures ok <==> fileName in files
      ensures ok ==> file == files[fileName]
      ensures !ok ==> file == File("", "", [])
    {
      ok := fileName in files;
      file := if ok then files[fileName] else File("", "", []);
    }

    /** SetFile: stores or overwrites (no versioning); the chunk-owner table is untouched. */
    method SetFile(fileName: string, file: File)
      modifies this
      ensures files == old(files)[fileName := file]
      ensures chunksServers == old(chunksServers)
    {
      files := files[fileName := file];
    }

    /** DeleteFile: removes the record if present; the chunk-owner table is untouched. */
    method DeleteFile(fileName: string)
      modifies this
      ensures files == old(files) - {fileName}
      ensures fileName !in files
      ensures chunksServers == old(chunksServers)
    {
      files := files - {fileName};
    }

    /** GetChunkServer: the owner's address and true, or "" and false. Changes nothing. */
    method GetChunkServer(chunkKey: ChunkId) returns (serverAddress: string, ok: bool)
      ensures ok <==> chunkKey in chunksServers
      ensures ok ==> serverAddress == chunksServers[chunkKey]
      ensures !ok ==> serverAddress == ""
    {
      ok := chunkKey in chunksServers;
      serverAddress := if ok then chunksServers[chunkKey] else "";
    }

    /** SetChunkServer: records (or overwrites) the owner; the file table is untouched. */
    method SetChunkServer(chunkKey: ChunkId, serverAddress: string)
      modifies this
      ensures chunksServers == old(chunksServers)[chunkKey := serverAddress]
      ensures files == old(files)
    {
      chunksServers := chunksServers[chunkKey := serverAddress];
    }
  }
}
