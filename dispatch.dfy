/**
 * The size policy of `OnedriveInner::upload` and the direct upload
 * (`upload` and `upload_file` in `src/backend/onedrive/upload.rs`): files
 * above 250 GiB are refused before anything is sent, files below one
 * chunk go up in a single `PUT`, every other file through an upload
 * session.
 */
module Dispatch {

  import opened Base
  import opened Paths
  import opened Errors
  import opened Remote
  import opened Resolver
  import opened Chunks
  import opened Session
  import opened Sizes

  /** `MAX_FILE_LIMIT`: 250 GiB. */
  const MAX_FILE_LIMIT: nat := 250 * 1024 * 1024 * 1024

  /**
   * The status mapping of the direct upload: 200 and 201 mean the file is
   * stored; a failed exchange or an error status is an `UploadFile` error
   * and any other status panics.
   */
  function FileUploaded(response: Response): (r: Outcome<()>)
    ensures r.Ok? <==> response.Reply? && (response.status == OK || response.status == CREATED)
    ensures r.Panic? <==> response.Reply? && response.status != OK && response.status != CREATED
                          && !IsErrorStatus(response.status)
    ensures r.Ok? || r.Panic? || r == Err(Error.UploadFile)
  {
    match response
    case TransportFailure => Err(Error.UploadFile)
    case Reply(status, _) =>
      if status == CREATED || status == OK then Ok(()) else Rejected(status, Error.UploadFile)
  }

  /**
   * `upload_file`: resolve the destination, then `PUT` the whole stream,
   * read from its start, under the file name in the parent folder.
   */
  function UploadFile(server: Server, log: seq<Request>, base: Path, stream: seq<bv8>, path: Path): (r: Run<()>)
    ensures |r.log| >= |log| && r.log[..|log|] == log
    ensures HasRoot(path) ==> r == Run(Err(InvalidPath(path)), log)
    ensures
      var located := CaluPath(server, log, base, path);
      && (located.out.Ok? ==>
            var put := PutContent(located.out.value.0, located.out.value.1, stream);
            r == Run(FileUploaded(server(located.log, put)), located.log + [put]))
      && (!located.out.Ok? ==> r == Run(located.out.Cast(), located.log))
  {
    var located := CaluPath(server, log, base, path);
    if !located.out.Ok? then Run(located.out.Cast(), located.log)
    else
      var request := PutContent(located.out.value.0, located.out.value.1, stream);
      Run(FileUploaded(server(located.log, request)), located.log + [request])
  }

  /**
   * `OnedriveInner::upload`: refuse a file above `MAX_FILE_LIMIT` with its
   * size written out, upload one below `CHUNK_SIZE` directly and any other
   * through a session (of at most `fuel` rounds after the first chunk).
   */
  function Upload(server: Server, clock: Clock, log: seq<Request>, base: Path,
                  stream: seq<bv8>, size: U64, path: Path, fuel: nat): (r: Run<()>)
    ensures |r.log| >= |log| && r.log[..|log|] == log
  {
    if size > MAX_FILE_LIMIT then Run(Err(FileTooLarge(path, SizeString(size))), log)
    else if size < CHUNK_SIZE then UploadFile(server, log, base, stream, path)
    else SessionUpload(server, clock, log, base, stream, size, path, fuel)
  }

  /** Every request in `log` from index `from` on is a lookup, a folder creation or a whole-file `PUT`. */
  predicate DirectRequestsFrom(log: seq<Request>, from: nat) {
    forall i :: from <= i < |log| ==> IsLookupOrCreate(log[i]) || log[i].PutContent?
  }

  /**
   * A file above 250 GiB is refused with `FileTooLarge`, naming the path
   * and the size as `u64_to_size_string` writes it, before any path
   * resolution or request; the size is written in GB or a larger unit.
   */
  lemma TooLargeRefusedUpfront(server: Server, clock: Clock, log: seq<Request>, base: Path,
                               stream: seq<bv8>, size: U64, path: Path, fuel: nat)
    requires size > MAX_FILE_LIMIT
    ensures Upload(server, clock, log, base, stream, size, path, fuel)
         == Run(Err(FileTooLarge(path, SizeString(size))), log)
    ensures UnitIndex(size) >= 3
  {
    assert Pow1024(3) == 1024 * 1024 * 1024;
    UnitIndexAtLeast(size, 3);
  }

  /**
   * A file below one chunk takes exactly the direct path: only lookups,
   * folder creations and, once the destination is resolved, one `PUT` of
   * the whole stream as the last request; no upload session.
   */
  lemma SmallFileGoesDirect(server: Server, clock: Clock, log: seq<Request>, base: Path,
                            stream: seq<bv8>, size: U64, path: Path, fuel: nat)
    requires size < CHUNK_SIZE
    ensures var r := Upload(server, clock, log, base, stream, size, path, fuel);
      && r == UploadFile(server, log, base, stream, path)
      && DirectRequestsFrom(r.log, |log|)
      && (r.out.Ok? ==> |r.log| > |log| && r.log[|r.log| - 1].PutContent? && r.log[|r.log| - 1].body == stream)
  {
    var r := Upload(server, clock, log, base, stream, size, path, fuel);
    var located := CaluPath(server, log, base, path);
    forall i | |log| <= i < |r.log|
      ensures IsLookupOrCreate(r.log[i]) || r.log[i].PutContent?
    {
      if i < |located.log| {
        assert r.log[i] == located.log[i];
      }
    }
  }

  /**
   * A file from one chunk up to 250 GiB, the limit itself included, takes
   * exactly the session path: it is not refused and no whole-file `PUT`
   * is sent.
   */
  lemma LargeFileGoesThroughSession(server: Server, clock: Clock, log: seq<Request>, base: Path,
                                    stream: seq<bv8>, size: U64, path: Path, fuel: nat)
    requires CHUNK_SIZE <= size <= MAX_FILE_LIMIT
    ensures var r := Upload(server, clock, log, base, stream, size, path, fuel);
      && r == SessionUpload(server, clock, log, base, stream, size, path, fuel)
      && SessionRequestsFrom(r.log, |log|)
      && forall i :: |log| <= i < |r.log| ==> !r.log[i].PutContent?
  {
    SessionSendsOnlySessionRequests(server, clock, log, base, stream, size, path, fuel);
  }
}
