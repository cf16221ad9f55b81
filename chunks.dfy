/**
 * One chunk of a session upload (`upload_session` in
 * `src/backend/onedrive/upload.rs`): fill a 10 MiB buffer from the stream
 * at the given offset, send it with its `Content-Length` and
 * `Content-Range`, and read the status the service answers with.
 */
module Chunks {

  import opened Base
  import opened Errors
  import opened Remote

  /** `CHUNK_SIZE`: 10 MiB. */
  const CHUNK_SIZE: nat := 10 * 1024 * 1024

  /**
   * The bytes a chunk read at `start` yields: up to `CHUNK_SIZE` bytes from
   * `start` on, fewer at the end of the stream, none past it.
   */
  function ChunkAt(stream: seq<bv8>, start: nat): seq<bv8> {
    if start >= |stream| then []
    else if |stream| - start <= CHUNK_SIZE then stream[start..]
    else stream[start..start + CHUNK_SIZE]
  }

  /** A chunk is the next `CHUNK_SIZE` bytes of the stream, or all that remain, or nothing past the end. */
  lemma ChunkAtSlice(stream: seq<bv8>, start: nat)
    ensures var chunk := ChunkAt(stream, start);
      && |chunk| == (if start < |stream| then Min(CHUNK_SIZE, |stream| - start) else 0)
      && (start < |stream| ==> chunk == stream[start..start + |chunk|])
  {
  }

  /**
   * How many bytes one `read` call delivers into `space` free bytes when
   * `available` bytes remain: at least one when both are positive (zero
   * means end of stream), at most `1 + grain`, where `grain` stands for
   * however the reader happens to split its data.
   */
  function ReadCount(available: nat, space: nat, grain: nat): (k: nat)
    ensures k <= available && k <= space
    ensures k == 0 <==> available == 0 || space == 0
  {
    Min(Min(available, space), 1 + grain)
  }

  /**
   * The buffer fill of `upload_session`: a `CHUNK_SIZE` buffer is filled in
   * place by repeated reads, each as long as the reader chooses
   * (`grain(k)` for the k-th read), until it is full or a read returns
   * nothing; then it is cut to the bytes read. Whatever the reader's
   * choices, the result is the stream's bytes from `start` on.
   */
  method ReadChunk(stream: seq<bv8>, start: U64, grain: nat -> nat) returns (chunk: seq<bv8>)
    ensures chunk == ChunkAt(stream, start)
  {
    var buffer := new bv8[CHUNK_SIZE];
    // Seeking past the end is allowed; reads there return nothing.
    var pos := if start < |stream| then start else |stream|;
    var len := 0;
    var calls := 0;
    while len < CHUNK_SIZE
      invariant len <= CHUNK_SIZE && pos + len <= |stream|
      invariant forall j :: 0 <= j < len ==> buffer[j] == stream[pos + j]
    {
      var readLen := ReadCount(|stream| - (pos + len), CHUNK_SIZE - len, grain(calls));
      if readLen == 0 {
        break;
      }
      forall j | 0 <= j < readLen {
        buffer[len + j] := stream[pos + len + j];
      }
      len := len + readLen;
      calls := calls + 1;
    }
    chunk := buffer[..len];
  }

  /**
   * The last byte of a chunk of `len` bytes at `start`, as
   * `start_pos + len - 1` computes it on `u64` in a release build: with
   * `len = 0` at offset 0 the subtraction wraps around to 2^64 - 1.
   */
  function LastByte(start: U64, len: U64): U64 {
    WrappingSub(WrappingAdd(start, len), 1)
  }

  /**
   * Within range the last byte is `start + len - 1`; with `len = 0` at
   * offset 0 it is 2^64 - 1, far beyond any file.
   */
  lemma LastByteValue(start: U64, len: U64)
    ensures 1 <= len && start + len <= U64_LIMIT ==> LastByte(start, len) == start + len - 1
    ensures len == 0 && start == 0 ==> LastByte(start, len) == U64_LIMIT - 1
  {
  }

  /**
   * The request that sends the chunk at `start` of a file of declared
   * `size`: the chunk's bytes as body, their number as `Content-Length`, and
   * a `Content-Range` from `start` over exactly those bytes.
   */
  function ChunkRequest(url: string, stream: seq<bv8>, size: U64, start: U64): Request {
    var body := ChunkAt(stream, start);
    PutChunk(url, |body|, ContentRange(start, LastByte(start, |body|), size), body)
  }

  /**
   * A chunk request carries the chunk at `start` as its body, its length
   * as `Content-Length`, and a `Content-Range` from `start` over exactly
   * those bytes of a file of `size` bytes.
   */
  lemma ChunkRequestHeaders(url: string, stream: seq<bv8>, size: U64, start: U64)
    ensures var r := ChunkRequest(url, stream, size, start);
      && r.PutChunk? && r.url == url && r.body == ChunkAt(stream, start)
      && r.contentLength == |r.body| <= CHUNK_SIZE
      && r.range.first == start && r.range.total == size
      && (1 <= |r.body| && start + |r.body| <= U64_LIMIT ==> r.range.last - r.range.first + 1 == |r.body|)
  {
    LastByteValue(start, |ChunkAt(stream, start)|);
  }

  /** `UploadSession`: what a 202 reply carries. */
  datatype UploadStatus = UploadStatus(nextExpectedRanges: seq<string>, expiry: int)

  /**
   * The status mapping after a chunk: 202 with a decodable body means more
   * is expected (`Some`), 200 and 201 mean the file is complete (`None`);
   * a failed exchange, a 202 whose body does not decode and an error status
   * are `UploadFileSessionRequest` errors, and any other status panics.
   */
  function ChunkStatus(response: Response): Outcome<Option<UploadStatus>> {
    match response
    case TransportFailure => Err(UploadFileSessionRequest)
    case Reply(status, body) =>
      if status == ACCEPTED then
        if body.Json? && body.ranges.Some? && body.expiry.Some?
        then Ok(Some(UploadStatus(body.ranges.value, body.expiry.value)))
        else Err(UploadFileSessionRequest)
      else if status == CREATED || status == OK then Ok(None)
      else Rejected(status, UploadFileSessionRequest)
  }

  /**
   * The three outcomes of a chunk exchange: more is expected exactly on a
   * 202 carrying ranges and an expiry, and then those are what is
   * reported; the file is complete exactly on 200 or 201; it panics
   * exactly on a status that is none of these and not an error status;
   * anything else is an `UploadFileSessionRequest` error.
   */
  lemma ChunkStatusCases(response: Response)
    ensures var r := ChunkStatus(response);
      && (r.Ok? || r.Panic? || r == Err(UploadFileSessionRequest))
      && (r.Ok? && r.value.Some? <==>
            response.Reply? && response.status == ACCEPTED && response.body.Json?
            && response.body.ranges.Some? && response.body.expiry.Some?)
      && (r.Ok? && r.value.Some? ==>
            r.value.value == UploadStatus(response.body.ranges.value, response.body.expiry.value))
      && (r == Ok(None) <==> response.Reply? && (response.status == OK || response.status == CREATED))
      && (r.Panic? <==> response.Reply? && response.status !in {OK, CREATED, ACCEPTED}
                         && !IsErrorStatus(response.status))
  {
  }
}
