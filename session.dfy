/**
 * The chunked upload (`create_session` and `upload_file_with_session` in
 * `src/backend/onedrive/upload.rs`): create an upload session, check that
 * it has not expired, send the chunk at offset 0, then keep sending the
 * chunk the service asks for next until it reports nothing outstanding or
 * the file complete. Before every further chunk the latest reported
 * expiry is checked.
 *
 * The service decides how long this goes on: nothing bounds the number of
 * rounds. The model runs at most `fuel` further rounds and ends in
 * `OutOfFuel` if the service still expects data after them.
 */
module Session {

  import opened Base
  import opened Paths
  import opened Errors
  import opened Remote
  import opened Ranges
  import opened Resolver
  import opened Chunks

  /** `FirstUploadSessionResponse`: where to send the chunks and until when. */
  datatype UploadTarget = UploadTarget(uploadUrl: string, expiry: int)

  /**
   * Session creation accepts only 200 with a decodable body; a failed
   * exchange, an undecodable body or an error status is
   * `CreateUploadSessionRequest`, and any other status panics.
   */
  function SessionCreated(response: Response): (r: Outcome<UploadTarget>)
    ensures r.Ok? || r.Panic? || r == Err(CreateUploadSessionRequest)
    ensures r.Ok? <==>
      response.Reply? && response.status == OK && response.body.Json?
      && response.body.uploadUrl.Some? && response.body.expiry.Some?
    ensures r.Ok? ==> r.value == UploadTarget(response.body.uploadUrl.value, response.body.expiry.value)
    ensures r.Panic? <==> response.Reply? && response.status != OK && !IsErrorStatus(response.status)
  {
    match response
    case TransportFailure => Err(CreateUploadSessionRequest)
    case Reply(status, body) =>
      if status == OK then
        if body.Json? && body.uploadUrl.Some? && body.expiry.Some?
        then Ok(UploadTarget(body.uploadUrl.value, body.expiry.value))
        else Err(CreateUploadSessionRequest)
      else Rejected(status, CreateUploadSessionRequest)
  }

  /**
   * `create_session`: resolve the destination, then ask for an upload
   * session for it; the session request comes right after the resolution.
   */
  function CreateSession(server: Server, log: seq<Request>, base: Path, path: Path): (r: Run<UploadTarget>)
    ensures |r.log| >= |log| && r.log[..|log|] == log
    ensures HasRoot(path) ==> r == Run(Err(InvalidPath(path)), log)
    ensures
      var located := CaluPath(server, log, base, path);
      && (located.out.Ok? ==>
            var request := Request.CreateUploadSession(located.out.value.0, located.out.value.1);
            r == Run(SessionCreated(server(located.log, request)), located.log + [request]))
      && (!located.out.Ok? ==> r == Run(located.out.Cast(), located.log))
  {
    var located := CaluPath(server, log, base, path);
    if !located.out.Ok? then Run(located.out.Cast(), located.log)
    else
      var request := Request.CreateUploadSession(located.out.value.0, located.out.value.1);
      Run(SessionCreated(server(located.log, request)), located.log + [request])
  }

  /**
   * What the chunk loop works with: the service, the clock, how the start
   * offset is read from an entry of `nextExpectedRanges` (`None` is the
   * `unwrap` panic) and the request that sends the chunk at an offset. The
   * upload reads offsets with `ParseRangeStart` and sends `ChunkRequest`s
   * to the session's URL (`SessionTransfer`); the loop's own properties
   * hold for any reader and any requests.
   */
  datatype Transfer = Transfer(server: Server, clock: Clock, readStart: string -> Option<U64>, chunk: U64 -> Request)

  /** The transfer of `upload_file_with_session`: chunks of `stream` to the session's upload URL. */
  function SessionTransfer(server: Server, clock: Clock, target: UploadTarget, stream: seq<bv8>, size: U64): (t: Transfer)
    ensures forall start: U64 :: t.chunk(start) == ChunkRequest(target.uploadUrl, stream, size, start)
  {
    Transfer(server, clock, ParseRangeStart, (start: U64) => ChunkRequest(target.uploadUrl, stream, size, start))
  }

  /** Sending the chunk at `start` and mapping the service's answer. */
  function ChunkExchange(t: Transfer, log: seq<Request>, start: U64): Run<Option<UploadStatus>> {
    var request := t.chunk(start);
    Run(ChunkStatus(t.server(log, request)), log + [request])
  }

  /**
   * `upload_session`: read the chunk in place, send it with its headers to
   * the session's URL and map the status; the transfer `t` sends exactly
   * that request for `start`.
   */
  method UploadSession(t: Transfer, url: string, stream: seq<bv8>, size: U64, log: seq<Request>, start: U64,
                       grain: nat -> nat)
    returns (reply: Outcome<Option<UploadStatus>>, sent: seq<Request>)
    requires t.chunk(start) == ChunkRequest(url, stream, size, start)
    ensures Run(reply, sent) == ChunkExchange(t, log, start)
  {
    var body := ReadChunk(stream, start, grain);
    var request := PutChunk(url, |body|, ContentRange(start, LastByte(start, |body|), size), body);
    reply := ChunkStatus(t.server(log, request));
    sent := log + [request];
  }

  /** A request that is the chunk of this transfer at some offset. */
  predicate IsChunkOf(t: Transfer, r: Request) {
    exists start: U64 :: r == t.chunk(start)
  }

  /** Every request in `log` from index `from` on is a chunk of this transfer. */
  predicate OnlyChunksFrom(t: Transfer, log: seq<Request>, from: nat) {
    forall i :: from <= i < |log| ==> IsChunkOf(t, log[i])
  }

  /** The expiry the service reported in its answer to `log[j]` (0 when that answer reported none). */
  function ReportedExpiry(t: Transfer, log: seq<Request>, j: nat): int
    requires j < |log|
  {
    match ChunkStatus(t.server(log[..j], log[j]))
    case Ok(Some(status)) => status.expiry
    case _ => 0
  }

  /** The expiry in force when `log[i]` was about to be sent: `first` for the first chunk since `from`, else the one reported last. */
  function ExpiryInForce(t: Transfer, log: seq<Request>, from: nat, first: int, i: nat): int
    requires from <= i < |log|
  {
    if i == from then first else ReportedExpiry(t, log, i - 1)
  }

  /**
   * Every request in `log` from index `from` on went out while the clock
   * was within the expiry in force.
   */
  predicate WithinExpiryFrom(t: Transfer, log: seq<Request>, from: nat, first: int) {
    forall i :: from <= i < |log| ==> t.clock(log[..i]) <= ExpiryInForce(t, log, from, first, i)
  }

  /** The service's last answer says the file is complete, or that nothing more is expected. */
  predicate ServerSaysDone(t: Transfer, log: seq<Request>)
    requires |log| > 0
  {
    var status := ChunkStatus(t.server(log[..|log| - 1], log[|log| - 1]));
    status == Ok(None) || (status.Ok? && status.value.Some? && status.value.value.nextExpectedRanges == [])
  }

  /**
   * One round of the loop while something is outstanding: check the
   * expiry, take the start of the first outstanding range (the range
   * parse `unwrap`s) and send the chunk there.
   */
  function Round(t: Transfer, status: UploadStatus, log: seq<Request>): Run<Option<UploadStatus>>
    requires status.nextExpectedRanges != []
  {
    if status.expiry < t.clock(log) then Run(Err(UploadFileSession(SESSION_EXPIRED)), log)
    else
      match t.readStart(status.nextExpectedRanges[0])
      case None => Run(Panic, log)
      case Some(start) => ChunkExchange(t, log, start)
  }

  /**
   * A round sends at most one request, and only a chunk of this transfer
   * while the session is within its expiry; a round that sends nothing
   * has failed.
   */
  lemma RoundSendsCheckedChunk(t: Transfer, status: UploadStatus, log: seq<Request>)
    requires status.nextExpectedRanges != []
    ensures var r := Round(t, status, log);
      && |log| <= |r.log| <= |log| + 1 && r.log[..|log|] == log
      && (|r.log| > |log| ==> IsChunkOf(t, r.log[|log|]) && t.clock(log) <= status.expiry)
      && (|r.log| > |log| ==> r.out == ChunkStatus(t.server(log, r.log[|log|])))
      && (|r.log| == |log| ==> !r.out.Ok?)
      && (status.expiry < t.clock(log) ==> r == Run(Err(UploadFileSession(SESSION_EXPIRED)), log))
  {
    var r := Round(t, status, log);
    if |r.log| > |log| {
      assert r.log[..|log|] == log;
    }
  }

  /**
   * The loop of `upload_file_with_session` from a reported status on: stop
   * when nothing is outstanding; otherwise run a round and go on with the
   * status the service reports, until it calls the file complete.
   */
  function ChunkLoop(t: Transfer, status: UploadStatus, log: seq<Request>, fuel: nat): (r: Run<()>)
    ensures |r.log| >= |log| && r.log[..|log|] == log
    decreases fuel
  {
    if status.nextExpectedRanges == [] then Run(Ok(()), log)
    else if fuel == 0 then Run(OutOfFuel, log)
    else
      var step := Round(t, status, log);
      RoundSendsCheckedChunk(t, status, log);
      if step.out.Ok? && step.out.value.Some? then
        var r := ChunkLoop(t, step.out.value.value, step.log, fuel - 1);
        assert r.log[..|step.log|] == step.log;
        r
      else if step.out.Ok? then Run(Ok(()), step.log)
      else Run(step.out.Cast(), step.log)
  }

  /** The loop sends nothing but chunks of this transfer. */
  lemma {:induction false} LoopSendsOnlyChunks(t: Transfer, status: UploadStatus, log: seq<Request>, fuel: nat)
    ensures OnlyChunksFrom(t, ChunkLoop(t, status, log, fuel).log, |log|)
    decreases fuel
  {
    var r := ChunkLoop(t, status, log, fuel);
    if status.nextExpectedRanges != [] && fuel > 0 {
      var step := Round(t, status, log);
      RoundSendsCheckedChunk(t, status, log);
      if step.out.Ok? && step.out.value.Some? {
        var rest := ChunkLoop(t, step.out.value.value, step.log, fuel - 1);
        LoopSendsOnlyChunks(t, step.out.value.value, step.log, fuel - 1);
        assert r == rest;
        assert r.log[..|step.log|] == step.log;
        forall i | |log| <= i < |r.log|
          ensures IsChunkOf(t, r.log[i])
        {
          if i == |log| {
            assert r.log[i] == step.log[i];
          } else {
            assert IsChunkOf(t, rest.log[i]);
          }
        }
      } else {
        assert r.log == step.log;
      }
    } else {
      assert r.log == log;
    }
  }

  /**
   * Every chunk the loop sends goes out while the clock is within the
   * expiry in force: the one it started with for the first chunk, the one
   * the service reported last for every later one.
   */
  lemma {:induction false} LoopChecksExpiry(t: Transfer, status: UploadStatus, log: seq<Request>, fuel: nat)
    ensures WithinExpiryFrom(t, ChunkLoop(t, status, log, fuel).log, |log|, status.expiry)
    decreases fuel
  {
    var r := ChunkLoop(t, status, log, fuel);
    if status.nextExpectedRanges != [] && fuel > 0 {
      var step := Round(t, status, log);
      RoundSendsCheckedChunk(t, status, log);
      if step.out.Ok? && step.out.value.Some? {
        var next := step.out.value.value;
        var rest := ChunkLoop(t, next, step.log, fuel - 1);
        LoopChecksExpiry(t, next, step.log, fuel - 1);
        assert r == rest;
        assert r.log[..|step.log|] == step.log;
        assert r.log[..|log|] == log;
        assert r.log[|log|] == step.log[|log|];
        WithinExpiryExtend(t, r.log, |log|, status.expiry, next);
      } else {
        assert r.log == step.log;
      }
    } else {
      assert r.log == log;
    }
  }

  /**
   * A chunk sent within `first` whose answer reports `next`, followed by
   * chunks each within the expiry in force from `next` on, makes a run of
   * chunks each within the expiry in force from `first` on.
   */
  lemma WithinExpiryExtend(t: Transfer, log: seq<Request>, from: nat, first: int, next: UploadStatus)
    requires from < |log|
    requires t.clock(log[..from]) <= first
    requires ChunkStatus(t.server(log[..from], log[from])) == Ok(Some(next))
    requires WithinExpiryFrom(t, log, from + 1, next.expiry)
    ensures WithinExpiryFrom(t, log, from, first)
  {
    forall i | from < i < |log|
      ensures ExpiryInForce(t, log, from, first, i) == ExpiryInForce(t, log, from + 1, next.expiry, i)
    {
    }
  }

  /** The loop succeeds only when nothing was outstanding or the service's last answer said the upload is done. */
  lemma {:induction false} LoopSucceedsOnlyWhenDone(t: Transfer, status: UploadStatus, log: seq<Request>, fuel: nat)
    ensures var r := ChunkLoop(t, status, log, fuel);
      r.out.Ok? ==> status.nextExpectedRanges == [] || (|r.log| > |log| && ServerSaysDone(t, r.log))
    decreases fuel
  {
    if status.nextExpectedRanges != [] && fuel > 0 {
      var r := ChunkLoop(t, status, log, fuel);
      var step := Round(t, status, log);
      if step.out.Ok? && step.out.value.Some? && step.out.value.value.nextExpectedRanges != [] {
        var next := step.out.value.value;
        RoundSendsCheckedChunk(t, status, log);
        LoopSucceedsOnlyWhenDone(t, next, step.log, fuel - 1);
        assert r == ChunkLoop(t, next, step.log, fuel - 1);
      } else if step.out.Ok? {
        RoundSaysDone(t, status, log);
        if step.out.value.Some? {
          assert r == ChunkLoop(t, step.out.value.value, step.log, fuel - 1);
        }
        assert r.log == step.log;
      }
    }
  }

  /** A round that succeeds with nothing more expected sent a chunk, and the service's answer to it says the upload is done. */
  lemma RoundSaysDone(t: Transfer, status: UploadStatus, log: seq<Request>)
    requires status.nextExpectedRanges != []
    requires var step := Round(t, status, log);
      step.out.Ok? && (step.out.value.None? || step.out.value.value.nextExpectedRanges == [])
    ensures var step := Round(t, status, log);
      |step.log| > |log| && ServerSaysDone(t, step.log)
  {
    RoundSendsCheckedChunk(t, status, log);
  }

  /**
   * `upload_file_with_session` as a function of the service and the clock:
   * an expired session fails before any chunk; the first chunk goes to
   * offset 0, and a "complete" answer to it is reported as an expired
   * session; after that the loop takes over.
   */
  function SessionUpload(server: Server, clock: Clock, log: seq<Request>, base: Path,
                         stream: seq<bv8>, size: U64, path: Path, fuel: nat): (r: Run<()>)
    ensures |r.log| >= |log| && r.log[..|log|] == log
  {
    var created := CreateSession(server, log, base, path);
    match created.out
    case Ok(target) =>
      if target.expiry < clock(created.log) then Run(Err(UploadFileSession(SESSION_EXPIRED)), created.log)
      else
        var t := SessionTransfer(server, clock, target, stream, size);
        var first := ChunkExchange(t, created.log, 0);
        assert first.log[..|log|] == log;
        (match first.out
         case Ok(None) => Run(Err(UploadFileSession(SESSION_EXPIRED)), first.log)
         case Ok(Some(status)) =>
           var r := ChunkLoop(t, status, first.log, fuel);
           assert r.log[..|first.log|] == first.log;
           r
         case Err(e) => Run(Err(e), first.log)
         case Panic => Run(Panic, first.log)
         case OutOfFuel => Run(OutOfFuel, first.log))
    case Err(e) => Run(Err(e), created.log)
    case Panic => Run(Panic, created.log)
    case OutOfFuel => Run(OutOfFuel, created.log)
  }

  /**
   * `upload_file_with_session`: the session is created, its expiry
   * checked and the chunk at 0 sent; `SendRemaining` does the rest.
   */
  method UploadFileWithSession(server: Server, clock: Clock, log0: seq<Request>, base: Path,
                               stream: seq<bv8>, size: U64, path: Path, grain: nat -> nat, fuel: nat)
    returns (out: Outcome<()>, log: seq<Request>)
    ensures Run(out, log) == SessionUpload(server, clock, log0, base, stream, size, path, fuel)
  {
    var created := CreateSession(server, log0, base, path);
    log := created.log;
    if !created.out.Ok? {
      out := created.out.Cast();
      return;
    }
    var target := created.out.value;
    if target.expiry < clock(log) {
      out := Err(UploadFileSession(SESSION_EXPIRED));
      return;
    }
    var t := SessionTransfer(server, clock, target, stream, size);
    var reply;
    reply, log := UploadSession(t, target.uploadUrl, stream, size, log, 0, grain);
    match reply {
      case Ok(Some(status)) => out, log := SendRemaining(t, target, stream, size, status, log, grain, fuel);
      case Ok(None) => out := Err(UploadFileSession(SESSION_EXPIRED));
      case Err(e) => out := Err(e);
      case Panic => out := Panic;
      case OutOfFuel => out := OutOfFuel;
    }
  }

  /**
   * The `while` loop of `upload_file_with_session`: while ranges are
   * outstanding, check the expiry, set `start_pos` to the start of the
   * first range, send that chunk and take the service's answer as the new
   * `uploading`, for at most `fuel` rounds.
   */
  method SendRemaining(t: Transfer, target: UploadTarget, stream: seq<bv8>, size: U64, status: UploadStatus,
                       log0: seq<Request>, grain: nat -> nat, fuel: nat)
    returns (out: Outcome<()>, log: seq<Request>)
    requires t == SessionTransfer(t.server, t.clock, target, stream, size)
    ensures Run(out, log) == ChunkLoop(t, status, log0, fuel)
  {
    var uploading := status;
    var startPos: U64;
    log := log0;
    var rounds := fuel;
    while uploading.nextExpectedRanges != []
      invariant ChunkLoop(t, uploading, log, rounds) == ChunkLoop(t, status, log0, fuel)
      decreases rounds
    {
      if rounds == 0 {
        out := OutOfFuel;
        return;
      }
      if uploading.expiry < t.clock(log) {
        out := Err(UploadFileSession(SESSION_EXPIRED));
        return;
      }
      var range := ParseRangeStart(uploading.nextExpectedRanges[0]);
      if range.None? {
        out := Panic;
        return;
      }
      startPos := range.value;
      var ret;
      ret, log := UploadSession(t, target.uploadUrl, stream, size, log, startPos, grain);
      rounds := rounds - 1;
      match ret {
        case Ok(Some(next)) => uploading := next;
        case Ok(None) => break;
        case Err(e) => out := Err(e); return;
        case Panic => out := Panic; return;
        case OutOfFuel => out := OutOfFuel; return;
      }
    }
    out := Ok(());
  }

  /**
   * An expired session is caught before the next chunk: the loop fails
   * with "Upload session expired" and sends nothing more.
   */
  lemma ExpiredSessionSendsNothing(t: Transfer, status: UploadStatus, log: seq<Request>, fuel: nat)
    requires status.nextExpectedRanges != [] && fuel > 0
    requires status.expiry < t.clock(log)
    ensures ChunkLoop(t, status, log, fuel) == Run(Err(UploadFileSession(SESSION_EXPIRED)), log)
  {
  }

  /**
   * The next chunk starts where the first outstanding range the service
   * reported starts, not where the previous chunk ended.
   */
  lemma NextChunkAtReportedRange(t: Transfer, status: UploadStatus, log: seq<Request>, fuel: nat, start: U64, rest: string)
    requires t.readStart == ParseRangeStart
    requires fuel > 0 && t.clock(log) <= status.expiry
    requires |status.nextExpectedRanges| > 0
    requires status.nextExpectedRanges[0] == Decimal.DecimalString(start) + "-" + rest
    ensures var r := ChunkLoop(t, status, log, fuel);
      |r.log| > |log| && r.log[|log|] == t.chunk(start)
  {
    RangeStartRoundTrip(start, rest);
    var r := ChunkLoop(t, status, log, fuel);
    var step := Round(t, status, log);
    assert step == ChunkExchange(t, log, start);
    if step.out.Ok? && step.out.value.Some? {
      var more := ChunkLoop(t, step.out.value.value, step.log, fuel - 1);
      assert r == more;
      assert more.log[..|step.log|] == step.log;
      assert r.log[|log|] == step.log[|log|];
    }
  }

  /**
   * With the range parse as written, an open-ended entry such as
   * `10485760-` makes the loop panic before it sends anything, where the
   * upload (reading offsets with `ParseRangeStart`) sends the chunk there.
   */
  lemma OpenRangeStopsLoopAsWritten(t: Transfer, status: UploadStatus, log: seq<Request>, fuel: nat, start: U64)
    requires t.readStart == ParseRangeAsWritten
    requires fuel > 0 && t.clock(log) <= status.expiry
    requires |status.nextExpectedRanges| > 0 && status.nextExpectedRanges[0] == Decimal.DecimalString(start) + "-"
    ensures ChunkLoop(t, status, log, fuel) == Run(Panic, log)
  {
    OpenRangePanicsAsWritten(start);
  }

  /** Giving the loop more rounds does not change an upload that ended within fewer. */
  lemma {:induction false} MoreRoundsSameEnd(t: Transfer, status: UploadStatus, log: seq<Request>, fuel: nat, more: nat)
    requires !ChunkLoop(t, status, log, fuel).out.OutOfFuel?
    requires fuel <= more
    ensures ChunkLoop(t, status, log, more) == ChunkLoop(t, status, log, fuel)
    decreases fuel
  {
    if status.nextExpectedRanges != [] {
      LoopUnfold(t, status, log, fuel);
      LoopUnfold(t, status, log, more);
      var step := Round(t, status, log);
      if step.out.Ok? && step.out.value.Some? {
        MoreRoundsSameEnd(t, step.out.value.value, step.log, fuel - 1, more - 1);
      }
    }
  }

  /** One round of the loop and what it leaves to the rest of the loop. */
  lemma LoopUnfold(t: Transfer, status: UploadStatus, log: seq<Request>, fuel: nat)
    requires status.nextExpectedRanges != []
    ensures fuel == 0 ==> ChunkLoop(t, status, log, fuel) == Run(OutOfFuel, log)
    ensures fuel > 0 ==>
      var step := Round(t, status, log);
      var r := ChunkLoop(t, status, log, fuel);
      && (step.out.Ok? && step.out.value.Some? ==> r == ChunkLoop(t, step.out.value.value, step.log, fuel - 1))
      && (step.out == Ok(None) ==> r == Run(Ok(()), step.log))
      && (!step.out.Ok? ==> r == Run(step.out.Cast(), step.log))
  {
  }

  /**
   * The first steps of a session upload: a session request right after
   * the path resolution; if the session has already expired, that is the
   * last request; otherwise the next one is the chunk at offset 0, and if
   * the service calls the file complete after it the upload still fails
   * as an expired session.
   */
  lemma SessionStartsAtZero(server: Server, clock: Clock, log: seq<Request>, base: Path,
                            stream: seq<bv8>, size: U64, path: Path, fuel: nat)
    requires CreateSession(server, log, base, path).out.Ok?
    ensures
      var created := CreateSession(server, log, base, path);
      var target := created.out.value;
      var r := SessionUpload(server, clock, log, base, stream, size, path, fuel);
      && (target.expiry < clock(created.log) ==> r == Run(Err(UploadFileSession(SESSION_EXPIRED)), created.log))
      && (clock(created.log) <= target.expiry ==>
            var first := ChunkRequest(target.uploadUrl, stream, size, 0);
            && |r.log| > |created.log| && r.log[|created.log|] == first
            && (ChunkStatus(server(created.log, first)) == Ok(None) ==>
                  r.out == Err(UploadFileSession(SESSION_EXPIRED))))
  {
    var created := CreateSession(server, log, base, path);
    var target := created.out.value;
    if clock(created.log) <= target.expiry {
      var t := SessionTransfer(server, clock, target, stream, size);
      var first := ChunkExchange(t, created.log, 0);
      var r := SessionUpload(server, clock, log, base, stream, size, path, fuel);
      if first.out.Ok? && first.out.value.Some? {
        var rest := ChunkLoop(t, first.out.value.value, first.log, fuel);
        assert rest.log[..|first.log|] == first.log;
        assert r.log[|created.log|] == first.log[|created.log|];
      }
    }
  }

  /** A request a session upload sends: a lookup or creation while resolving, the session request, or a chunk. */
  predicate IsSessionUploadRequest(r: Request) {
    IsLookupOrCreate(r) || r.CreateUploadSession? || r.PutChunk?
  }

  /** Every request in `log` from index `from` on is one a session upload sends. */
  predicate SessionRequestsFrom(log: seq<Request>, from: nat) {
    forall i :: from <= i < |log| ==> IsSessionUploadRequest(log[i])
  }

  /** The chunks of a session transfer are `PUT`s of chunks. */
  lemma SessionChunksArePuts(server: Server, clock: Clock, target: UploadTarget, stream: seq<bv8>, size: U64, r: Request)
    requires IsChunkOf(SessionTransfer(server, clock, target, stream, size), r)
    ensures r.PutChunk?
  {
    var t := SessionTransfer(server, clock, target, stream, size);
    var start: U64 :| r == t.chunk(start);
  }

  /** Creating a session sends lookups and creations, then the session request. */
  lemma CreateSessionRequests(server: Server, log: seq<Request>, base: Path, path: Path)
    ensures SessionRequestsFrom(CreateSession(server, log, base, path).log, |log|)
  {
    var located := CaluPath(server, log, base, path);
    var created := CreateSession(server, log, base, path);
    forall i | |log| <= i < |created.log|
      ensures IsSessionUploadRequest(created.log[i])
    {
      if i < |located.log| {
        assert created.log[i] == located.log[i];
      }
    }
  }

  /**
   * A session upload sends nothing but lookups, folder creations, the
   * session request and chunks: never a whole-file `PUT`.
   */
  lemma SessionSendsOnlySessionRequests(server: Server, clock: Clock, log: seq<Request>, base: Path,
                                        stream: seq<bv8>, size: U64, path: Path, fuel: nat)
    ensures SessionRequestsFrom(SessionUpload(server, clock, log, base, stream, size, path, fuel).log, |log|)
  {
    var created := CreateSession(server, log, base, path);
    CreateSessionRequests(server, log, base, path);
    if created.out.Ok? && clock(created.log) <= created.out.value.expiry {
      var t := SessionTransfer(server, clock, created.out.value, stream, size);
      var first := ChunkExchange(t, created.log, 0);
      assert SessionRequestsFrom(first.log, |log|) by {
        assert first.log[..|created.log|] == created.log;
        SessionChunksArePuts(server, clock, created.out.value, stream, size, t.chunk(0));
      }
      if first.out.Ok? && first.out.value.Some? {
        var rest := ChunkLoop(t, first.out.value.value, first.log, fuel);
        LoopSendsOnlyChunks(t, first.out.value.value, first.log, fuel);
        forall i | |log| <= i < |rest.log|
          ensures IsSessionUploadRequest(rest.log[i])
        {
          if i < |first.log| {
            assert rest.log[i] == rest.log[..|first.log|][i];
          } else {
            SessionChunksArePuts(server, clock, created.out.value, stream, size, rest.log[i]);
          }
        }
      }
    }
  }
}
