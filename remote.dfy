/**
 * The Microsoft Graph drive API as the backend sees it. Every HTTP call is
 * a structured `Request`; the service is an oracle that answers a request
 * given every request sent before it, so any server behaviour, including
 * other clients racing on the same drive, is a possible `Server`.
 */
module Remote {

  import opened Base
  import opened Paths
  import opened Errors

  const OK := 200
  const CREATED := 201
  const ACCEPTED := 202
  const NOT_FOUND := 404

  /** The `Content-Range` header of a chunk: `bytes {first}-{last}/{total}`. */
  datatype ContentRange = ContentRange(first: U64, last: U64, total: U64)

  datatype Request =
    /** `GET {graph}/me/drive/root` */
    | GetRoot
    /** `GET {graph}/me/drive/root:/{folder}/` */
    | GetByPath(folder: Path)
    /** `POST {graph}/me/drive/items/{parentId}/children` creating folder `name`, conflict behaviour "replace" */
    | CreateChild(parentId: string, name: string)
    /** `PUT {graph}/me/drive/items/{parentId}:/{name}:/content` with the whole file as body */
    | PutContent(parentId: string, name: string, body: seq<bv8>)
    /** `POST {graph}/me/drive/items/{parentId}:/{name}:/createUploadSession` */
    | CreateUploadSession(parentId: string, name: string)
    /** `PUT {uploadUrl}` carrying one chunk */
    | PutChunk(url: string, contentLength: nat, range: ContentRange, body: seq<bv8>)

  /** The requests the path resolver issues. */
  predicate IsLookupOrCreate(r: Request) {
    r.GetRoot? || r.GetByPath? || r.CreateChild?
  }

  /**
   * A response body after JSON decoding: either not JSON at all, or an
   * object of which only the fields the backend reads are kept (`None`
   * when a field is absent or has the wrong type).
   */
  datatype Body =
    | NotJson
    | Json(id: Option<string>, uploadUrl: Option<string>, expiry: Option<int>, ranges: Option<seq<string>>)

  datatype Response = TransportFailure | Reply(status: int, body: Body)

  /** The remote service: the answer to a request, given all requests sent before it. */
  type Server = (seq<Request>, Request) -> Response

  /** The wall clock, read after the given requests have been sent. */
  type Clock = seq<Request> -> int

  /** A 4xx or 5xx status: the ones for which `error_for_status` returns an error. */
  predicate IsErrorStatus(status: int) {
    400 <= status < 600
  }

  /**
   * The catch-all arm of a status match, which builds its error from
   * `error_for_status().unwrap_err()`: an error status gives the error `e`,
   * any other status (a 2xx or 3xx the match did not expect) panics.
   */
  function Rejected<T>(status: int, e: Error): Outcome<T> {
    if IsErrorStatus(status) then Err(e) else Panic
  }

  /** An outcome together with every request sent so far. */
  datatype Run<+T> = Run(out: Outcome<T>, log: seq<Request>)
}
