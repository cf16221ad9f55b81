/**
 * Path resolution (`get_parent_id`, `create_folder` and `calu_path` in
 * `src/backend/onedrive/upload.rs`): from a folder path to the id of the
 * remote folder, creating missing folders on a 404 by the mutual recursion
 * of lookup and creation, which descends towards the root one component
 * at a time.
 */
module Resolver {

  import opened Base
  import opened Paths
  import opened Errors
  import opened Remote

  /** The lookup `get_parent_id` sends: the drive root for `/`, a by-path lookup for every other folder. */
  function Lookup(folder: Path): Request {
    if folder == Root then GetRoot else GetByPath(folder)
  }

  /** The `id` string of a successful reply; a body that is not JSON is reported as `notJson`. */
  function ItemId(body: Body, notJson: Error): (r: Outcome<string>)
    ensures r.Ok? <==> body.Json? && body.id.Some?
    ensures r.Ok? ==> r.value == body.id.value
    ensures r.Err? ==> r.error == (if body.NotJson? then notJson else Parsing)
    ensures !r.Panic? && !r.OutOfFuel?
  {
    match body
    case NotJson => Err(notJson)
    case Json(id, _, _, _) => if id.Some? then Ok(id.value) else Err(Parsing)
  }

  /**
   * `get_parent_id`: look the folder up; 200 gives its id, 404 hands over to
   * `CreateFolder`, an error status is a `GetParentId` error and any other
   * status panics. Only lookups and
   * creations are ever sent, and the first request is the folder's lookup.
   */
  function GetParentId(server: Server, log: seq<Request>, folder: Path): (r: Run<string>)
    ensures |r.log| > |log| && r.log[..|log|] == log
    ensures r.log[|log|] == Lookup(folder)
    ensures forall i :: |log| <= i < |r.log| ==> IsLookupOrCreate(r.log[i])
    ensures !r.out.OutOfFuel?
    decreases |folder.comps|, 1
  {
    var request := Lookup(folder);
    var sent := log + [request];
    match server(log, request)
    case TransportFailure => Run(Err(Error.GetParentId(folder)), sent)
    case Reply(status, body) =>
      if status == OK then Run(ItemId(body, Error.GetParentId(folder)), sent)
      else if status == NOT_FOUND then CreateFolder(server, sent, folder)
      else Run(Rejected(status, Error.GetParentId(folder)), sent)
  }

  /**
   * `create_folder`: resolve the parent first (creating it if need be), then
   * ask for the folder under it. A folder without a parent is an invalid
   * path, decided before any request; a trailing `..` panics when the
   * request body takes the folder's name. A 404 on the creation falls back
   * to creating the parent and returns what that returns; another error
   * status is a `CreateDir` error and any other status panics.
   */
  function CreateFolder(server: Server, log: seq<Request>, folder: Path): (r: Run<string>)
    ensures |r.log| >= |log| && r.log[..|log|] == log
    ensures forall i :: |log| <= i < |r.log| ==> IsLookupOrCreate(r.log[i])
    ensures Parent(folder).None? ==> r == Run(Err(InvalidPath(folder)), log)
    ensures Parent(folder).Some? ==> |r.log| > |log| && r.log[|log|] == Lookup(Parent(folder).value)
    ensures !r.out.OutOfFuel?
    decreases |folder.comps|, 0
  {
    match Parent(folder)
    case None => Run(Err(InvalidPath(folder)), log)
    case Some(parent) =>
      var resolved := GetParentId(server, log, parent);
      if !resolved.out.Ok? then Run(resolved.out.Cast(), resolved.log)
      else
        match FileName(folder)
        case None => Run(Panic, resolved.log)
        case Some(name) =>
          var request := CreateChild(resolved.out.value, name);
          var sent := resolved.log + [request];
          match server(resolved.log, request)
          case TransportFailure => Run(Err(CreateDir(folder)), sent)
          case Reply(status, body) =>
            if status == CREATED then Run(ItemId(body, Error.GetParentId(folder)), sent)
            else if status == NOT_FOUND then CreateFolder(server, sent, parent)
            else Run(Rejected(status, CreateDir(folder)), sent)
  }

  /**
   * `calu_path`: a rooted `path` is refused before any request; otherwise
   * the id of the parent of `base` joined with `path`, and the last
   * component of that join as the file name.
   */
  function CaluPath(server: Server, log: seq<Request>, base: Path, path: Path): (r: Run<(string, string)>)
    ensures HasRoot(path) ==> r == Run(Err(InvalidPath(path)), log)
    ensures |r.log| >= |log| && r.log[..|log|] == log
    ensures forall i :: |log| <= i < |r.log| ==> IsLookupOrCreate(r.log[i])
    ensures !HasRoot(path) && Parent(Join(base, path)).None? ==> r == Run(Err(InvalidPath(Join(base, path))), log)
    ensures !HasRoot(path) && Parent(Join(base, path)).Some? ==> ResolvedAs(r, server, log, Join(base, path))
    ensures r.out.Ok? ==>
      var full := Join(base, path);
      && Parent(full).Some? && FileName(full) == Some(r.out.value.1)
      && GetParentId(server, log, Parent(full).value) == Run(Ok(r.out.value.0), r.log)
    ensures !r.out.OutOfFuel?
  {
    if HasRoot(path) then Run(Err(InvalidPath(path)), log)
    else
      var full := Join(base, path);
      match Parent(full)
      case None => Run(Err(InvalidPath(full)), log)
      case Some(parent) =>
        var resolved := GetParentId(server, log, parent);
        if !resolved.out.Ok? then Run(resolved.out.Cast(), resolved.log)
        else
          match FileName(full)
          case None => Run(Err(InvalidPath(full)), resolved.log)
          case Some(name) => Run(Ok((resolved.out.value, name)), resolved.log)
  }

  /**
   * How `calu_path` ends once `full` has a parent: a failed resolution of
   * the parent is passed on; a resolved parent with a file name gives the
   * id and the name; a resolved parent without one is an invalid path.
   */
  predicate ResolvedAs(r: Run<(string, string)>, server: Server, log: seq<Request>, full: Path)
    requires Parent(full).Some?
  {
    var g := GetParentId(server, log, Parent(full).value);
    && (!g.out.Ok? ==> r == Run(g.out.Cast(), g.log))
    && (g.out.Ok? && FileName(full).None? ==> r == Run(Err(InvalidPath(full)), g.log))
    && (g.out.Ok? && FileName(full).Some? ==> r == Run(Ok((g.out.value, FileName(full).value)), g.log))
  }

  /**
   * The outcome of a lookup by the status of its reply: 200 gives the id in
   * the body, 404 hands over to the creation of the folder, a failed
   * exchange or an error status is a `GetParentId` error for the folder,
   * and any other status panics. Exactly the lookup is sent before the
   * reply is read.
   */
  lemma LookupOutcome(server: Server, log: seq<Request>, folder: Path)
    ensures var reply := server(log, Lookup(folder));
      var sent := log + [Lookup(folder)];
      var r := GetParentId(server, log, folder);
      && (reply.TransportFailure? ==> r == Run(Err(Error.GetParentId(folder)), sent))
      && (reply.Reply? && reply.status == OK ==> r == Run(ItemId(reply.body, Error.GetParentId(folder)), sent))
      && (reply.Reply? && reply.status == NOT_FOUND ==> r == CreateFolder(server, sent, folder))
      && (reply.Reply? && reply.status != OK && reply.status != NOT_FOUND ==>
            r == Run(if IsErrorStatus(reply.status) then Err(Error.GetParentId(folder)) else Panic, sent))
  {
  }

  /**
   * The outcome of a folder creation: a failed resolution of the parent is
   * passed on with nothing more sent; a folder without a name (a trailing
   * `..`) panics when the request body is built; otherwise the creation
   * request is sent right after the resolution and 201 gives the new id
   * (a bad body is a `GetParentId` error), a failed exchange or an error
   * status other than 404 is a `CreateDir` error, and any other status
   * panics. The 404 case is `CreateNotFoundFallsBack`.
   */
  lemma CreateFolderOutcome(server: Server, log: seq<Request>, folder: Path)
    requires Parent(folder).Some?
    ensures var resolved := GetParentId(server, log, Parent(folder).value);
      var r := CreateFolder(server, log, folder);
      && (!resolved.out.Ok? ==> r == Run(resolved.out.Cast(), resolved.log))
      && (resolved.out.Ok? && FileName(folder).None? ==> r == Run(Panic, resolved.log))
      && (resolved.out.Ok? && FileName(folder).Some? ==>
            var request := CreateChild(resolved.out.value, FileName(folder).value);
            var sent := resolved.log + [request];
            var reply := server(resolved.log, request);
            && (reply.TransportFailure? ==> r == Run(Err(CreateDir(folder)), sent))
            && (reply.Reply? && reply.status == CREATED ==> r == Run(ItemId(reply.body, Error.GetParentId(folder)), sent))
            && (reply.Reply? && reply.status != CREATED && reply.status != NOT_FOUND ==>
                  r == Run(if IsErrorStatus(reply.status) then Err(CreateDir(folder)) else Panic, sent)))
  {
  }

  /** A 404 on the creation of a folder returns whatever creating its parent returns. */
  lemma CreateNotFoundFallsBack(server: Server, log: seq<Request>, folder: Path)
    requires Parent(folder).Some? && FileName(folder).Some?
    requires GetParentId(server, log, Parent(folder).value).out.Ok?
    requires
      var resolved := GetParentId(server, log, Parent(folder).value);
      var reply := server(resolved.log, CreateChild(resolved.out.value, FileName(folder).value));
      reply.Reply? && reply.status == NOT_FOUND
    ensures
      var resolved := GetParentId(server, log, Parent(folder).value);
      var sent := resolved.log + [CreateChild(resolved.out.value, FileName(folder).value)];
      CreateFolder(server, log, folder) == CreateFolder(server, sent, Parent(folder).value)
  {
  }

  function Pow2(n: nat): (r: nat)
    ensures r >= 1
  {
    if n == 0 then 1 else 2 * Pow2(n - 1)
  }

  /**
   * However the server answers, resolving a folder `n` components deep
   * sends at most 2^(n+1) - 1 requests: the recursion is bounded by the
   * path's depth (each 404 on a creation re-resolves the grandparent, hence
   * the doubling).
   */
  lemma {:induction false} LookupRequestBound(server: Server, log: seq<Request>, folder: Path)
    ensures |GetParentId(server, log, folder).log| - |log| <= Pow2(|folder.comps| + 1) - 1
    decreases |folder.comps|, 1
  {
    var request := Lookup(folder);
    var reply := server(log, request);
    if reply.Reply? && reply.status != OK && reply.status == NOT_FOUND {
      CreateRequestBound(server, log + [request], folder);
    }
  }

  lemma {:induction false} CreateRequestBound(server: Server, log: seq<Request>, folder: Path)
    ensures |CreateFolder(server, log, folder).log| - |log| <= Pow2(|folder.comps| + 1) - 2
    decreases |folder.comps|, 0
  {
    if Parent(folder).Some? {
      var parent := Parent(folder).value;
      assert |parent.comps| + 1 == |folder.comps|;
      LookupRequestBound(server, log, parent);
      var resolved := GetParentId(server, log, parent);
      if resolved.out.Ok? && FileName(folder).Some? {
        var request := CreateChild(resolved.out.value, FileName(folder).value);
        var reply := server(resolved.log, request);
        if reply.Reply? && reply.status != CREATED && reply.status == NOT_FOUND {
          CreateRequestBound(server, resolved.log + [request], parent);
        }
      }
    }
  }
}
