/**
 * Path resolution against a well-behaved drive: one whose folders do not
 * change while a path is resolved, answering lookups from its set of
 * folders and accepting every folder creation. On such a drive resolving
 * a folder looks up the folder and its ancestors up to the first existing
 * one, then creates each missing folder exactly once, parents first.
 */
module Drive {

  import opened Base
  import opened Paths
  import opened Errors
  import opened Remote
  import opened Resolver

  function Found(id: string): Response {
    Reply(OK, Json(Some(id), None, None, None))
  }

  /**
   * The drive's answer: existing folders are found under `idOf`, others
   * are 404; a creation answers 201 with the id `newId` gives the new
   * folder. Uploads never reach it during resolution.
   */
  function DriveReply(existing: set<Path>, idOf: Path -> string, newId: (string, string) -> string, request: Request): Response {
    match request
    case GetRoot => if Root in existing then Found(idOf(Root)) else Reply(NOT_FOUND, NotJson)
    case GetByPath(f) => if f in existing then Found(idOf(f)) else Reply(NOT_FOUND, NotJson)
    case CreateChild(parentId, name) => Reply(CREATED, Json(Some(newId(parentId, name)), None, None, None))
    case _ => TransportFailure
  }

  /** Folders resolvable on a drive: rooted paths of names, on a drive that has a root. */
  predicate Resolvable(existing: set<Path>, f: Path) {
    Root in existing && f.rooted && Plain(f)
  }

  lemma ParentResolvable(existing: set<Path>, f: Path)
    requires Resolvable(existing, f) && f !in existing
    ensures Parent(f).Some? && Resolvable(existing, Parent(f).value)
    ensures |Parent(f).value.comps| < |f.comps| && FileName(f).Some?
  {
    assert |f.comps| > 0;
    var p := Parent(f).value;
    forall i | 0 <= i < |p.comps| ensures p.comps[i].Normal? {
      assert p.comps[i] == f.comps[i];
    }
  }

  /** The folders on the way to `f` that the drive lacks, outermost first (`f` last). */
  function Missing(existing: set<Path>, f: Path): (m: seq<Path>)
    requires Resolvable(existing, f)
    ensures m == [] <==> f in existing
    ensures m != [] ==> m[|m| - 1] == f
    ensures forall i :: 0 <= i < |m| ==>
              m[i] !in existing && Parent(m[i]).Some? && FileName(m[i]).Some? && Resolvable(existing, Parent(m[i]).value)
    ensures m != [] ==> Parent(m[0]).value in existing
    ensures forall i :: 0 <= i < |m| - 1 ==> Parent(m[i + 1]) == Some(m[i])
    decreases |f.comps|
  {
    if f in existing then []
    else
      ParentResolvable(existing, f);
      Missing(existing, Parent(f).value) + [f]
  }

  /** The id a resolution of `f` ends with: the folder's own id, or the id the drive gives on creating it. */
  function DriveId(existing: set<Path>, idOf: Path -> string, newId: (string, string) -> string, f: Path): string
    requires Resolvable(existing, f)
    decreases |f.comps|
  {
    if f in existing then idOf(f)
    else
      ParentResolvable(existing, f);
      newId(DriveId(existing, idOf, newId, Parent(f).value), FileName(f).value)
  }

  /** The requests a resolution of `f` sends on the drive: lookups going up, then creations coming down. */
  function DriveRequests(existing: set<Path>, idOf: Path -> string, newId: (string, string) -> string, f: Path): seq<Request>
    requires Resolvable(existing, f)
    decreases |f.comps|
  {
    if f in existing then [Lookup(f)]
    else
      ParentResolvable(existing, f);
      var parent := Parent(f).value;
      [Lookup(f)] + DriveRequests(existing, idOf, newId, parent)
        + [CreateChild(DriveId(existing, idOf, newId, parent), FileName(f).value)]
  }

  /** Resolving `f` on the drive succeeds with `DriveId` after exactly the requests `DriveRequests`. */
  lemma {:induction false} ResolveOnDrive(server: Server, existing: set<Path>, idOf: Path -> string,
                                          newId: (string, string) -> string, log: seq<Request>, f: Path)
    requires forall history, request :: server(history, request) == DriveReply(existing, idOf, newId, request)
    requires Resolvable(existing, f)
    ensures Resolver.GetParentId(server, log, f)
         == Run(Ok(DriveId(existing, idOf, newId, f)), log + DriveRequests(existing, idOf, newId, f))
    decreases |f.comps|
  {
    var sent := log + [Lookup(f)];
    assert server(log, Lookup(f)) == DriveReply(existing, idOf, newId, Lookup(f));
    if f !in existing {
      ParentResolvable(existing, f);
      var parent := Parent(f).value;
      ResolveOnDrive(server, existing, idOf, newId, sent, parent);
      var resolved := Resolver.GetParentId(server, sent, parent);
      var request := CreateChild(resolved.out.value, FileName(f).value);
      assert server(resolved.log, request) == DriveReply(existing, idOf, newId, request);
      assert resolved.log + [request] == log + DriveRequests(existing, idOf, newId, f);
    }
  }

  /** The folder creations among some requests, in order. */
  function Creations(rs: seq<Request>): (cs: seq<Request>)
    ensures forall i :: 0 <= i < |cs| ==> cs[i].CreateChild?
  {
    if rs == [] then [] else (if rs[0].CreateChild? then [rs[0]] else []) + Creations(rs[1..])
  }

  lemma {:induction false} CreationsAppend(a: seq<Request>, b: seq<Request>)
    ensures Creations(a + b) == Creations(a) + Creations(b)
  {
    if a != [] {
      CreationsAppend(a[1..], b);
      assert (a + b)[1..] == a[1..] + b;
    } else {
      assert a + b == b;
    }
  }

  /**
   * Exactly one creation per missing folder, in the order of `Missing`
   * (parents before children), each under the id its parent resolved to.
   */
  lemma {:induction false} OneCreationPerMissingFolder(existing: set<Path>, idOf: Path -> string,
                                                       newId: (string, string) -> string, f: Path)
    requires Resolvable(existing, f)
    ensures
      var cs := Creations(DriveRequests(existing, idOf, newId, f));
      var m := Missing(existing, f);
      && |cs| == |m|
      && forall i :: 0 <= i < |m| ==>
           cs[i] == CreateChild(DriveId(existing, idOf, newId, Parent(m[i]).value), FileName(m[i]).value)
    decreases |f.comps|
  {
    if f in existing {
      assert Creations([Lookup(f)]) == [] + Creations([]);
    } else {
      ParentResolvable(existing, f);
      var parent := Parent(f).value;
      OneCreationPerMissingFolder(existing, idOf, newId, parent);
      CreationsGoingDown(existing, idOf, newId, f);
      assert Missing(existing, f) == Missing(existing, parent) + [f];
    }
  }

  /** The creations of a resolution of a missing folder: those of its parent's, then its own. */
  lemma CreationsGoingDown(existing: set<Path>, idOf: Path -> string, newId: (string, string) -> string, f: Path)
    requires Resolvable(existing, f) && f !in existing
    ensures Parent(f).Some? && FileName(f).Some? && Resolvable(existing, Parent(f).value)
    ensures Creations(DriveRequests(existing, idOf, newId, f))
         == Creations(DriveRequests(existing, idOf, newId, Parent(f).value))
            + [CreateChild(DriveId(existing, idOf, newId, Parent(f).value), FileName(f).value)]
  {
    ParentResolvable(existing, f);
    var parent := Parent(f).value;
    var last := CreateChild(DriveId(existing, idOf, newId, parent), FileName(f).value);
    var inner := DriveRequests(existing, idOf, newId, parent);
    CreationsAppend([Lookup(f)] + inner, [last]);
    CreationsAppend([Lookup(f)], inner);
    assert Creations([Lookup(f)]) == [] + Creations([]);
    assert Creations([last]) == [last] + Creations([]);
  }
}
