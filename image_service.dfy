/**
 * The image store service: `GET /` names the service, `POST /upload` streams the
 * request body into a freshly named file under the storage root, and
 * `GET /download/<name>` streams a stored file back once the name passes the
 * `DOWNLOAD_FILE` check. The file system is a `Storage` object: the directories
 * that exist and the content of every file, by path.
 */
module ImageService {

  import opened Wrappers
  import opened Http
  import opened ImageName

  /** The body of `GET /`. */
  const INDEX: string := "Image Service"

  /** The storage root `main` bootstraps and serves from. */
  const FILES_ROOT: string := "./files"

  /** The panic message of `Option::unwrap` on `None`. */
  const UNWRAP_NONE: string := "called `Option::unwrap()` on a `None` value"

  // ---------------------------------------------------------------- paths

  /**
   * `PathBuf::push` on Unix: an absolute `name` replaces the base; otherwise it is
   * appended, with a separator unless the base is empty or already ends in one.
   */
  function PathPush(base: string, name: string): string {
    if |name| > 0 && name[0] == '/' then name
    else if |base| == 0 || base[|base| - 1] == '/' then base + name
    else base + "/" + name
  }

  /** The directory part of a path: everything before its last separator ("" when it has none). */
  function ParentOf(p: string): string {
    if |p| == 0 then ""
    else if p[|p| - 1] == '/' then p[..|p| - 1]
    else ParentOf(p[..|p| - 1])
  }

  /** A storage root the service can push names onto: non-empty, no trailing separator. */
  predicate IsRoot(root: string) {
    |root| > 0 && root[|root| - 1] != '/'
  }

  lemma {:induction false} ParentOfChild(root: string, name: string)
    requires '/' !in name
    ensures ParentOf(root + "/" + name) == root
    decreases |name|
  {
    var p := root + "/" + name;
    if name == [] {
      assert p[..|p| - 1] == root;
    } else {
      var shorter := name[..|name| - 1];
      assert p[..|p| - 1] == root + "/" + shorter;
      assert p[|p| - 1] == name[|name| - 1];
      ParentOfChild(root, shorter);
    }
  }

  /**
   * The file a download opens is the captured name directly under the root: pushing it
   * onto the root appends one separator and the name, whose parent is the root itself.
   */
  lemma DownloadStaysInRoot(root: string, path: string)
    requires IsRoot(root)
    requires DownloadCaptures(path).Some? && DownloadCaptures(path).value.filename.Some?
    ensures var name := DownloadCaptures(path).value.filename.value;
      && PathPush(root, name) == root + "/" + name
      && ParentOf(PathPush(root, name)) == root
      && name != "." && name != ".."
  {
    var name := DownloadCaptures(path).value.filename.value;
    CapturedNameIsPlain(path);
    assert name[0] != '/';
    ParentOfChild(root, name);
  }

  // ---------------------------------------------------------------- routing

  datatype Route = IndexRoute | UploadRoute | DownloadRoute | NoRoute

  /** The `match` of `microservice_handler` on method and path, arms in source order. */
  function RouteOf(m: Method, path: string): (r: Route)
    ensures r == IndexRoute <==> m == GET && path == "/"
    ensures r == UploadRoute <==> m == POST && path == "/upload"
    ensures r == DownloadRoute <==> m == GET && StartsWith(path, "/download")
  {
    match (m, path)
    case (GET, "/") => IndexRoute
    case (POST, "/upload") => UploadRoute
    case (GET, _) => if StartsWith(path, "/download") then DownloadRoute else NoRoute
    case _ => NoRoute
  }

  /** `response_with_code`: the given status and an empty body. */
  function ResponseWithCode(code: nat): (r: Response)
    ensures r.status == code && r.body == Empty
  {
    Response(code, Empty)
  }

  // ---------------------------------------------------------------- upload

  /** One item of the inbound body stream: a chunk, or the stream's error (a reset connection). */
  datatype Frame = Chunk(data: seq<byte>) | BodyError(message: string)

  function ChunkData(f: Frame): seq<byte> {
    if f.Chunk? then f.data else []
  }

  /** The bytes of the chunks of `body`, concatenated in arrival order. */
  function Payload(body: seq<Frame>): seq<byte> {
    if body == [] then [] else Payload(body[..|body| - 1]) + ChunkData(body[|body| - 1])
  }

  /**
   * Frame `k` ends the fold: the stream failed there, or `write_all` of its chunk
   * failed (`writeErrors` maps a chunk's index to the operating system's message).
   */
  predicate Faulty(body: seq<Frame>, writeErrors: map<nat, string>, k: nat)
    requires k < |body|
  {
    body[k].BodyError? || k in writeErrors
  }

  /** The first frame from `from` on that ends the fold, or `|body|` when none does. */
  function FirstFault(body: seq<Frame>, writeErrors: map<nat, string>, from: nat): (k: nat)
    requires from <= |body|
    ensures from <= k <= |body|
    ensures forall j :: from <= j < k ==> !Faulty(body, writeErrors, j)
    ensures k < |body| ==> Faulty(body, writeErrors, k)
    decreases |body| - from
  {
    if from == |body| || Faulty(body, writeErrors, from) then from
    else FirstFault(body, writeErrors, from + 1)
  }

  /** The first faulty frame is the one every earlier frame got past. */
  lemma FirstFaultIsLeast(body: seq<Frame>, writeErrors: map<nat, string>, k: nat)
    requires k < |body| && Faulty(body, writeErrors, k)
    requires forall j :: 0 <= j < k ==> !Faulty(body, writeErrors, j)
    ensures FirstFault(body, writeErrors, 0) == k
  {
  }

  /** The error the fold resolves to when frame `k` ends it. */
  function FaultError(body: seq<Frame>, writeErrors: map<nat, string>, k: nat): IoError
    requires k < |body| && Faulty(body, writeErrors, k)
  {
    if body[k].BodyError? then Other(body[k].message) else Other(writeErrors[k])
  }

  /** A handler's outcome together with the file contents it leaves behind. */
  datatype Effect = Effect(outcome: Outcome, files: map<string, seq<byte>>)

  /**
   * The `POST /upload` arm under the generated `name`: `File::create` (which fails when
   * the directory is missing, and truncates an existing file), then one `write_all`
   * per chunk until the body ends or a frame fails; the name is the body of the
   * response only when every frame was written.
   */
  function UploadSpec(files: map<string, seq<byte>>, dirs: set<string>, root: string, name: string,
                      body: seq<Frame>, writeErrors: map<nat, string>): Effect
  {
    var path := PathPush(root, name);
    if ParentOf(path) !in dirs then Effect(Fail(NotFound), files)
    else
      var k := FirstFault(body, writeErrors, 0);
      var stored := files[path := Payload(body[..k])];
      if k == |body| then Effect(Respond(OkResponse(Text(name))), stored)
      else Effect(Fail(FaultError(body, writeErrors, k)), stored)
  }

  /** Concatenation distributes over the body: later frames only ever append. */
  lemma {:induction false} PayloadAppend(a: seq<Frame>, b: seq<Frame>)
    ensures Payload(a + b) == Payload(a) + Payload(b)
    decreases |b|
  {
    if b == [] {
      assert a + b == a;
    } else {
      var init := b[..|b| - 1];
      assert (a + b)[..|a + b| - 1] == a + init;
      PayloadAppend(a, init);
    }
  }

  /** Chunk `i` lands right after the bytes of the chunks before it, unaltered. */
  lemma ChunkStoredInOrder(body: seq<Frame>, i: nat)
    requires i < |body| && body[i].Chunk?
    ensures var at := |Payload(body[..i])|;
      at + |body[i].data| <= |Payload(body)|
      && Payload(body)[at..at + |body[i].data|] == body[i].data
  {
    assert body == body[..i] + [body[i]] + body[i + 1..];
    PayloadAppend(body[..i] + [body[i]], body[i + 1..]);
    PayloadAppend(body[..i], [body[i]]);
    assert Payload([body[i]]) == body[i].data by {
      assert [body[i]][..0] == [];
    }
  }

  /**
   * A complete upload stores exactly the concatenated chunks under the generated
   * name (replacing whatever was there), answers with the name, and leaves every
   * other file as it was.
   */
  lemma UploadStoresPayload(files: map<string, seq<byte>>, dirs: set<string>, root: string, name: string,
                            body: seq<Frame>, writeErrors: map<nat, string>)
    requires ParentOf(PathPush(root, name)) in dirs
    requires forall k :: 0 <= k < |body| ==> !Faulty(body, writeErrors, k)
    ensures var e := UploadSpec(files, dirs, root, name, body, writeErrors);
      && e.outcome == Respond(OkResponse(Text(name)))
      && e.files.Keys == files.Keys + {PathPush(root, name)}
      && e.files[PathPush(root, name)] == Payload(body)
      && forall p :: p in files && p != PathPush(root, name) ==> e.files[p] == files[p]
  {
    assert body[..|body|] == body;
  }

  /** The empty body stores an empty file and still answers with the name. */
  lemma EmptyUploadStoresEmptyFile(files: map<string, seq<byte>>, dirs: set<string>, root: string, name: string,
                                   writeErrors: map<nat, string>)
    requires ParentOf(PathPush(root, name)) in dirs
    ensures var e := UploadSpec(files, dirs, root, name, [], writeErrors);
      e.outcome == Respond(OkResponse(Text(name))) && e.files[PathPush(root, name)] == []
  {
  }

  /**
   * An upload that a frame ends is an I/O error, not a response: the name is never
   * handed out, yet the file keeps the chunks written before the failing frame, a
   * prefix of the body's bytes; every other file is untouched.
   */
  lemma FailedUploadLeavesOrphanPrefix(files: map<string, seq<byte>>, dirs: set<string>, root: string, name: string,
                                       body: seq<Frame>, writeErrors: map<nat, string>, k: nat)
    requires ParentOf(PathPush(root, name)) in dirs
    requires k < |body| && Faulty(body, writeErrors, k)
    requires forall j :: 0 <= j < k ==> !Faulty(body, writeErrors, j)
    ensures var e := UploadSpec(files, dirs, root, name, body, writeErrors);
      && e.outcome == Fail(FaultError(body, writeErrors, k))
      && e.files.Keys == files.Keys + {PathPush(root, name)}
      && e.files[PathPush(root, name)] == Payload(body[..k])
      && Payload(body[..k]) <= Payload(body)
      && forall p :: p in files && p != PathPush(root, name) ==> e.files[p] == files[p]
  {
    FirstFaultIsLeast(body, writeErrors, k);
    assert body == body[..k] + body[k..];
    PayloadAppend(body[..k], body[k..]);
  }

  /** With the directory missing, `File::create` fails and nothing is written. */
  lemma UploadWithoutRootFails(files: map<string, seq<byte>>, dirs: set<string>, root: string, name: string,
                               body: seq<Frame>, writeErrors: map<nat, string>)
    requires IsRoot(root) && IsGeneratedName(name) && root !in dirs
    ensures UploadSpec(files, dirs, root, name, body, writeErrors) == Effect(Fail(NotFound), files)
  {
    assert '/' !in name by {
      assert forall i :: 0 <= i < |name| ==> IsAsciiAlphanumeric(name[i]);
    }
    ParentOfChild(root, name);
  }

  /**
   * When `./files` did not exist and `main`'s `create_dir` failed, whatever the reason, every
   * upload fails at `File::create` with `NotFound` and stores nothing.
   */
  lemma FailedBootstrapFailsUploads(dirs: set<string>, files: map<string, seq<byte>>, failure: Option<string>,
                                    name: string, body: seq<Frame>, writeErrors: map<nat, string>)
    requires FILES_ROOT !in dirs && CreateDirError(dirs, files, FILES_ROOT, failure).Some?
    requires IsGeneratedName(name)
    ensures UploadSpec(files, dirs, FILES_ROOT, name, body, writeErrors) == Effect(Fail(NotFound), files)
  {
    UploadWithoutRootFails(files, dirs, FILES_ROOT, name, body, writeErrors);
  }

  // ---------------------------------------------------------------- download

  /**
   * The `GET /download…` arm: a path the pattern rejects is 404 with nothing opened;
   * the bare `/download/` matches with the group absent, and `unwrap` panics; a
   * captured name is opened under the root, its bytes streamed back, and a missing
   * file fails the handler's future with the I/O error.
   */
  function DownloadSpec(files: map<string, seq<byte>>, root: string, path: string): Outcome {
    match DownloadCaptures(path)
    case None => Respond(ResponseWithCode(NOT_FOUND))
    case Some(Captures(None)) => Panic(UNWRAP_NONE)
    case Some(Captures(Some(name))) =>
      var p := PathPush(root, name);
      if p in files then Respond(OkResponse(Bytes(files[p]))) else Fail(NotFound)
  }

  /** A path outside the pattern's language is 404 with an empty body, whatever the files are. */
  lemma RejectedDownloadOpensNothing(files: map<string, seq<byte>>, root: string, path: string)
    requires !InDownloadLanguage(path)
    ensures DownloadSpec(files, root, path) == Respond(Response(NOT_FOUND, Empty))
  {
  }

  /** A name of the right shape with no file behind it is an I/O error, not a 404. */
  lemma MissingFileIsIoError(files: map<string, seq<byte>>, root: string, name: string)
    requires |name| == NAME_LENGTH && AllWordChars(name)
    requires PathPush(root, name) !in files
    ensures DownloadSpec(files, root, DOWNLOAD_PREFIX + name) == Fail(NotFound)
  {
  }

  // ---------------------------------------------------------------- handler

  /** `microservice_handler` over the storage root `root`, `name` being the name an upload would draw. */
  function HandleSpec(files: map<string, seq<byte>>, dirs: set<string>, root: string, req: Request<seq<Frame>>,
                      name: string, writeErrors: map<nat, string>): Effect
  {
    match RouteOf(req.httpMethod, req.path)
    case IndexRoute => Effect(Respond(OkResponse(Text(INDEX))), files)
    case UploadRoute => UploadSpec(files, dirs, root, name, req.body, writeErrors)
    case DownloadRoute => Effect(DownloadSpec(files, root, req.path), files)
    case NoRoute => Effect(Respond(ResponseWithCode(NOT_FOUND)), files)
  }

  /** `GET /` answers "Image Service" and changes nothing. */
  lemma IndexServed(files: map<string, seq<byte>>, dirs: set<string>, root: string, req: Request<seq<Frame>>,
                    name: string, writeErrors: map<nat, string>)
    requires req.httpMethod == GET && req.path == "/"
    ensures HandleSpec(files, dirs, root, req, name, writeErrors) == Effect(Respond(Response(OK, Text("Image Service"))), files)
  {
  }

  /**
   * Every request other than `GET /`, `POST /upload` and a `GET` whose path starts with
   * `/download` is 404 with an empty body; so is a `GET /download…` the pattern
   * rejects. Neither changes any file.
   */
  lemma NotFoundLeavesFilesAlone(files: map<string, seq<byte>>, dirs: set<string>, root: string, req: Request<seq<Frame>>,
                                 name: string, writeErrors: map<nat, string>)
    requires RouteOf(req.httpMethod, req.path) == NoRoute
          || (RouteOf(req.httpMethod, req.path) == DownloadRoute && !InDownloadLanguage(req.path))
    ensures HandleSpec(files, dirs, root, req, name, writeErrors) == Effect(Respond(Response(NOT_FOUND, Empty)), files)
  {
  }

  /** `GET /download/` matches the pattern without its group, and the handler panics instead of answering 404. */
  lemma BareDownloadPanics(files: map<string, seq<byte>>, dirs: set<string>, root: string, req: Request<seq<Frame>>,
                           name: string, writeErrors: map<nat, string>)
    requires req.httpMethod == GET && req.path == "/download/"
    ensures HandleSpec(files, dirs, root, req, name, writeErrors).outcome == Panic(UNWRAP_NONE)
  {
  }

  /**
   * Round trip: after a complete upload under a generated name, downloading
   * `/download/<name>` streams back exactly the uploaded bytes.
   */
  lemma UploadThenDownload(files: map<string, seq<byte>>, dirs: set<string>, root: string, body: seq<Frame>,
                           name: string, writeErrors: map<nat, string>, query: Option<string>, later: string)
    requires IsRoot(root) && root in dirs && IsGeneratedName(name)
    requires forall k :: 0 <= k < |body| ==> !Faulty(body, writeErrors, k)
    ensures var up := HandleSpec(files, dirs, root, Request(POST, "/upload", query, body), name, writeErrors);
      && up.outcome == Respond(OkResponse(Text(name)))
      && HandleSpec(up.files, dirs, root, Request(GET, DOWNLOAD_PREFIX + name, query, []), later, map[]).outcome
         == Respond(OkResponse(Bytes(Payload(body))))
  {
    var path := DOWNLOAD_PREFIX + name;
    GeneratedNameIsCaptured(name);
    DownloadStaysInRoot(root, path);
    UploadStoresPayload(files, dirs, root, name, body, writeErrors);
    assert StartsWith(path, "/download");
  }

  // ---------------------------------------------------------------- storage

  /**
   * The error `fs::create_dir(path)` meets, if any: `AlreadyExists` when a directory or a
   * regular file is at the path, `NotFound` when its parent directory is missing, else the
   * operating system's refusal `failure` (a permission error, say).
   */
  function CreateDirError(dirs: set<string>, files: map<string, seq<byte>>, path: string, failure: Option<string>): (e: Option<IoError>)
    ensures e.None? <==> path !in dirs && path !in files && ParentOf(path) in dirs && failure.None?
    ensures e == Some(AlreadyExists) <==> path in dirs || path in files
  {
    if path in dirs || path in files then Some(AlreadyExists)
    else if ParentOf(path) !in dirs then Some(NotFound)
    else if failure.Some? then Some(Other(failure.value))
    else None
  }

  /** The file system under the service: existing directories and every file's content, by path. */
  class Storage {
    const root: string
    var dirs: set<string>
    var files: map<string, seq<byte>>

    constructor (root: string, dirs: set<string>, files: map<string, seq<byte>>)
      ensures this.root == root && this.dirs == dirs && this.files == files
    {
      this.root := root;
      this.dirs := dirs;
      this.files := files;
    }

    /** `fs::create_dir`, with `failure` the operating system's refusal, if any; see `CreateDirError`. */
    method CreateDir(path: string, failure: Option<string>) returns (r: Result<(), IoError>)
      modifies this
      ensures files == old(files)
      ensures CreateDirError(old(dirs), old(files), path, failure).Some? ==>
        r == Failure(CreateDirError(old(dirs), old(files), path, failure).value) && dirs == old(dirs)
      ensures CreateDirError(old(dirs), old(files), path, failure).None? ==>
        r == Success(()) && dirs == old(dirs) + {path}
    {
      if path in dirs || path in files {
        return Failure(AlreadyExists);
      }
      if ParentOf(path) !in dirs {
        return Failure(NotFound);
      }
      if failure.Some? {
        return Failure(Other(failure.value));
      }
      dirs := dirs + {path};
      r := Success(());
    }

    /**
     * `main`'s bootstrap, `fs::create_dir(root).ok()`: every error is discarded, so the root
     * exists afterwards exactly when it existed before or the create succeeded.
     */
    method Bootstrap(failure: Option<string>)
      modifies this
      ensures files == old(files)
      ensures dirs == if CreateDirError(old(dirs), old(files), root, failure).None? then old(dirs) + {root} else old(dirs)
      ensures root in dirs <==> root in old(dirs) || CreateDirError(old(dirs), old(files), root, failure).None?
    {
      var _ := CreateDir(root, failure);
    }

    /** `File::create`: fails when the directory is missing, otherwise creates or truncates the file. */
    method Create(path: string) returns (r: Result<(), IoError>)
      modifies this
      ensures dirs == old(dirs)
      ensures ParentOf(path) !in dirs ==> r == Failure(NotFound) && files == old(files)
      ensures ParentOf(path) in dirs ==> r == Success(()) && files == old(files)[path := []]
    {
      if ParentOf(path) !in dirs {
        return Failure(NotFound);
      }
      files := files[path := []];
      r := Success(());
    }

    /** `write_all` of one chunk to the open file at `path`; `failure` is the operating system's refusal, if any. */
    method WriteAll(path: string, data: seq<byte>, failure: Option<string>) returns (r: Result<(), IoError>)
      requires path in files
      modifies this
      ensures dirs == old(dirs)
      ensures failure.Some? ==> r == Failure(Other(failure.value)) && files == old(files)
      ensures failure.None? ==> r == Success(()) && files == old(files)[path := old(files)[path] + data]
    {
      if failure.Some? {
        return Failure(Other(failure.value));
      }
      files := files[path := files[path] + data];
      r := Success(());
    }

    /** `File::open`: the file's content, or `NotFound`. */
    method Open(path: string) returns (r: Result<seq<byte>, IoError>)
      ensures path in files ==> r == Success(files[path])
      ensures path !in files ==> r == Failure(NotFound)
    {
      if path in files {
        r := Success(files[path]);
      } else {
        r := Failure(NotFound);
      }
    }

    /** The upload arm: create the file, then fold the body into it one chunk at a time. */
    method Upload(name: string, body: seq<Frame>, writeErrors: map<nat, string>) returns (out: Outcome)
      modifies this
      ensures dirs == old(dirs)
      ensures Effect(out, files) == UploadSpec(old(files), old(dirs), root, name, body, writeErrors)
    {
      var path := PathPush(root, name);
      var created := Create(path);
      if created.Failure? {
        return Fail(created.error);
      }
      var i := 0;
      while i < |body|
        invariant 0 <= i <= |body|
        invariant dirs == old(dirs) && ParentOf(path) in dirs
        invariant forall j :: 0 <= j < i ==> !Faulty(body, writeErrors, j)
        invariant files == old(files)[path := Payload(body[..i])]
      {
        assert body[..i + 1][..i] == body[..i];
        match body[i] {
          case BodyError(message) =>
            FirstFaultIsLeast(body, writeErrors, i);
            return Fail(Other(message));
          case Chunk(data) =>
            var failure := if i in writeErrors then Some(writeErrors[i]) else None;
            var written := WriteAll(path, data, failure);
            if written.Failure? {
              FirstFaultIsLeast(body, writeErrors, i);
              return Fail(written.error);
            }
        }
        i := i + 1;
      }
      assert body[..i] == body;
      out := Respond(OkResponse(Text(name)));
    }

    /** The download arm: check the path, then open the captured name under the root. */
    method Download(path: string) returns (out: Outcome)
      ensures out == DownloadSpec(files, root, path)
    {
      var captures := DownloadCaptures(path);
      if captures.None? {
        return Respond(ResponseWithCode(NOT_FOUND));
      }
      if captures.value.filename.None? {
        return Panic(UNWRAP_NONE);
      }
      var content := Open(PathPush(root, captures.value.filename.value));
      if content.Failure? {
        return Fail(content.error);
      }
      out := Respond(OkResponse(Bytes(content.value)));
    }

    /** `microservice_handler`, with `name` standing for the upload's random draw. */
    method Handle(req: Request<seq<Frame>>, name: string, writeErrors: map<nat, string>) returns (out: Outcome)
      modifies this
      ensures dirs == old(dirs)
      ensures Effect(out, files) == HandleSpec(old(files), old(dirs), root, req, name, writeErrors)
    {
      match RouteOf(req.httpMethod, req.path) {
        case IndexRoute => out := Respond(OkResponse(Text(INDEX)));
        case UploadRoute => out := Upload(name, req.body, writeErrors);
        case DownloadRoute => out := Download(req.path);
        case NoRoute => out := Respond(ResponseWithCode(NOT_FOUND));
      }
    }
  }

  /**
   * `main`: bootstrap `./files`, ignoring any error, then serve; every request is handled
   * against that root, which is missing when it did not exist and could not be created.
   */
  method Serve(dirs: set<string>, files: map<string, seq<byte>>, failure: Option<string>) returns (storage: Storage)
    ensures fresh(storage)
    ensures storage.root == FILES_ROOT && IsRoot(storage.root) && storage.files == files
    ensures storage.dirs == if CreateDirError(dirs, files, FILES_ROOT, failure).None? then dirs + {FILES_ROOT} else dirs
    ensures FILES_ROOT in storage.dirs <==> FILES_ROOT in dirs || CreateDirError(dirs, files, FILES_ROOT, failure).None?
  {
    storage := new Storage(FILES_ROOT, dirs, files);
    storage.Bootstrap(failure);
  }
}
