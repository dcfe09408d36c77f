/** The part of afero's filesystem interface the core uses: ReadFile,
    ReadDir, MkdirAll and WriteFile on one mutable file tree. */
module Storage {
  import opened Outcomes
  import opened Strings

  newtype byte = b: int | 0 <= b < 256

  /** A snapshot of the tree: regular files by full path, directories by path
      with the entry names ReadDir reports (afero sorts them by name), and the
      paths the process may not create (permission errors). */
  datatype FsState = FsState(
    files: map<string, seq<byte>>,
    dirs: map<string, seq<string>>,
    readOnly: set<string>)

  /** `fmt.Sprintf("%s/%s", dir, name)` */
  function JoinPath(dir: string, name: string): string
  {
    dir + "/" + name
  }

  function ReadFileOf(s: FsState, path: string): (r: Result<seq<byte>>)
    ensures r.Ok? <==> path in s.files
  {
    if path in s.files then Ok(s.files[path]) else Err(PathError("open", path))
  }

  function ReadDirOf(s: FsState, path: string): (r: Result<seq<string>>)
    ensures r.Ok? <==> path in s.dirs
  {
    if path in s.dirs then Ok(s.dirs[path]) else Err(PathError("open", path))
  }

  /** Some proper ancestor of `path` (a prefix ending just before a `/`) is a
      regular file. */
  predicate FileAncestor(s: FsState, path: string)
  {
    exists i :: 0 < i < |path| && path[i] == '/' && path[..i] in s.files
  }

  /** An existing directory is success; a file at the path or at one of its
      ancestors, or a refused path, is an error; otherwise the directory is
      created empty. */
  function MkdirAllOf(s: FsState, path: string): (r: (Status, FsState))
    ensures r.1.files == s.files && r.1.readOnly == s.readOnly
    ensures r.0.Success? <==> path in r.1.dirs
    ensures path !in s.dirs && FileAncestor(s, path) ==> r.0.Failure? && r.1 == s
  {
    if path in s.dirs then (Success, s)
    else if path in s.files || path in s.readOnly || FileAncestor(s, path) then (Failure(PathError("mkdir", path)), s)
    else (Success, s.(dirs := s.dirs[path := []]))
  }

  /** A directory cannot be made under a regular file: with "out" a file,
      making "out/p" fails. */
  lemma MkdirUnderFile()
    ensures MkdirAllOf(FsState(map["out" := []], map[], {}), "out/p").0.Failure?
  {
    assert "out/p"[3] == '/' && "out/p"[..3] == "out";
  }

  /** Writes `data` to `dir/name`, replacing any earlier content; fails when
      `dir` does not exist, when the path is a directory or is refused. */
  function WriteFileOf(s: FsState, dir: string, name: string, data: seq<byte>): (r: (Status, FsState))
    ensures r.0.Success? ==> r.1.files == s.files[JoinPath(dir, name) := data]
    ensures r.0.Failure? ==> r.1 == s
    ensures r.1.readOnly == s.readOnly && r.1.dirs.Keys == s.dirs.Keys
  {
    var path := JoinPath(dir, name);
    if dir !in s.dirs || path in s.dirs || path in s.readOnly then
      (Failure(PathError("open", path)), s)
    else
      var listing := s.dirs[dir];
      var listing' := if name in listing then listing else Insert(name, listing);
      (Success, s.(files := s.files[path := data], dirs := s.dirs[dir := listing']))
  }

  class FileSystem {
    var files: map<string, seq<byte>>
    var dirs: map<string, seq<string>>
    const readOnly: set<string>

    function State(): FsState
      reads this
    {
      FsState(files, dirs, readOnly)
    }

    constructor (s: FsState)
      ensures State() == s
    {
      files, dirs, readOnly := s.files, s.dirs, s.readOnly;
    }

    method ReadFile(path: string) returns (r: Result<seq<byte>>)
      ensures r == ReadFileOf(State(), path)
    {
      r := ReadFileOf(State(), path);
    }

    method ReadDir(path: string) returns (r: Result<seq<string>>)
      ensures r == ReadDirOf(State(), path)
    {
      r := ReadDirOf(State(), path);
    }

    method MkdirAll(path: string) returns (status: Status)
      modifies this
      ensures (status, State()) == MkdirAllOf(old(State()), path)
    {
      var r := MkdirAllOf(State(), path);
      status, dirs := r.0, r.1.dirs;
    }

    method WriteFile(dir: string, name: string, data: seq<byte>) returns (status: Status)
      modifies this
      ensures (status, State()) == WriteFileOf(old(State()), dir, name, data)
    {
      var r := WriteFileOf(State(), dir, name, data);
      status, files, dirs := r.0, r.1.files, r.1.dirs;
    }
  }
}
