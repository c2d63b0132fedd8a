/**
 * The WebContainer runtime hook: the module-wide single-flight boot cache,
 * the hook's instance state, mirroring a file into the runtime filesystem,
 * and teardown.
 */
module WebContainerRuntime {
  import opened Wrappers
  import opened JsStrings

  /** One call on the runtime filesystem: a recursive `mkdir` or a `writeFile`. */
  datatype FsCall = Mkdir(path: string) | WriteFile(path: string, content: string)

  /** What a rejected promise carried: an `Error` with its message, or any other value. */
  datatype Thrown = ErrorObject(message: string) | OtherValue

  /** What a caller of `getWebContainerInstance` gets: the cached instance,
      the boot already in flight, or a boot it has just started. */
  datatype Acquire = Cached(instance: nat) | Joined(boot: nat) | Booted(boot: nat)

  const InstanceUnavailable: string := "WebContainer instance not available"

  const WriteFailurePrefix: string := "Failed to write file at "

  /** The cause `writeFileSync` reports: an `Error`'s message, else a fixed text. */
  function Cause(t: Thrown): string {
    match t
    case ErrorObject(m) => m
    case OtherValue => "Failed to write file"
  }

  /** The message `writeFileSync` reports for a failed fs call (its layout
      is `WriteFailureLayout`). */
  function WriteFailure(path: string, t: Thrown): (msg: string)
    ensures |msg| > |path|
  {
    WriteFailurePrefix + path + ": " + Cause(t)
  }

  /** The message is the fixed prefix, then the path, then ": " and the cause. */
  lemma WriteFailureLayout(path: string, t: Thrown)
    ensures var msg := WriteFailure(path, t);
      && |msg| == |WriteFailurePrefix| + |path| + 2 + |Cause(t)|
      && msg[..|WriteFailurePrefix|] == WriteFailurePrefix
      && msg[|WriteFailurePrefix|..|WriteFailurePrefix| + |path|] == path
      && msg[|WriteFailurePrefix| + |path|..] == ": " + Cause(t)
  {
    assert WriteFailure(path, t) == WriteFailurePrefix + (path + (": " + Cause(t)));
  }

  /** The index of the last `/` in `path`, or -1 when there is none. */
  function LastSlash(path: string): (i: int)
    ensures -1 <= i < |path|
    ensures i >= 0 ==> path[i] == '/'
    ensures forall k :: i < k < |path| ==> path[k] != '/'
    decreases |path|
  {
    if path == [] then -1
    else if path[|path| - 1] == '/' then |path| - 1
    else LastSlash(path[..|path| - 1])
  }

  /** The directory `writeFileSync` creates: the path without its last
      `/`-segment, empty for a path without `/`. It is the
      `split("/").slice(0, -1).join("/")` of the source (`FolderPathIsDirName`). */
  function FolderPath(path: string): (dir: string)
    ensures '/' !in path ==> dir == ""
  {
    var i := LastSlash(path);
    if i < 0 then "" else path[..i]
  }

  /** A path with a `/` is its folder, a `/` and a last segment free of `/`. */
  lemma FolderPathShape(path: string)
    requires '/' in path
    ensures exists last :: '/' !in last && path == FolderPath(path) + "/" + last
  {
    var j :| 0 <= j < |path| && path[j] == '/';
    var i := LastSlash(path);
    assert i >= j;
    var last := path[i + 1..];
    forall k | 0 <= k < |last|
      ensures last[k] != '/'
    {
      assert last[k] == path[i + 1 + k];
    }
    assert FolderPath(path) == path[..i];
    assert '/' !in last && path == FolderPath(path) + "/" + last;
  }

  /** The last `/` of `d + "/" + last` is the one after `d` when `last` has none. */
  lemma LastSlashAfter(d: string, last: string)
    requires '/' !in last
    ensures LastSlash(d + "/" + last) == |d|
  {
    var p := d + "/" + last;
    var i := LastSlash(p);
    assert p[|d|] == '/';
    assert i >= |d|;
  }

  /** The folder is what splitting the path at `/`, dropping the last part
      and joining the rest with `/` gives. */
  lemma FolderPathIsDirName(path: string)
    ensures FolderPath(path) == DirName(path, '/')
  {
    if '/' in path {
      DirNameShape(path, '/');
      var parts := Split(path, '/');
      var d := DirName(path, '/');
      LastSlashAfter(d, parts[|parts| - 1]);
      assert path[..|d|] == d;
    }
  }

  /** A top-level file, and one whose path starts with its only `/`, have no directory to create. */
  lemma TopLevelHasNoFolder(name: string)
    requires '/' !in name
    ensures FolderPath(name) == "" && FolderPath("/" + name) == ""
  {
    LastSlashAfter("", name);
    assert "" + "/" + name == "/" + name;
  }

  /** The fs calls `writeFileSync(path, content)` makes when none fails: a
      recursive `mkdir` of the folder when there is one, then the write. */
  function WritePlan(path: string, content: string): (calls: seq<FsCall>)
    ensures 1 <= |calls| <= 2
    ensures calls[|calls| - 1] == WriteFile(path, content)
    ensures |calls| == 2 <==> FolderPath(path) != ""
    ensures |calls| == 2 ==> calls[0] == Mkdir(FolderPath(path))
  {
    var folder := FolderPath(path);
    (if folder != "" then [Mkdir(folder)] else []) + [WriteFile(path, content)]
  }

  /** The fs calls `writeFileSync` makes on an available instance: its plan,
      cut short after a failing `mkdir`. */
  function CallsMade(path: string, content: string, mkdirFails: Option<Thrown>): (calls: seq<FsCall>)
    ensures 1 <= |calls| <= |WritePlan(path, content)|
    ensures calls == WritePlan(path, content)[..|calls|]
    ensures |calls| < |WritePlan(path, content)| <==> FolderPath(path) != "" && mkdirFails.Some?
  {
    var folder := FolderPath(path);
    var plan := WritePlan(path, content);
    if folder != "" && mkdirFails.Some? then
      assert plan[..1] == [Mkdir(folder)];
      [Mkdir(folder)]
    else
      assert plan[..|plan|] == plan;
      plan
  }

  /** The error `writeFileSync` throws on an available instance: none exactly
      when every call it makes succeeds; otherwise the failing call's
      message prefixed with the path. */
  function WriteError(path: string, mkdirFails: Option<Thrown>, writeFails: Option<Thrown>): (thrown: Option<string>)
    ensures thrown.None? <==> (FolderPath(path) == "" || mkdirFails.None?) && writeFails.None?
    ensures thrown.Some? ==>
      thrown == Some(WriteFailure(path, if FolderPath(path) != "" && mkdirFails.Some? then mkdirFails.value else writeFails.value))
  {
    if FolderPath(path) != "" && mkdirFails.Some? then Some(WriteFailure(path, mkdirFails.value))
    else if writeFails.Some? then Some(WriteFailure(path, writeFails.value))
    else None
  }

  /** The directories a recursive `mkdir(dir)` ensures exist: `dir` itself
      and every prefix of `dir` that a `/` follows (see `AncestorsMembers`). */
  function Ancestors(dir: string): (ds: set<string>)
    ensures dir in ds
  {
    assert dir[..|dir|] == dir;
    set i | 0 <= i <= |dir| && (i == |dir| || dir[i] == '/') :: dir[..i]
  }

  /** A recursive `mkdir(dir)` creates `dir` and each of its prefixes that a
      `/` follows, and nothing else. */
  lemma AncestorsMembers(dir: string, d: string)
    ensures d in Ancestors(dir) <==> d == dir || d + "/" <= dir
  {
    if d + "/" <= dir {
      assert (d + "/")[|d|] == '/';
      assert dir[..|d|] == d;
    }
    if d in Ancestors(dir) && d != dir {
      var i :| 0 <= i <= |dir| && (i == |dir| || dir[i] == '/') && d == dir[..i];
      assert d + "/" == dir[..i + 1];
    }
  }

  /**
   * The runtime as the playground sees it. `globalInstance`, `bootPromise`
   * and `bootsStarted` are the module-level singleton (the promise stands as
   * the number of its boot); `instance`, `serverUrl`, `isLoading` and
   * `error` are the hook's React state; `files`, `dirs` and `calls` are the
   * runtime filesystem and the calls made on it; `tornDown` lists the
   * instances whose `teardown` was called.
   */
  class RuntimeSession {
    var globalInstance: Option<nat>
    var bootPromise: Option<nat>
    var bootsStarted: nat
    var instance: Option<nat>
    var serverUrl: Option<string>
    var isLoading: bool
    var error: Option<string>
    var files: map<string, string>
    var dirs: set<string>
    var calls: seq<FsCall>
    var tornDown: seq<nat>

    constructor ()
      ensures globalInstance.None? && bootPromise.None? && bootsStarted == 0
      ensures instance.None? && serverUrl.None? && isLoading && error.None?
      ensures files == map[] && dirs == {} && calls == [] && tornDown == []
    {
      globalInstance, bootPromise, bootsStarted := None, None, 0;
      instance, serverUrl, isLoading, error := None, None, true, None;
      files, dirs, calls, tornDown := map[], {}, [], [];
    }

    /** `getWebContainerInstance` up to its first `await`: the cached instance
        when there is one, else the boot in flight, else a new boot. */
    method GetWebContainerInstance() returns (r: Acquire)
      modifies this`bootPromise, this`bootsStarted
      ensures old(globalInstance).Some? ==> r == Cached(old(globalInstance).value)
      ensures old(globalInstance).None? && old(bootPromise).Some? ==> r == Joined(old(bootPromise).value)
      ensures old(globalInstance).Some? || old(bootPromise).Some? ==>
        bootPromise == old(bootPromise) && bootsStarted == old(bootsStarted)
      ensures old(globalInstance).None? && old(bootPromise).None? ==>
        r == Booted(old(bootsStarted)) && bootPromise == Some(old(bootsStarted)) && bootsStarted == old(bootsStarted) + 1
    {
      if globalInstance.Some? {
        return Cached(globalInstance.value);
      }
      if bootPromise.Some? {
        return Joined(bootPromise.value);
      }
      r := Booted(bootsStarted);
      bootPromise := Some(bootsStarted);
      bootsStarted := bootsStarted + 1;
    }

    /** The booting caller's continuation once `WebContainer.boot()` settles:
        on success the instance is cached; on failure the pending boot is
        dropped so that a later call boots afresh, and the error is rethrown. */
    method BootSettled(outcome: Result<nat, Thrown>) returns (r: Result<nat, Thrown>)
      modifies this`globalInstance, this`bootPromise
      ensures r == outcome
      ensures outcome.Ok? ==> globalInstance == Some(outcome.value) && bootPromise == old(bootPromise)
      ensures outcome.Err? ==> bootPromise.None? && globalInstance == old(globalInstance)
    {
      match outcome {
        case Ok(booted) =>
          globalInstance := Some(booted);
        case Err(_) =>
          bootPromise := None;
      }
      r := outcome;
    }

    /** The mount effect's continuation once its instance request settled.
        Nothing happens once the component has unmounted. */
    method InitialiseSettled(mounted: bool, outcome: Result<nat, Thrown>)
      modifies this`instance, this`isLoading, this`error
      ensures !mounted ==> instance == old(instance) && isLoading == old(isLoading) && error == old(error)
      ensures mounted ==> !isLoading
      ensures mounted && outcome.Ok? ==> instance == Some(outcome.value) && error == old(error)
      ensures mounted && outcome.Err? ==> instance == old(instance) && error == Some(
        match outcome.error
        case ErrorObject(m) => m
        case OtherValue => "Failed to initialize WebContainer")
    {
      if !mounted {
        return;
      }
      match outcome {
        case Ok(booted) =>
          instance := Some(booted);
        case Err(thrown) =>
          error := Some(match thrown
            case ErrorObject(m) => m
            case OtherValue => "Failed to initialize WebContainer");
      }
      isLoading := false;
    }

    /** `writeFileSync(path, content)`. `mkdirFails` and `writeFails` are what
        the runtime's `mkdir` and `writeFile` reject with, if they do. The
        result is the message of the error thrown, if any. */
    method WriteFileSync(path: string, content: string, mkdirFails: Option<Thrown>, writeFails: Option<Thrown>)
      returns (thrown: Option<string>)
      modifies this`files, this`dirs, this`calls
      ensures old(instance).None? ==>
        (thrown == Some(InstanceUnavailable) && calls == old(calls) && files == old(files) && dirs == old(dirs))
      ensures old(instance).Some? ==>
        (calls == old(calls) + CallsMade(path, content, mkdirFails) && thrown == WriteError(path, mkdirFails, writeFails))
      ensures thrown.None? ==> files == old(files)[path := content]
      ensures thrown.Some? ==> files == old(files)
      ensures old(instance).Some? && FolderPath(path) != "" && mkdirFails.None? ==>
        dirs == old(dirs) + Ancestors(FolderPath(path))
      ensures old(instance).None? || FolderPath(path) == "" || mkdirFails.Some? ==> dirs == old(dirs)
    {
      if instance.None? {
        return Some(InstanceUnavailable);
      }
      var folderPath := FolderPath(path);
      if folderPath != "" {
        calls := calls + [Mkdir(folderPath)];
        if mkdirFails.Some? {
          assert CallsMade(path, content, mkdirFails) == [Mkdir(folderPath)];
          assert WriteError(path, mkdirFails, writeFails) == Some(WriteFailure(path, mkdirFails.value));
          return Some(WriteFailure(path, mkdirFails.value));
        }
        var created := Ancestors(folderPath);
        dirs := dirs + created;
      }
      calls := calls + [WriteFile(path, content)];
      assert calls == old(calls) + CallsMade(path, content, mkdirFails) by {
        assert CallsMade(path, content, mkdirFails) == WritePlan(path, content);
        assert WritePlan(path, content) == (if folderPath != "" then [Mkdir(folderPath)] else []) + [WriteFile(path, content)];
      }
      if writeFails.Some? {
        assert WriteError(path, mkdirFails, writeFails) == Some(WriteFailure(path, writeFails.value));
        return Some(WriteFailure(path, writeFails.value));
      }
      assert WriteError(path, mkdirFails, writeFails) == None;
      files := files[path := content];
      thrown := None;
    }

    /** `destroy`: with an instance, tears it down and clears the hook's
        instance and server URL and the module-level instance and pending
        boot; without one, does nothing. */
    method Destroy()
      modifies this`instance, this`serverUrl, this`globalInstance, this`bootPromise, this`tornDown
      ensures old(instance).Some? ==>
        (instance.None? && serverUrl.None? && globalInstance.None? && bootPromise.None?
         && tornDown == old(tornDown) + [old(instance).value])
      ensures old(instance).None? ==>
        (instance == old(instance) && serverUrl == old(serverUrl) && globalInstance == old(globalInstance)
         && bootPromise == old(bootPromise) && tornDown == old(tornDown))
    {
      if instance.Some? {
        tornDown := tornDown + [instance.value];
        instance, serverUrl := None, None;
        globalInstance, bootPromise := None, None;
      }
    }
  }

  /** Two callers before the boot settles share one boot; the cached instance
      is handed out afterwards without another boot. */
  method SingleFlightBoot()
  {
    var session := new RuntimeSession();
    var first := session.GetWebContainerInstance();
    var second := session.GetWebContainerInstance();
    assert first == Booted(0) && second == Joined(0);
    var booted := session.BootSettled(Ok(7));
    var third := session.GetWebContainerInstance();
    assert third == Cached(7) && session.bootsStarted == 1;
  }

  /** A failed boot lets the next caller start a fresh one. */
  method BootRetriesAfterFailure()
  {
    var session := new RuntimeSession();
    var first := session.GetWebContainerInstance();
    var failed := session.BootSettled(Err(ErrorObject("boot failed")));
    var second := session.GetWebContainerInstance();
    assert first == Booted(0) && second == Booted(1);
  }

  /** Writing a file one folder deep (such as `app/page.tsx`) makes one
      `mkdir` of that folder, then the write. */
  lemma OneLevelWritePlan(dir: string, name: string, content: string)
    requires dir != "" && '/' !in dir && '/' !in name
    ensures WritePlan(dir + "/" + name, content) == [Mkdir(dir), WriteFile(dir + "/" + name, content)]
  {
    var p := dir + "/" + name;
    LastSlashAfter(dir, name);
    assert p[..|dir|] == dir;
  }
}
