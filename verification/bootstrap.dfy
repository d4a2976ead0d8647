/**
 * Loading the native library: the static initializer of `Native` takes the
 * path from an environment variable when it is set, and otherwise extracts
 * the platform's build from the class path into a fresh temporary directory;
 * then it hands the path to `System.load`.
 *
 * The JVM and the file system appear as values: `Host` is what the running
 * JVM reports and bundles (properties, environment, class-path resources, the
 * platform's library file name), and `World` is the state the loading changes
 * (files and directories on disk, paths registered for deletion at exit, the
 * loaded library).
 */
module Bootstrap {
  import opened Outcomes
  import opened Text
  import opened Errors
  import opened Platform
  import opened Resources

  type Bytes = seq<bv8>

  /** The environment variable that names a library file to load instead of the bundled one. */
  const LibPathVariable := "SUBSTRATE_CLIENT_CRYPTO_LIB_PATH"

  /** The prefix of the temporary directory's name. */
  const TempDirPrefix := LibName + "_lib"

  /** What the running JVM supplies. */
  datatype Host = Host(
    osName: string,                  // the os.name property
    archName: string,                // the os.arch property
    environment: map<string, string>, // the process environment
    mappedLibName: string,           // the platform's file name for LibName (e.g. libjni_crypto.so)
    resources: map<string, Bytes>,   // class-path resources, by resource path
    tmpDir: string,                  // the java.io.tmpdir property
    workingDir: string)              // the directory relative paths are resolved against

  /** Which I/O step of the extraction raises an IOException, if any. */
  datatype IoFault = NoFault | CreateDirFails | CopyFails

  /** The state loading changes. Files and directories are keyed by absolute path. */
  datatype World = World(
    files: map<string, Bytes>,
    dirs: set<string>,
    deleteOnExit: seq<string>, // paths registered for deletion at exit, in order
    loaded: Option<string>)    // the library loaded into the process, if any

  /**
   * What the JVM guarantees of a host: the working directory is absolute and
   * the mapped library name is a plain file name, so that resolving it inside
   * a directory names a file in that directory.
   */
  predicate WellFormed(h: Host)
  {
    IsAbsolute(h.workingDir) && h.mappedLibName != "" && '/' !in h.mappedLibName
  }

  /** Guava's `Strings.isNullOrEmpty`. */
  predicate IsNullOrEmpty(s: Option<string>)
  {
    s.None? || s.value == ""
  }

  /** The override path as `System.getenv` returns it: absent when the variable is not set. */
  function LibPathOverride(h: Host): Option<string>
  {
    if LibPathVariable in h.environment then Some(h.environment[LibPathVariable]) else None
  }

  predicate IsAbsolute(p: string)
  {
    |p| > 0 && p[0] == '/'
  }

  /** `Path.resolve` of a relative name: the name inside the directory (the empty path resolves to the name itself). */
  function Join(dir: string, name: string): string
  {
    if dir == "" then name else dir + "/" + name
  }

  /** `Path.toAbsolutePath`: a relative path is resolved against the working directory. */
  function AbsolutePath(p: string, workingDir: string): string
  {
    if IsAbsolute(p) then p else Join(workingDir, p)
  }

  /** The temporary directory `Files.createTempDirectory` makes when its random part comes out as `suffix`. */
  function TempDirPath(h: Host, suffix: string): string
  {
    Join(h.tmpDir, TempDirPrefix + suffix)
  }

  /** The library file inside that directory. */
  function ExtractedLibPath(h: Host, suffix: string): string
  {
    Join(TempDirPath(h, suffix), h.mappedLibName)
  }

  /** The class-path resource that holds this host's build, or the unsupported-OS error. */
  function SourcePath(h: Host): Result<string, BootError>
  {
    match Resolve(h.osName, h.archName)
    case Err(e) => Err(e)
    case Ok(t) => Ok(ResourcePath(t, h.mappedLibName))
  }

  /**
   * `copyLibraryFromResourcesToTempDir`: choose the platform, look the resource
   * up, create the temporary directory, register it and the library file for
   * deletion at exit, copy the bytes, and return the file's absolute path.
   */
  function Extraction(h: Host, w: World, suffix: string, fault: IoFault): (res: (World, Result<string, BootError>))
    ensures res.0.loaded == w.loaded
    ensures res.1.Err? ==> res.1.error in {UnsupportedOs, LibraryNotFound, IoFailure}
    ensures res.1 == Err(UnsupportedOs) || res.1 == Err(LibraryNotFound) ==> res.0 == w
    ensures res.1.Ok? ==>
      && res.1.value in res.0.files
      && res.0.dirs == w.dirs + {AbsolutePath(TempDirPath(h, suffix), h.workingDir)}
      && res.0.deleteOnExit == w.deleteOnExit + [TempDirPath(h, suffix), ExtractedLibPath(h, suffix)]
  {
    match SourcePath(h)
    case Err(e) => (w, Err(e))
    case Ok(source) =>
      if source !in h.resources then (w, Err(LibraryNotFound))
      else if fault == CreateDirFails then (w, Err(IoFailure))
      else
        var dir := TempDirPath(h, suffix);
        var lib := ExtractedLibPath(h, suffix);
        var w1 := w.(dirs := w.dirs + {AbsolutePath(dir, h.workingDir)},
                     deleteOnExit := w.deleteOnExit + [dir, lib]);
        if fault == CopyFails then (w1, Err(IoFailure))
        else
          var abs := AbsolutePath(lib, h.workingDir);
          (w1.(files := w1.files[abs := h.resources[source]]), Ok(abs))
  }

  /** `System.load` accepts an absolute path to a file that exists. */
  predicate Loadable(w: World, path: string)
  {
    IsAbsolute(path) && path in w.files
  }

  /** `System.load(path)`. */
  function LoadStep(w: World, path: string): (res: (World, Result<string, BootError>))
    ensures res.1.Ok? <==> Loadable(w, path)
    ensures res.1.Ok? ==> res.1.value == path && res.0.loaded == Some(path)
    ensures res.1.Err? ==> res.1.error == LoadFailure(path) && res.0.loaded == w.loaded
    ensures res.0.files == w.files && res.0.dirs == w.dirs && res.0.deleteOnExit == w.deleteOnExit
  {
    if Loadable(w, path) then (w.(loaded := Some(path)), Ok(path))
    else (w, Err(LoadFailure(path)))
  }

  /** The static initializer: the override when set and non-empty, the extracted copy otherwise, then the load. */
  function Boot(h: Host, w: World, suffix: string, fault: IoFault): (res: (World, Result<string, BootError>))
    ensures res.1.Ok? ==> res.0.loaded == Some(res.1.value) && res.1.value in res.0.files && IsAbsolute(res.1.value)
    ensures res.1.Err? ==> res.0.loaded == w.loaded
    ensures !IsNullOrEmpty(LibPathOverride(h)) ==>
      res.0.files == w.files && res.0.dirs == w.dirs && res.0.deleteOnExit == w.deleteOnExit
  {
    var libPath := LibPathOverride(h);
    if !IsNullOrEmpty(libPath) then LoadStep(w, libPath.value)
    else
      var (w1, r) := Extraction(h, w, suffix, fault);
      if r.Err? then (w1, r) else LoadStep(w1, r.value)
  }

  // What extraction promises.

  /** The extracted library's absolute path is the library file name inside the absolute temporary directory. */
  lemma ExtractedLibInsideTempDir(h: Host, suffix: string)
    requires IsAbsolute(h.workingDir)
    ensures AbsolutePath(ExtractedLibPath(h, suffix), h.workingDir)
         == AbsolutePath(TempDirPath(h, suffix), h.workingDir) + "/" + h.mappedLibName
    ensures IsAbsolute(AbsolutePath(ExtractedLibPath(h, suffix), h.workingDir))
  {
  }

  /** An unsupported host fails with the unsupported-OS error, before any lookup or any change on disk. */
  lemma ExtractionUnsupported(h: Host, w: World, suffix: string, fault: IoFault)
    requires Resolve(h.osName, h.archName).Err?
    ensures Extraction(h, w, suffix, fault) == (w, Err(UnsupportedOs))
    ensures Message(Extraction(h, w, suffix, fault).1.error)
         == "JNI library can't be loaded because OS wasn't detected as supported."
  {
  }

  /** A missing resource fails with "Library wasn't found." before any temporary directory is created. */
  lemma ExtractionResourceMissing(h: Host, w: World, suffix: string, fault: IoFault, t: Tag)
    requires Resolve(h.osName, h.archName) == Ok(t)
    requires ResourcePath(t, h.mappedLibName) !in h.resources
    ensures Extraction(h, w, suffix, fault) == (w, Err(LibraryNotFound))
    ensures Message(Extraction(h, w, suffix, fault).1.error) == "Library wasn't found."
  {
  }

  /**
   * On success extraction creates exactly the one new temporary directory,
   * registers it and then the library file for deletion at exit, writes the
   * resource's bytes verbatim to the library file, and returns that file's
   * absolute path; no other file changes.
   */
  lemma ExtractionSucceeds(h: Host, w: World, suffix: string, t: Tag)
    requires WellFormed(h)
    requires Resolve(h.osName, h.archName) == Ok(t)
    requires ResourcePath(t, h.mappedLibName) in h.resources
    requires AbsolutePath(TempDirPath(h, suffix), h.workingDir) !in w.dirs
    ensures var (w', r) := Extraction(h, w, suffix, NoFault);
      var dir := AbsolutePath(TempDirPath(h, suffix), h.workingDir);
      var lib := dir + "/" + h.mappedLibName;
      && r == Ok(lib)
      && IsAbsolute(lib)
      && w'.dirs - w.dirs == {dir} && w.dirs <= w'.dirs
      && w'.deleteOnExit == w.deleteOnExit + [TempDirPath(h, suffix), ExtractedLibPath(h, suffix)]
      && lib in w'.files && w'.files[lib] == h.resources[ResourcePath(t, h.mappedLibName)]
      && (forall p :: p != lib ==> (p in w'.files <==> p in w.files))
      && (forall p :: p != lib && p in w.files ==> w'.files[p] == w.files[p])
      && w'.loaded == w.loaded
  {
    ExtractedLibInsideTempDir(h, suffix);
  }

  /** An I/O failure is reported as such; a failed copy leaves the directory created and registered but writes no file. */
  lemma ExtractionIoFailure(h: Host, w: World, suffix: string, fault: IoFault, t: Tag)
    requires fault != NoFault
    requires Resolve(h.osName, h.archName) == Ok(t)
    requires ResourcePath(t, h.mappedLibName) in h.resources
    ensures Extraction(h, w, suffix, fault).1 == Err(IoFailure)
    ensures fault == CreateDirFails ==> Extraction(h, w, suffix, fault).0 == w
    ensures fault == CopyFails ==>
      var w' := Extraction(h, w, suffix, fault).0;
      && w'.files == w.files && w'.loaded == w.loaded
      && w'.dirs == w.dirs + {AbsolutePath(TempDirPath(h, suffix), h.workingDir)}
      && w'.deleteOnExit == w.deleteOnExit + [TempDirPath(h, suffix), ExtractedLibPath(h, suffix)]
  {
  }

  /** Extraction never loads anything and never removes a file, directory or registration. */
  lemma ExtractionOnlyAdds(h: Host, w: World, suffix: string, fault: IoFault)
    ensures var w' := Extraction(h, w, suffix, fault).0;
      && w'.loaded == w.loaded
      && w.dirs <= w'.dirs
      && w.files.Keys <= w'.files.Keys
      && w'.deleteOnExit[..|w.deleteOnExit|] == w.deleteOnExit
  {
  }

  // What the static initializer promises.

  /** A set, non-empty override is loaded as it is: nothing is resolved, extracted or created, and the load decides the outcome. */
  lemma BootUsesOverride(h: Host, w: World, suffix: string, fault: IoFault)
    requires LibPathOverride(h).Some? && LibPathOverride(h).value != ""
    ensures var p := LibPathOverride(h).value;
      var (w', r) := Boot(h, w, suffix, fault);
      && w'.files == w.files && w'.dirs == w.dirs && w'.deleteOnExit == w.deleteOnExit
      && (Loadable(w, p) ==> r == Ok(p) && w'.loaded == Some(p))
      && (!Loadable(w, p) ==> r == Err(LoadFailure(p)) && w'.loaded == w.loaded)
  {
  }

  /** A missing or empty override always means extraction; when extraction succeeds the extracted file is loaded. */
  lemma BootExtractsWithoutOverride(h: Host, w: World, suffix: string, fault: IoFault)
    requires WellFormed(h)
    requires IsNullOrEmpty(LibPathOverride(h))
    ensures var (we, re) := Extraction(h, w, suffix, fault);
      var (w', r) := Boot(h, w, suffix, fault);
      && w'.files == we.files && w'.dirs == we.dirs && w'.deleteOnExit == we.deleteOnExit
      && r == re
      && (re.Ok? ==> w'.loaded == Some(re.value))
      && (re.Err? ==> w'.loaded == w.loaded)
  {
    ExtractedLibInsideTempDir(h, suffix);
  }

  /** The overriding path is taken verbatim: a relative override makes the load fail, a file that exists at an absolute override is loaded. */
  lemma BootOverrideExamples(h: Host, w: World, suffix: string, fault: IoFault)
    requires LibPathVariable in h.environment
    ensures h.environment[LibPathVariable] == "lib/libjni_crypto.so" ==>
      Boot(h, w, suffix, fault).1 == Err(LoadFailure("lib/libjni_crypto.so"))
    ensures h.environment[LibPathVariable] == "/opt/libjni_crypto.so" && "/opt/libjni_crypto.so" in w.files ==>
      Boot(h, w, suffix, fault).1 == Ok("/opt/libjni_crypto.so")
  {
  }

  /**
   * `Native` with the JVM's static state as fields. The methods follow the
   * Java code step by step; each is specified by the function above that
   * states its effect.
   */
  class Native {
    const host: Host
    var files: map<string, Bytes>
    var dirs: set<string>
    var deleteOnExit: seq<string>
    var loaded: Option<string>

    function State(): World
      reads this
    {
      World(files, dirs, deleteOnExit, loaded)
    }

    /** A process before the class is initialized: nothing registered for deletion, nothing loaded. */
    constructor (host: Host, files: map<string, Bytes>, dirs: set<string>)
      ensures this.host == host
      ensures State() == World(files, dirs, [], None)
    {
      this.host := host;
      this.files := files;
      this.dirs := dirs;
      this.deleteOnExit := [];
      this.loaded := None;
    }

    /** `System.load(path)`. */
    method Load(path: string) returns (r: Result<string, BootError>)
      modifies this`loaded
      ensures (State(), r) == LoadStep(old(State()), path)
    {
      if IsAbsolute(path) && path in files {
        loaded := Some(path);
        r := Ok(path);
      } else {
        r := Err(LoadFailure(path));
      }
    }

    /** `copyLibraryFromResourcesToTempDir`; `suffix` is the random part of the temporary directory's name. */
    method CopyLibraryFromResourcesToTempDir(suffix: string, fault: IoFault) returns (r: Result<string, BootError>)
      requires AbsolutePath(TempDirPath(host, suffix), host.workingDir) !in dirs
      modifies this`files, this`dirs, this`deleteOnExit
      ensures (State(), r) == Extraction(host, old(State()), suffix, fault)
    {
      var tag := Resolve(host.osName, host.archName);
      if tag.Err? {
        return Err(UnsupportedOs);
      }
      var fileName := host.mappedLibName;
      var sourcePath := ResourcePath(tag.value, fileName);
      if sourcePath !in host.resources {
        return Err(LibraryNotFound);
      }
      var source := host.resources[sourcePath];
      if fault == CreateDirFails {
        return Err(IoFailure);
      }
      var tempDir := TempDirPath(host, suffix);
      dirs := dirs + {AbsolutePath(tempDir, host.workingDir)};
      deleteOnExit := deleteOnExit + [tempDir];
      var libPath := Join(tempDir, fileName);
      deleteOnExit := deleteOnExit + [libPath];
      assert deleteOnExit == old(deleteOnExit) + [tempDir, libPath];
      if fault == CopyFails {
        return Err(IoFailure);
      }
      var absolute := AbsolutePath(libPath, host.workingDir);
      files := files[absolute := source];
      r := Ok(absolute);
    }

    /** The static initializer; `r` is the path loaded, or the error it raised. */
    method StaticInitializer(suffix: string, fault: IoFault) returns (r: Result<string, BootError>)
      requires AbsolutePath(TempDirPath(host, suffix), host.workingDir) !in dirs
      modifies this
      ensures (State(), r) == Boot(host, old(State()), suffix, fault)
    {
      var libPath := LibPathOverride(host);
      if IsNullOrEmpty(libPath) {
        var extracted := CopyLibraryFromResourcesToTempDir(suffix, fault);
        if extracted.Err? {
          return extracted;
        }
        libPath := Some(extracted.value);
      }
      r := Load(libPath.value);
    }
  }
}
