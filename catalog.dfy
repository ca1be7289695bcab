/** The catalog of composable parts built from script files: construction from a folder or an
    explicit list of scripts, refreshing from the folder with change notification, display
    name, and disposal. */
module Catalog {
  import opened Wrappers
  import opened Collaborators
  import opened Loader
  import opened ChangeDetection
  import opened DisplayNames

  const CatalogTypeName := "ScriptCsCatalog"

  /** The files a catalog has loaded and the assembly catalog compiled from them. */
  datatype Snapshot = Snapshot(files: seq<string>, catalog: Option<AssemblyCatalog>)

  /** What a Changing or Changed subscriber receives, together with the LoadedFiles it would
      read while handling the event. */
  datatype CatalogEvent =
    | Changing(added: seq<PartDefinition>, removed: seq<PartDefinition>, loadedFiles: seq<string>)
    | Changed(added: seq<PartDefinition>, removed: seq<PartDefinition>, loadedFiles: seq<string>)

  /** A folder catalog keeps its path, resolved path and pattern; a script-list catalog has none. */
  predicate SourceFields(path: Option<string>, fullPath: Option<string>, searchPattern: Option<string>) {
    || (path.None? && fullPath.None? && searchPattern.None?)
    || (!IsNullOrEmpty(path) && fullPath.Some? && !IsNullOrEmpty(searchPattern))
  }

  /** Loading and running the loader for `files`, and reading the assembly catalog off its result. */
  function CompileScripts(platform: Platform, executor: Executor, files: seq<string>): Result<Option<AssemblyCatalog>, Error> {
    CatalogFromResult(executor(LoaderText(files, platform.newLine)))
  }

  method ExecuteScripts(platform: Platform, executor: Executor, files: seq<string>) returns (r: Result<Option<AssemblyCatalog>, Error>)
    ensures r == CompileScripts(platform, executor, files)
  {
    var loader := GetLoader(files, platform.newLine);
    var result := executor(loader);
    r := CatalogFromResult(result);
  }

  /** The folder constructors: the arguments are checked in order (path, then search pattern,
      then file system), then the folder is listed and its scripts compiled. */
  function DirectoryConstruction(path: Option<string>, searchPattern: Option<string>, fileSystem: Option<FileSystem>,
                                 platform: Platform, executor: Executor): (r: Result<Snapshot, Error>)
    ensures IsNullOrEmpty(path) ==> r == Failure(ArgumentNull("path"))
    ensures !IsNullOrEmpty(path) && IsNullOrEmpty(searchPattern) ==> r == Failure(ArgumentNull("searchPattern"))
    ensures !IsNullOrEmpty(path) && !IsNullOrEmpty(searchPattern) && fileSystem.None? ==>
              r == Failure(ArgumentNull("fileSystem"))
    ensures !IsNullOrEmpty(path) && !IsNullOrEmpty(searchPattern) && fileSystem.Some? ==>
              var fullPath := GetFullPath(platform, fileSystem.value, path.value);
              (!fileSystem.value.directoryExists(fullPath) ==> r == Failure(MissingFolder(fullPath))) &&
              (r.Success? ==>
                 fileSystem.value.directoryExists(fullPath) &&
                 r.value.files == fileSystem.value.enumerateFiles(fullPath, searchPattern.value) &&
                 CompileScripts(platform, executor, r.value.files) == Success(r.value.catalog))
    ensures r.Success? ==> !IsNullOrEmpty(path) && !IsNullOrEmpty(searchPattern) && fileSystem.Some?
    // an existing folder is compiled, and a compile or execution error is what the caller gets
    ensures !IsNullOrEmpty(path) && !IsNullOrEmpty(searchPattern) && fileSystem.Some? ==>
              var fullPath := GetFullPath(platform, fileSystem.value, path.value);
              var files := fileSystem.value.enumerateFiles(fullPath, searchPattern.value);
              fileSystem.value.directoryExists(fullPath) ==>
                r == match CompileScripts(platform, executor, files)
                     case Failure(e) => Failure(e)
                     case Success(c) => Success(Snapshot(files, c))
  {
    if IsNullOrEmpty(path) then Failure(ArgumentNull("path"))
    else if IsNullOrEmpty(searchPattern) then Failure(ArgumentNull("searchPattern"))
    else if fileSystem.None? then Failure(ArgumentNull("fileSystem"))
    else
      var fullPath := GetFullPath(platform, fileSystem.value, path.value);
      match GetFiles(fileSystem.value, fullPath, searchPattern.value)
      case Failure(e) => Failure(e)
      case Success(files) =>
        match CompileScripts(platform, executor, files)
        case Failure(e) => Failure(e)
        case Success(catalog) => Success(Snapshot(files, catalog))
  }

  /** The script-list constructor: the list must be non-null and non-empty, then the file system
      non-null; the first script that does not exist is reported; then the scripts are compiled
      and loaded in the order given. */
  function FilesConstruction(scriptFiles: Option<seq<string>>, fileSystem: Option<FileSystem>,
                             platform: Platform, executor: Executor): (r: Result<Snapshot, Error>)
    ensures scriptFiles.None? || scriptFiles == Some([]) ==> r == Failure(ArgumentNull("scriptFiles"))
    ensures scriptFiles.Some? && scriptFiles.value != [] && fileSystem.None? ==> r == Failure(ArgumentNull("fileSystem"))
    ensures scriptFiles.Some? && scriptFiles.value != [] && fileSystem.Some? ==>
              forall i :: IsFirstMissing(fileSystem.value, scriptFiles.value, i) ==>
                r == Failure(MissingScript(scriptFiles.value[i]))
    ensures r.Success? ==>
              scriptFiles.Some? && scriptFiles.value != [] && fileSystem.Some? &&
              AllExist(fileSystem.value, scriptFiles.value) &&
              r.value.files == scriptFiles.value &&
              CompileScripts(platform, executor, r.value.files) == Success(r.value.catalog)
    // a list whose scripts all exist is compiled, and a compile or execution error is what the caller gets
    ensures scriptFiles.Some? && scriptFiles.value != [] && fileSystem.Some? &&
            AllExist(fileSystem.value, scriptFiles.value) ==>
              r == match CompileScripts(platform, executor, scriptFiles.value)
                   case Failure(e) => Failure(e)
                   case Success(c) => Success(Snapshot(scriptFiles.value, c))
  {
    if scriptFiles.None? || |scriptFiles.value| == 0 then Failure(ArgumentNull("scriptFiles"))
    else if fileSystem.None? then Failure(ArgumentNull("fileSystem"))
    else match FirstMissingScript(fileSystem.value, scriptFiles.value)
      case Some(missing) => Failure(MissingScript(missing))
      case None =>
        match CompileScripts(platform, executor, scriptFiles.value)
        case Failure(e) => Failure(e)
        case Success(catalog) => Success(Snapshot(scriptFiles.value, catalog))
  }

  /** The definitions a refresh publishes: every definition of the new catalog is added and every
      definition of the current one removed, a null catalog contributing none. */
  function ChangeSet(newCatalog: Option<AssemblyCatalog>, current: Option<AssemblyCatalog>): (r: (seq<PartDefinition>, seq<PartDefinition>))
    ensures multiset(r.0) == multiset(Parts(newCatalog))
    ensures multiset(r.1) == multiset(Parts(current))
  {
    (Parts(newCatalog), Parts(current))
  }

  /** The change set as the source computes it: `ToArray()` on a null catalog throws
      `ArgumentNullException` for its `source` argument. */
  function ChangeSetAsWritten(newCatalog: Option<AssemblyCatalog>, current: Option<AssemblyCatalog>): (r: Result<(seq<PartDefinition>, seq<PartDefinition>), Error>)
    ensures r.Success? <==> newCatalog.Some? && current.Some?
    ensures r.Success? ==> r.value == ChangeSet(newCatalog, current)
  {
    if newCatalog.None? then Failure(ArgumentNull("source"))
    else if current.None? then Failure(ArgumentNull("source"))
    else Success((newCatalog.value.parts, current.value.parts))
  }

  /** An empty listing compiles the empty loader; when its value is not a Type the catalog is
      null. As written, a refresh between such an empty folder and one with scripts throws in
      either direction: the first script to appear is never published (the old catalog is
      null), and the last script to disappear is never withdrawn (the new catalog is null). */
  lemma RefreshAfterEmptyFolderThrowsAsWritten(platform: Platform, executor: Executor, files: seq<string>,
                                               parts: seq<PartDefinition>)
    requires executor("") == ScriptResult(None, None, NotAType)
    requires files != []
    requires CompileScripts(platform, executor, files) == Success(Some(AssemblyCatalog(parts)))
    ensures var empty := CompileScripts(platform, executor, []);
            var full := CompileScripts(platform, executor, files);
            && empty == Success(None)
            && ChangeSetAsWritten(full.value, empty.value) == Failure(ArgumentNull("source"))
            && ChangeSetAsWritten(empty.value, full.value) == Failure(ArgumentNull("source"))
            && ChangeSet(full.value, empty.value) == (parts, [])
            && ChangeSet(empty.value, full.value) == ([], parts)
  {
  }

  class ScriptCsCatalog {
    const platform: Platform
    const path: Option<string>
    const fullPath: Option<string>
    const searchPattern: Option<string>

    var isDisposed: bool
    var catalog: Option<AssemblyCatalog>
    var loadedFiles: seq<string>
    /** Every Changing and Changed notification raised so far, in order. */
    var events: seq<CatalogEvent>
    /** Every assembly catalog this catalog has disposed, in order. */
    var disposedCatalogs: seq<AssemblyCatalog>

    ghost predicate Valid()
      reads this
    {
      SourceFields(path, fullPath, searchPattern) && (isDisposed ==> catalog.None?)
    }

    constructor (platform: Platform, path: Option<string>, fullPath: Option<string>,
                 searchPattern: Option<string>, snapshot: Snapshot)
      requires SourceFields(path, fullPath, searchPattern)
      ensures Valid()
      ensures this.platform == platform && this.path == path && this.fullPath == fullPath
      ensures this.searchPattern == searchPattern
      ensures loadedFiles == snapshot.files && catalog == snapshot.catalog
      ensures !isDisposed && events == [] && disposedCatalogs == []
    {
      this.platform := platform;
      this.path := path;
      this.fullPath := fullPath;
      this.searchPattern := searchPattern;
      isDisposed := false;
      catalog := snapshot.catalog;
      loadedFiles := snapshot.files;
      events := [];
      disposedCatalogs := [];
    }

    /** A folder catalog with an explicit search pattern. */
    static method FromDirectoryWithPattern(path: Option<string>, searchPattern: Option<string>, fileSystem: Option<FileSystem>,
                                           platform: Platform, executor: Executor) returns (r: Result<ScriptCsCatalog, Error>)
      ensures var spec := DirectoryConstruction(path, searchPattern, fileSystem, platform, executor);
              && (spec.Failure? ==> r == Failure(spec.error))
              && (spec.Success? ==>
                    && r.Success? && fresh(r.value) && r.value.Valid()
                    && r.value.platform == platform && r.value.path == path
                    && r.value.fullPath == Some(GetFullPath(platform, fileSystem.value, path.value))
                    && r.value.searchPattern == searchPattern
                    && r.value.loadedFiles == spec.value.files && r.value.catalog == spec.value.catalog
                    && !r.value.isDisposed && r.value.events == [] && r.value.disposedCatalogs == [])
    {
      if IsNullOrEmpty(path) {
        return Failure(ArgumentNull("path"));
      }
      if IsNullOrEmpty(searchPattern) {
        return Failure(ArgumentNull("searchPattern"));
      }
      if fileSystem.None? {
        return Failure(ArgumentNull("fileSystem"));
      }
      var full := GetFullPath(platform, fileSystem.value, path.value);
      var listed := GetFiles(fileSystem.value, full, searchPattern.value);
      if listed.Failure? {
        return Failure(listed.error);
      }
      var compiled := ExecuteScripts(platform, executor, listed.value);
      if compiled.Failure? {
        return Failure(compiled.error);
      }
      var c := new ScriptCsCatalog(platform, path, Some(full), searchPattern, Snapshot(listed.value, compiled.value));
      return Success(c);
    }

    /** A folder catalog over the default pattern `*.csx`. */
    static method FromDirectory(path: Option<string>, fileSystem: Option<FileSystem>,
                                platform: Platform, executor: Executor) returns (r: Result<ScriptCsCatalog, Error>)
      ensures var spec := DirectoryConstruction(path, Some(DefaultSearchPattern), fileSystem, platform, executor);
              && (spec.Failure? ==> r == Failure(spec.error))
              && (spec.Success? ==>
                    && r.Success? && fresh(r.value) && r.value.Valid()
                    && r.value.platform == platform && r.value.path == path
                    && r.value.fullPath == Some(GetFullPath(platform, fileSystem.value, path.value))
                    && r.value.searchPattern == Some("*.csx")
                    && r.value.loadedFiles == spec.value.files && r.value.catalog == spec.value.catalog
                    && !r.value.isDisposed && r.value.events == [] && r.value.disposedCatalogs == [])
    {
      r := FromDirectoryWithPattern(path, Some(DefaultSearchPattern), fileSystem, platform, executor);
    }

    /** A catalog over an explicit list of scripts; it has no path, full path or pattern. */
    static method FromFiles(scriptFiles: Option<seq<string>>, fileSystem: Option<FileSystem>,
                            platform: Platform, executor: Executor) returns (r: Result<ScriptCsCatalog, Error>)
      ensures var spec := FilesConstruction(scriptFiles, fileSystem, platform, executor);
              && (spec.Failure? ==> r == Failure(spec.error))
              && (spec.Success? ==>
                    && r.Success? && fresh(r.value) && r.value.Valid()
                    && r.value.platform == platform
                    && r.value.path.None? && r.value.fullPath.None? && r.value.searchPattern.None?
                    && r.value.loadedFiles == spec.value.files && r.value.catalog == spec.value.catalog
                    && !r.value.isDisposed && r.value.events == [] && r.value.disposedCatalogs == [])
    {
      if scriptFiles.None? || |scriptFiles.value| == 0 {
        return Failure(ArgumentNull("scriptFiles"));
      }
      if fileSystem.None? {
        return Failure(ArgumentNull("fileSystem"));
      }
      var files := scriptFiles.value;
      var existing := CheckScriptsExist(fileSystem.value, files);
      if existing.Fail? {
        return Failure(existing.error);
      }
      var compiled := ExecuteScripts(platform, executor, files);
      if compiled.Failure? {
        return Failure(compiled.error);
      }
      var c := new ScriptCsCatalog(platform, None, None, None, Snapshot(files, compiled.value));
      return Success(c);
    }

    /** The display name, `ScriptCsCatalog (Path="<path>")`. */
    function DisplayName(): (r: string)
      ensures r == DisplayNameOf(path)
      ensures ParseDisplayName(r) == Some(PathText(path))
    {
      DisplayNameOf(path)
    }

    /** `ToString()` returns the display name. */
    function ToString(): (r: string)
      ensures r == DisplayName()
    {
      DisplayNameOf(path)
    }

    /** Re-lists the folder of a folder catalog and, when the listing changed, recompiles and
        publishes the new catalog between a Changing and a Changed notification. `fileSystem` and
        `executor` answer as the disk stands at the time of the call. */
    method Refresh(fileSystem: FileSystem, executor: Executor) returns (r: Outcome<Error>)
      requires Valid()
      modifies this
      ensures Valid()
      ensures isDisposed == old(isDisposed) && disposedCatalogs == old(disposedCatalogs)
      ensures old(isDisposed) ==> r == Fail(ObjectDisposed(CatalogTypeName))
      ensures !old(isDisposed) && IsNullOrEmpty(path) ==> r == Pass && events == old(events)
      ensures !old(isDisposed) && !IsNullOrEmpty(path) ==>
                var listed := GetFiles(fileSystem, fullPath.value, searchPattern.value);
                if listed.Failure? then r == Fail(listed.error)
                else if NoWorkToDo(old(loadedFiles), listed.value) then r == Pass && events == old(events)
                else
                  var compiled := CompileScripts(platform, executor, listed.value);
                  if compiled.Failure? then r == Fail(compiled.error)
                  else
                    var (added, removed) := ChangeSet(compiled.value, old(catalog));
                    && r == Pass
                    && catalog == compiled.value && loadedFiles == listed.value
                    && events == old(events) + [Changing(added, removed, old(loadedFiles)),
                                                Changed(added, removed, listed.value)]
      // a failed refresh changes nothing
      ensures r.Fail? ==> catalog == old(catalog) && loadedFiles == old(loadedFiles) && events == old(events)
      // the catalog is never replaced without both notifications
      ensures events == old(events) ==> catalog == old(catalog) && loadedFiles == old(loadedFiles)
    {
      if isDisposed {
        return Fail(ObjectDisposed(CatalogTypeName));
      }
      if IsNullOrEmpty(path) {
        return Pass;
      }
      var listed := GetFiles(fileSystem, fullPath.value, searchPattern.value);
      if listed.Failure? {
        return Fail(listed.error);
      }
      var afterFiles := listed.value;
      var beforeFiles := loadedFiles;
      if NoWorkToDo(beforeFiles, afterFiles) {
        return Pass;
      }
      var newCatalog := ExecuteScripts(platform, executor, afterFiles);
      if newCatalog.Failure? {
        return Fail(newCatalog.error);
      }
      var (added, removed) := ChangeSet(newCatalog.value, catalog);
      events := events + [Changing(added, removed, loadedFiles)];
      catalog := newCatalog.value;
      loadedFiles := afterFiles;
      events := events + [Changed(added, removed, loadedFiles)];
      r := Pass;
    }

    /** Disposing releases the assembly catalog once and marks this catalog disposed; any later
        call, and any call with `disposing` false, changes nothing. */
    method Dispose(disposing: bool)
      requires Valid()
      modifies this
      ensures Valid()
      ensures loadedFiles == old(loadedFiles) && events == old(events)
      ensures disposing ==> isDisposed && catalog.None?
      ensures disposing && !old(isDisposed) ==>
                disposedCatalogs == old(disposedCatalogs) + (if old(catalog).Some? then [old(catalog).value] else [])
      ensures !(disposing && !old(isDisposed)) ==>
                isDisposed == old(isDisposed) && catalog == old(catalog) && disposedCatalogs == old(disposedCatalogs)
    {
      if disposing {
        if !isDisposed {
          var catalogs: Option<AssemblyCatalog> := None;
          // the re-check the source makes under its lock; run sequentially it always holds
          if !isDisposed {
            catalogs := catalog;
            catalog := None;
            isDisposed := true;
          }
          if catalogs.Some? {
            disposedCatalogs := disposedCatalogs + [catalogs.value];
          }
        }
      }
    }
  }
}
