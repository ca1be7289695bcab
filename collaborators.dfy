/** The collaborators of the catalog, seen only through their interfaces: the script file
    system, the static path and newline services of the platform, and the script executor.
    Also the catalog's own error taxonomy and the pieces of the catalog that only consult
    these collaborators: full-path resolution, folder listing, the existence check of an
    explicit script list, and the classification of an execution result. */
module Collaborators {
  import opened Wrappers

  /** One exported part definition found in a compiled script assembly. */
  datatype PartDefinition = PartDefinition(typeName: string)

  /** An assembly catalog over a compiled script assembly: its part definitions, in order. */
  datatype AssemblyCatalog = AssemblyCatalog(parts: seq<PartDefinition>)

  /** The exceptions the catalog throws or lets through. */
  datatype Error =
    | ArgumentNull(paramName: string)
    | FileNotFound(message: string, fileName: string)
    | DirectoryNotFound(message: string)
    | ObjectDisposed(objectName: string)
    | CompileFailure(message: string)
    | ExecutionFailure(message: string)

  /** The file-system abstraction handed to the catalog. */
  datatype FileSystem = FileSystem(
    fileExists: string -> bool,
    directoryExists: string -> bool,
    enumerateFiles: (string, string) -> seq<string>,
    currentDirectory: Option<string>)

  /** Process-wide services: `Path.IsPathRooted`, `Path.Combine`, `Path.GetFullPath`
      and `Environment.NewLine`. */
  datatype Platform = Platform(
    isPathRooted: string -> bool,
    combine: (string, string) -> string,
    getFullPath: string -> string,
    newLine: string)

  /** What a script returned: the marker `Type` (whose assembly holds these parts),
      or any value that is not a `Type` (null included). */
  datatype ReturnValue = MarkerType(assemblyParts: seq<PartDefinition>) | NotAType

  /** The executor's result: captured compile and execution exceptions, and the return value. */
  datatype ScriptResult = ScriptResult(
    compileError: Option<string>,
    executeError: Option<string>,
    returnValue: ReturnValue)

  /** The script executor, reduced to what the catalog does with it. */
  type Executor = string -> ScriptResult

  const DefaultSearchPattern := "*.csx"

  /** The definitions of a possibly null catalog; a null catalog contributes none. */
  function Parts(catalog: Option<AssemblyCatalog>): seq<PartDefinition> {
    if catalog.Some? then catalog.value.parts else []
  }

  /** Resolves a folder path: a path that is not rooted is combined with the file system's
      current directory when it has one, and the result is normalised. */
  function GetFullPath(platform: Platform, fs: FileSystem, path: string): (r: string)
    ensures platform.isPathRooted(path) ==> r == platform.getFullPath(path)
    ensures !platform.isPathRooted(path) && fs.currentDirectory.Some? ==>
              r == platform.getFullPath(platform.combine(fs.currentDirectory.value, path))
    ensures fs.currentDirectory.None? ==> r == platform.getFullPath(path)
  {
    var combined :=
      if !platform.isPathRooted(path) && fs.currentDirectory.Some?
      then platform.combine(fs.currentDirectory.value, path)
      else path;
    platform.getFullPath(combined)
  }

  /** A rooted folder path does not depend on the current directory. */
  lemma RootedPathIgnoresCurrentDirectory(platform: Platform, fs1: FileSystem, fs2: FileSystem, path: string)
    requires platform.isPathRooted(path)
    ensures GetFullPath(platform, fs1, path) == GetFullPath(platform, fs2, path)
  {
  }

  function MissingFolder(fullPath: string): Error {
    DirectoryNotFound("Scripts folder: '" + fullPath + "' does not exist")
  }

  function MissingScript(file: string): Error {
    FileNotFound("Script: '" + file + "' does not exist", file)
  }

  /** Lists the script files of a folder, in the order the file system enumerates them. */
  function GetFiles(fs: FileSystem, fullPath: string, searchPattern: string): (r: Result<seq<string>, Error>)
    ensures r.Failure? <==> !fs.directoryExists(fullPath)
    ensures r.Failure? ==> r.error == MissingFolder(fullPath)
    ensures r.Success? ==> r.value == fs.enumerateFiles(fullPath, searchPattern)
  {
    if !fs.directoryExists(fullPath) then Failure(MissingFolder(fullPath))
    else Success(fs.enumerateFiles(fullPath, searchPattern))
  }

  predicate AllExist(fs: FileSystem, files: seq<string>) {
    forall i :: 0 <= i < |files| ==> fs.fileExists(files[i])
  }

  /** files[i] is the first script of the list that does not exist. */
  predicate IsFirstMissing(fs: FileSystem, files: seq<string>, i: int) {
    0 <= i < |files| && !fs.fileExists(files[i]) && AllExist(fs, files[..i])
  }

  lemma FirstMissingIsUnique(fs: FileSystem, files: seq<string>, i: int, j: int)
    requires IsFirstMissing(fs, files, i) && IsFirstMissing(fs, files, j)
    ensures i == j
  {
  }

  /** The first script of the list that does not exist, if any. */
  function FirstMissingScript(fs: FileSystem, files: seq<string>): (r: Option<string>)
    ensures r.None? <==> AllExist(fs, files)
    ensures forall i :: IsFirstMissing(fs, files, i) ==> r == Some(files[i])
  {
    if files == [] then None
    else if !fs.fileExists(files[0]) then
      assert IsFirstMissing(fs, files, 0) by { assert files[..0] == []; }
      Some(files[0])
    else
      var rest := FirstMissingScript(fs, files[1..]);
      assert AllExist(fs, files) <==> AllExist(fs, files[1..]) by {
        if AllExist(fs, files[1..]) {
          forall i | 0 <= i < |files| ensures fs.fileExists(files[i]) {
            if i > 0 { assert files[i] == files[1..][i - 1]; }
          }
        }
      }
      assert forall i :: IsFirstMissing(fs, files, i) ==> IsFirstMissing(fs, files[1..], i - 1) by {
        forall i | IsFirstMissing(fs, files, i) ensures IsFirstMissing(fs, files[1..], i - 1) {
          assert i != 0;
          assert files[1..][..i - 1] == files[..i][1..];
        }
      }
      rest
  }

  /** The foreach of the explicit-list initialisation: every script must exist, and the first
      one that does not is reported with its name. */
  method CheckScriptsExist(fs: FileSystem, files: seq<string>) returns (r: Outcome<Error>)
    ensures r.Pass? <==> AllExist(fs, files)
    ensures r.Fail? ==> exists i :: IsFirstMissing(fs, files, i) && r.error == MissingScript(files[i])
  {
    var i := 0;
    while i < |files|
      invariant 0 <= i <= |files|
      invariant AllExist(fs, files[..i])
    {
      if !fs.fileExists(files[i]) {
        assert IsFirstMissing(fs, files, i);
        return Fail(MissingScript(files[i]));
      }
      assert files[..i + 1] == files[..i] + [files[i]];
      i := i + 1;
    }
    assert files[..i] == files;
    return Pass;
  }

  /** The result handling of script execution: a compile error is thrown before an execution
      error, and a return value that is not a `Type` yields a null catalog. */
  function CatalogFromResult(result: ScriptResult): (r: Result<Option<AssemblyCatalog>, Error>)
    ensures result.compileError.Some? ==> r == Failure(CompileFailure(result.compileError.value))
    ensures result.compileError.None? && result.executeError.Some? ==>
              r == Failure(ExecutionFailure(result.executeError.value))
    ensures r.Success? <==> result.compileError.None? && result.executeError.None?
    ensures r.Success? ==> (r.value.Some? <==> result.returnValue.MarkerType?)
    ensures r.Success? ==> Parts(r.value) == if result.returnValue.MarkerType? then result.returnValue.assemblyParts else []
  {
    if result.compileError.Some? then Failure(CompileFailure(result.compileError.value))
    else if result.executeError.Some? then Failure(ExecutionFailure(result.executeError.value))
    else match result.returnValue
      case MarkerType(parts) => Success(Some(AssemblyCatalog(parts)))
      case NotAType => Success(None)
  }
}
