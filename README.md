# ScriptCsCatalog in Dafny

A model of `ScriptCsCatalog`, a catalog of composable (MEF) parts built from C# script files.
A catalog is built either from a folder and a search pattern or from an explicit list of
scripts. It `#load`s all scripts into one loader script and runs it through the scriptcs
executor. It then exposes the part definitions of the compiled assembly. `Refresh` re-lists the
folder. When the listing changed, it recompiles and swaps in the new catalog between a
`Changing` and a `Changed` notification. `Dispose` releases the assembly catalog once.

Modules:

- `Wrappers`: `Option` (a nullable reference), `Result` and `Outcome` (a value or the exception
  thrown), and `string.IsNullOrEmpty`.
- `Collaborators`: the file system, the platform's path and newline services and the script
  executor, all as parameters. Also the error taxonomy, `GetFullPath`, `GetFiles`, the existence
  check of an explicit script list (a loop) and the classification of an execution result.
- `Loader`: `GetLoader` (a string-builder loop) against its specification `LoaderText`, and an
  independent line-by-line description `LoaderLines`.
- `ChangeDetection`: the test that lets `Refresh` return early, and how it relates to set
  equality.
- `DisplayNames`: the display name and a parser that reads the path back out of it.
- `Catalog`: the construction rules as functions, and the class `ScriptCsCatalog`. Its fields
  are `path`, `fullPath`, `searchPattern`, `loadedFiles`, `catalog` and `isDisposed`, plus a log
  of raised events and a log of disposed assembly catalogs. It has the factories, `Refresh`,
  `Dispose`, `DisplayName` and `ToString`.
- `Scenarios`: the unit tests' situations, with a file system that answers like their mock, and
  two client runs.

The constructors throw, so they become static factory methods returning
`Result<ScriptCsCatalog, Error>`. Each factory is specified by a pure function
(`DirectoryConstruction`, `FilesConstruction`).

The model follows the code in three places where it is narrower than the catalog's stated intent:

- `Refresh` does not test set equality. It returns early when the new listing has the same
  length as the loaded one and contains every loaded file. That is set equality only when the
  loaded list has no duplicates (`NoWorkToDoIsSetEquality`, `NoWorkToDoMissesNewFileWithDuplicates`).
- `added` is every definition of the new catalog and `removed` every definition of the old one.
  There is no diff by identity.
- Explicit-list catalogs skip `Refresh` because their `Path` is null. There is no separate
  source kind in the code.

## Model

| member | source | states |
|---|---|---|
| `Loader.GetLoader` | src/ScriptCs.ComponentModel.Composition/ScriptCsCatalog.cs:499-514 | the built loader is `LoaderText(files, newLine)`: nothing for no files, otherwise a `#load <file><newline>` per file in input order, then the marker declaration and `typeof(Marker)`, each on its own line; it is empty exactly when the list is empty |
| `Loader.LoaderTextIsLoaderLines` | src/ScriptCs.ComponentModel.Composition/ScriptCsCatalog.cs:499-514 | the loader text is exactly the line list `LoaderLines(files)`, each line followed by the newline |
| `Loader.LoaderLinesShape` | src/ScriptCs.ComponentModel.Composition/ScriptCsCatalog.cs:502-511 | for a non-empty list there are `|files| + 2` lines: line i is `#load ` + files[i], then `public class Marker {}` and `typeof(Marker)` |
| `Collaborators.GetFullPath` | src/ScriptCs.ComponentModel.Composition/ScriptCsCatalog.cs:474-482 | a non-rooted path is combined with the current directory when there is one; a rooted path (or no current directory) is only normalised |
| `Collaborators.RootedPathIgnoresCurrentDirectory` | src/ScriptCs.ComponentModel.Composition/ScriptCsCatalog.cs:476-481 | the full path of a rooted folder does not depend on the file system's current directory |
| `Collaborators.GetFiles` | src/ScriptCs.ComponentModel.Composition/ScriptCsCatalog.cs:484-492 | listing fails exactly when the folder does not exist, with `Scripts folder: '<FullPath>' does not exist`; otherwise it is the enumeration in enumeration order |
| `Collaborators.FirstMissingScript` | src/ScriptCs.ComponentModel.Composition/ScriptCsCatalog.cs:432-438 | no script is missing exactly when all exist; otherwise the result is the first script, in list order, that does not exist |
| `Collaborators.CheckScriptsExist` | src/ScriptCs.ComponentModel.Composition/ScriptCsCatalog.cs:432-438 | the loop passes exactly when every script exists; otherwise it fails with `FileNotFound("Script: '<f>' does not exist", f)` for the first missing script f |
| `Collaborators.CatalogFromResult` | src/ScriptCs.ComponentModel.Composition/ScriptCsCatalog.cs:453-471 | a compile error is thrown before an execution error; without errors a marker `Type` yields a catalog of its assembly's parts and any other return value a null catalog |
| `ChangeDetection.NoWorkToDo` | src/ScriptCs.ComponentModel.Composition/ScriptCsCatalog.cs:291 | the short-circuit test of Refresh holds exactly when the new listing has as many entries as the loaded one and every loaded file occurs in it |
| `ChangeDetection.NoWorkToDoIsSetEquality` | src/ScriptCs.ComponentModel.Composition/ScriptCsCatalog.cs:290-294 | when the loaded files are distinct, "same length and every old file in the new list" holds exactly when the lengths and the member sets are equal, in any order |
| `ChangeDetection.NoWorkToDoMissesNewFileWithDuplicates` | src/ScriptCs.ComponentModel.Composition/ScriptCsCatalog.cs:291 | with duplicates the test is weaker than set equality: `[a, a]` against `[a, b]` counts as unchanged although `b` is new |
| `DisplayNames.DisplayNameOf` | src/ScriptCs.ComponentModel.Composition/ScriptCsCatalog.cs:494-497 | the name starts with `ScriptCsCatalog (Path="`, has the prefix, path and suffix lengths, and the path (null as empty) can be read back from it |
| `DisplayNames.DisplayNameDistinguishesPaths` | src/ScriptCs.ComponentModel.Composition/ScriptCsCatalog.cs:494-497 | two display names are equal exactly when the rendered paths are; a null and an empty path render alike |
| `Catalog.ExecuteScripts` | src/ScriptCs.ComponentModel.Composition/ScriptCsCatalog.cs:445-472 | running the built loader through the executor gives the classified result of executing `LoaderText(files)` |
| `Catalog.DirectoryConstruction` | src/ScriptCs.ComponentModel.Composition/ScriptCsCatalog.cs:157-175 | null/empty path fails with ArgumentNull("path") first, then searchPattern, then fileSystem; a missing resolved folder fails with DirectoryNotFound; on success the files are the enumeration of the resolved folder (lines 413-425) and the catalog their compilation |
| `Catalog.FilesConstruction` | src/ScriptCs.ComponentModel.Composition/ScriptCsCatalog.cs:203-216 | a null or empty list fails with ArgumentNull("scriptFiles"), then a null file system with ArgumentNull("fileSystem"), then the first missing script with FileNotFound; a list whose scripts all exist yields exactly their compilation: a compile or execution error is returned unchanged, otherwise the snapshot holds the list as given and its catalog |
| `Catalog.ChangeSet` | src/ScriptCs.ComponentModel.Composition/ScriptCsCatalog.cs:299-301 | added holds the new catalog's definitions and removed the old catalog's, each with the same multiplicities, a null catalog contributing none (corrected; as written it throws, see ## Findings) |
| `Catalog.ChangeSetAsWritten` | src/ScriptCs.ComponentModel.Composition/ScriptCsCatalog.cs:299-301 | as written the change set exists only when both catalogs are non-null, and then equals `ChangeSet` |
| `Catalog.RefreshAfterEmptyFolderThrowsAsWritten` | src/ScriptCs.ComponentModel.Composition/ScriptCsCatalog.cs:296-301 | an empty listing compiles to a null catalog; as written, the change set between it and a listing with scripts throws ArgumentNull("source") in both directions (first script appearing, line 301; last script disappearing, line 299), where the corrected change set publishes the parts or withdraws them |
| `Catalog.ScriptCsCatalog.FromDirectoryWithPattern` | src/ScriptCs.ComponentModel.Composition/ScriptCsCatalog.cs:157-175 | fails exactly as `DirectoryConstruction` does; on success a fresh, undisposed catalog with Path as given, FullPath resolved, the pattern, the listed files and their catalog, and no events |
| `Catalog.ScriptCsCatalog.FromDirectory` | src/ScriptCs.ComponentModel.Composition/ScriptCsCatalog.cs:116-119 | the same with the default pattern `*.csx` |
| `Catalog.ScriptCsCatalog.FromFiles` | src/ScriptCs.ComponentModel.Composition/ScriptCsCatalog.cs:203-216 | fails exactly as `FilesConstruction` does; on success LoadedFiles is the list in order and Path, FullPath and SearchPattern are null |
| `Catalog.ScriptCsCatalog.DisplayName` | src/ScriptCs.ComponentModel.Composition/ScriptCsCatalog.cs:63-66 | DisplayName is `ScriptCsCatalog (Path="<Path>")` and the path reads back from it |
| `Catalog.ScriptCsCatalog.ToString` | src/ScriptCs.ComponentModel.Composition/ScriptCsCatalog.cs:224-227 | ToString equals DisplayName |
| `Catalog.ScriptCsCatalog.Refresh` | src/ScriptCs.ComponentModel.Composition/ScriptCsCatalog.cs:260-331 | disposed: ObjectDisposed first; no Path: no-op; folder gone: DirectoryNotFound; unchanged listing: no compile, no event; compile failure: thrown; otherwise (with a null catalog contributing no definitions: corrected; as written it throws, see ## Findings) Changing (seeing the old files), swap to the new files and catalog, Changed (seeing the new files) with the same added/removed; a failed refresh changes nothing, and the catalog never changes without both events |
| `Catalog.ScriptCsCatalog.Dispose` | src/ScriptCs.ComponentModel.Composition/ScriptCsCatalog.cs:367-403 | the first `Dispose(true)` sets isDisposed, nulls the catalog and disposes the old one (if any) once; later calls and `Dispose(false)` change nothing |
| `Scenarios.RelativeFolderResolves` | src/ScriptCs.ComponentModel.Composition.Test/ScriptCsCatalogFacts.cs:385-397 | `_plugins` resolves to `c:\workingdirectory\_plugins` under the tests' file system |
| `Scenarios.MissingFolderIsReported` | src/ScriptCs.ComponentModel.Composition.Test/ScriptCsCatalogFacts.cs:279-287 | `fakeFolder` fails with the DirectoryNotFound message naming `c:\workingdirectory\fakeFolder` |
| `Scenarios.MissingScriptIsReported` | src/ScriptCs.ComponentModel.Composition.Test/ScriptCsCatalogFacts.cs:105-117 | a listed script that does not exist fails with FileNotFound naming it |
| `Scenarios.TwoScriptLoader` | src/ScriptCs.ComponentModel.Composition/ScriptCsCatalog.cs:499-514 | the loader for `a.csx, b.csx` is the exact expected text |
| `Scenarios.DisplayNamesOfBothKinds` | src/ScriptCs.ComponentModel.Composition.Test/ScriptCsCatalogFacts.cs:292-349 | `ScriptCsCatalog (Path="")` for a script list and `ScriptCsCatalog (Path="_plugins")` for the folder |
| `Scenarios.FirstScriptInEmptyFolder` | src/ScriptCs.ComponentModel.Composition/ScriptCsCatalog.cs:296-330 | a catalog built on an empty folder, refreshed after one script appears, publishes that script's parts with nothing removed, raising Changing then Changed |
| `Scenarios.DisposeTwice` | src/ScriptCs.ComponentModel.Composition/ScriptCsCatalog.cs:367-411 | disposing twice releases the assembly catalog exactly once, and a later Refresh fails with ObjectDisposed |

## Left out

- Locking and the optimistic retry (lines 53-56, 280-327, 379-388). Without concurrency or re-entrant subscribers, the check at line 311 always passes. So `Refresh` is modelled as one pass of the `while (true)` and `Dispose` as a plain check-and-clear. Concurrent refreshes and disposals are not modelled.
- `Catalog.ScriptCsCatalog.Refresh`: Changing and Changed subscribers are assumed to return normally and never call back into the catalog. Events are only appended to a log. The model does not capture these cases:
  - (a) A Changing handler that throws (lines 306, 354-361) aborts `Refresh` before the swap at 317-318: nothing changes and Changed is not raised. The model always swaps and returns `Pass`.
  - (b) A Changing handler that calls `Refresh` replaces the loaded files. The check at line 311 then fails and the outer call loops again on the same thread.
  - (c) A Changing handler that calls `Dispose` leaves the loaded files alone. Line 311 then passes and line 317 publishes the new catalog into a disposed catalog, which is never disposed afterwards. The model's invariant that a disposed catalog holds no assembly catalog relies on the absence of such call-backs.
  - (d) A Changed handler that throws (line 330) makes `Refresh` throw after the swap. The model returns `Pass`.
- `Catalog.ScriptCsCatalog.Refresh`: the file system and executor are per-call parameters standing for the disk as it is at the time of the call. The model does not tie them to the object given at construction or to the `references` it was built with.
- `GetEnumerator`, `GetExports` and `Origin` (lines 71-74, 233-246). They delegate to MEF's `AssemblyCatalog`, whose matching rules are external. Parts are an opaque sequence.
- `AtomicComposition` (lines 303-326) and its completion. The events carry no staging context.
- `CreateScriptServices` and the engine choice (lines 516-553), `ExecuteScript` itself and `marker.Assembly` reflection. They are replaced by an executor function from loader text to a result.
- `Path.IsPathRooted`, `Path.Combine`, `Path.GetFullPath`, `Environment.NewLine` and folder enumeration are fields of the `Platform` and `FileSystem` parameters, not implementations.
- The constructors that create the process's real file system (lines 97-100, 135-138, 186-189) behave like the ones given a non-null file system. They are not separate members.
- The `_loadedFiles == null` check in `Refresh` (lines 263-266) cannot fire: every factory that returns a catalog sets the loaded files.
- `base.Dispose` (line 401) belongs to the MEF base class.
- The display name is fixed to the type name `ScriptCsCatalog`; a subclass's `GetType().Name` is not modelled.
- The scenario file system lists the given scripts without filtering them by the pattern's extension.

## Findings

| source | as written | input that shows it | evidently intended | confidence | as-written member | corrected member |
|---|---|---|---|---|---|---|
| src/ScriptCs.ComponentModel.Composition/ScriptCsCatalog.cs:299-301 | `newCatalog.ToArray()` and `_catalog.ToArray()` are LINQ calls on an `AssemblyCatalog` that is null whenever the loader's value was not a `Type`, and they throw `ArgumentNullException` ("source") | a folder catalog built on a folder with no scripts: the loader is empty, its value is not a `Type`, so `_catalog` is null; then a script is added and `Refresh` is called (line 301). Symmetrically, a folder whose last script is deleted before `Refresh` (line 299) | a null catalog contributes no definitions. `Refresh` publishes the new script's parts with nothing removed (`Scenarios.FirstScriptInEmptyFolder`), or withdraws the old parts with nothing added | not executed; medium (it depends on the executor returning no `Type` for an empty script) | `Catalog.RefreshAfterEmptyFolderThrowsAsWritten` | `Catalog.ScriptCsCatalog.Refresh` |
