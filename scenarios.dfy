/** Concrete runs of the catalog against a file system that answers like the one the unit tests
    mock: current directory `c:\workingdirectory`, folders ending in `_plugins` exist, the
    plugins folder lists the given scripts. `MockPlatform` takes the platform's
    `Path.GetFullPath` to be the identity, as it is on these rooted Windows paths. */
module Scenarios {
  import opened Wrappers
  import opened Collaborators
  import opened Loader
  import opened DisplayNames
  import opened Catalog

  const WorkingDirectory := "c:\\workingdirectory"
  const PluginsFolder := "c:\\workingdirectory\\_plugins"

  function MockFileSystem(scripts: seq<string>): FileSystem {
    FileSystem(
      f => f in scripts,
      d => |d| >= 8 && d[|d| - 8..] == "_plugins",
      (dir, pattern) => if dir == PluginsFolder then scripts else [],
      Some(WorkingDirectory))
  }

  function MockPlatform(): Platform {
    Platform(
      p => |p| >= 3 && p[..3] == "c:\\",
      (a, b) => a + "\\" + b,
      p => p,
      "\n")
  }

  /** A relative folder is resolved against the current directory. */
  lemma RelativeFolderResolves(scripts: seq<string>)
    ensures GetFullPath(MockPlatform(), MockFileSystem(scripts), "_plugins") == PluginsFolder
  {
    assert "_plugins"[..3] != "c:\\" by {
      assert "_plugins"[..3][0] == '_';
    }
    assert WorkingDirectory + "\\" + "_plugins" == PluginsFolder;
  }

  /** A folder that does not exist is reported with its resolved path. */
  lemma MissingFolderIsReported(executor: Executor)
    ensures DirectoryConstruction(Some("fakeFolder"), Some("*.csx"), Some(MockFileSystem([])), MockPlatform(), executor)
            == Failure(MissingFolder("c:\\workingdirectory\\fakeFolder"))
  {
    assert "fakeFolder"[..3] != "c:\\" by {
      assert "fakeFolder"[..3][0] == 'f';
    }
    var full := GetFullPath(MockPlatform(), MockFileSystem([]), "fakeFolder");
    assert full == WorkingDirectory + "\\" + "fakeFolder";
    assert full == "c:\\workingdirectory\\fakeFolder";
    assert full[|full| - 8..] != "_plugins" by {
      assert full[|full| - 8..][0] == full[|full| - 8];
      assert full[|full| - 8] == 'k';
    }
  }

  /** A listed script that does not exist is reported by name. */
  lemma MissingScriptIsReported(executor: Executor)
    ensures FilesConstruction(Some(["c:\\workingdirectory\\SimpleScript.csx"]), Some(MockFileSystem([])), MockPlatform(), executor)
            == Failure(MissingScript("c:\\workingdirectory\\SimpleScript.csx"))
  {
    var file := "c:\\workingdirectory\\SimpleScript.csx";
    assert IsFirstMissing(MockFileSystem([]), [file], 0) by {
      assert [file][..0] == [];
    }
  }

  /** The loader for two scripts. */
  lemma TwoScriptLoader()
    ensures LoaderText(["a.csx", "b.csx"], "\n") == "#load a.csx\n#load b.csx\npublic class Marker {}\ntypeof(Marker)\n"
  {
    var files := ["a.csx", "b.csx"];
    assert files[..1] == ["a.csx"];
    assert ["a.csx"][..0] == [];
    assert Directives(["a.csx"], "\n") == "#load a.csx\n";
    assert Directives(files, "\n") == "#load a.csx\n#load b.csx\n";
    assert LoaderText(files, "\n") == "#load a.csx\n#load b.csx\n" + "public class Marker {}" + "\n" + "typeof(Marker)" + "\n";
  }

  /** Display names of a script-list catalog and of a folder catalog. */
  lemma DisplayNamesOfBothKinds()
    ensures DisplayNameOf(None) == "ScriptCsCatalog (Path=\"\")"
    ensures DisplayNameOf(Some("_plugins")) == "ScriptCsCatalog (Path=\"_plugins\")"
  {
  }

  /** A folder catalog built while its folder held no script, refreshed once a script appears:
      the new script's definitions are added, nothing is removed, and subscribers see the old
      listing during Changing and the new one during Changed. */
  method FirstScriptInEmptyFolder(platform: Platform, before: FileSystem, after: FileSystem,
                                  emptyRun: Executor, run: Executor, script: string, parts: seq<PartDefinition>)
    returns (built: bool, refreshed: Outcome<Error>, events: seq<CatalogEvent>, files: seq<string>)
    requires before.directoryExists(GetFullPath(platform, before, "_plugins"))
    requires before.enumerateFiles(GetFullPath(platform, before, "_plugins"), "*.csx") == []
    requires emptyRun("") == ScriptResult(None, None, NotAType)
    requires after.directoryExists(GetFullPath(platform, before, "_plugins"))
    requires after.enumerateFiles(GetFullPath(platform, before, "_plugins"), "*.csx") == [script]
    requires run(LoaderText([script], platform.newLine)) == ScriptResult(None, None, MarkerType(parts))
    ensures built && refreshed == Pass && files == [script]
    ensures events == [Changing(parts, [], []), Changed(parts, [], [script])]
  {
    var created := ScriptCsCatalog.FromDirectory(Some("_plugins"), Some(before), platform, emptyRun);
    built := created.Success?;
    if !built {
      return built, Pass, [], [];
    }
    var c := created.value;
    refreshed := c.Refresh(after, run);
    events := c.events;
    files := c.loadedFiles;
  }

  /** Disposing twice releases the assembly catalog once, and the disposed catalog refuses to
      refresh. */
  method DisposeTwice(scriptFiles: seq<string>, fileSystem: FileSystem, platform: Platform, executor: Executor, catalog: AssemblyCatalog)
    returns (built: bool, released: seq<AssemblyCatalog>, refreshed: Outcome<Error>)
    requires scriptFiles != [] && AllExist(fileSystem, scriptFiles)
    requires CompileScripts(platform, executor, scriptFiles) == Success(Some(catalog))
    ensures built && released == [catalog]
    ensures refreshed == Fail(ObjectDisposed("ScriptCsCatalog"))
  {
    var created := ScriptCsCatalog.FromFiles(Some(scriptFiles), Some(fileSystem), platform, executor);
    built := created.Success?;
    if !built {
      return built, [], Pass;
    }
    var c := created.value;
    c.Dispose(true);
    c.Dispose(true);
    released := c.disposedCatalogs;
    refreshed := c.Refresh(fileSystem, executor);
  }
}
