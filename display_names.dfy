/** The display name of a catalog, also returned by `ToString()`. */
module DisplayNames {
  import opened Wrappers

  const DisplayPrefix := "ScriptCsCatalog (Path=\""
  const DisplaySuffix := "\")"

  /** `string.Format` renders a null path as the empty string. */
  function PathText(path: Option<string>): string {
    path.GetOr("")
  }

  /** Reads the path back out of a display name. */
  function ParseDisplayName(s: string): Option<string> {
    if |s| >= |DisplayPrefix| + |DisplaySuffix|
       && s[..|DisplayPrefix|] == DisplayPrefix
       && s[|s| - |DisplaySuffix|..] == DisplaySuffix
    then Some(s[|DisplayPrefix|..|s| - |DisplaySuffix|])
    else None
  }

  /** `ScriptCsCatalog (Path="<path>")`: the type name and the path as given, from which the
      path (null read as empty) can be read back. */
  function DisplayNameOf(path: Option<string>): (r: string)
    ensures |r| == |DisplayPrefix| + |PathText(path)| + |DisplaySuffix|
    ensures r[..|DisplayPrefix|] == DisplayPrefix
    ensures ParseDisplayName(r) == Some(PathText(path))
  {
    var r := DisplayPrefix + PathText(path) + DisplaySuffix;
    assert r[..|DisplayPrefix|] == DisplayPrefix;
    assert r[|r| - |DisplaySuffix|..] == DisplaySuffix;
    assert r[|DisplayPrefix|..|r| - |DisplaySuffix|] == PathText(path);
    r
  }

  /** Two catalogs whose paths render differently have different display names; a null path
      and an empty one render alike. */
  lemma DisplayNameDistinguishesPaths(a: Option<string>, b: Option<string>)
    ensures DisplayNameOf(a) == DisplayNameOf(b) <==> PathText(a) == PathText(b)
  {
    if DisplayNameOf(a) == DisplayNameOf(b) {
      assert ParseDisplayName(DisplayNameOf(a)) == ParseDisplayName(DisplayNameOf(b));
    }
  }
}
