/** The loader script: one compilation unit that `#load`s every script file and evaluates to
    the type of a marker class declared after them, so that the assembly built from the
    scripts can be found from the value the unit returns. */
module Loader {

  const LoadDirective := "#load "
  const MarkerDeclaration := "public class Marker {}"
  const MarkerExpression := "typeof(Marker)"

  /** The `#load` lines for `files`, in list order, each ended by `newLine`. */
  function Directives(files: seq<string>, newLine: string): string {
    if files == [] then ""
    else Directives(files[..|files| - 1], newLine) + LoadDirective + files[|files| - 1] + newLine
  }

  /** The loader for `files`: nothing at all for no files, otherwise the `#load` lines
      followed by the marker declaration and the marker expression, each on its own line. */
  function LoaderText(files: seq<string>, newLine: string): string {
    if files == [] then ""
    else Directives(files, newLine) + MarkerDeclaration + newLine + MarkerExpression + newLine
  }

  /** A reference description of the loader, line by line. */
  function LoaderLines(files: seq<string>): (lines: seq<string>) {
    if files == [] then []
    else LoadLines(files) + [MarkerDeclaration, MarkerExpression]
  }

  function LoadLines(files: seq<string>): (lines: seq<string>) {
    seq(|files|, i requires 0 <= i < |files| => LoadDirective + files[i])
  }

  /** Lines written one after the other, each followed by `newLine`. */
  function Terminated(lines: seq<string>, newLine: string): string {
    if lines == [] then ""
    else Terminated(lines[..|lines| - 1], newLine) + lines[|lines| - 1] + newLine
  }

  lemma {:induction false} TerminatedAppend(a: seq<string>, b: seq<string>, newLine: string)
    ensures Terminated(a + b, newLine) == Terminated(a, newLine) + Terminated(b, newLine)
  {
    if b == [] {
      assert a + b == a;
    } else {
      var b' := b[..|b| - 1];
      assert (a + b)[..|a + b| - 1] == a + b';
      TerminatedAppend(a, b', newLine);
    }
  }

  lemma {:induction false} DirectivesAreLoadLines(files: seq<string>, newLine: string)
    ensures Directives(files, newLine) == Terminated(LoadLines(files), newLine)
  {
    if files != [] {
      var init := files[..|files| - 1];
      DirectivesAreLoadLines(init, newLine);
      assert LoadLines(files)[..|files| - 1] == LoadLines(init);
    }
  }

  /** The loader text is exactly its line-by-line description, each line ended by the newline. */
  lemma LoaderTextIsLoaderLines(files: seq<string>, newLine: string)
    ensures LoaderText(files, newLine) == Terminated(LoaderLines(files), newLine)
  {
    if files != [] {
      var tail := [MarkerDeclaration, MarkerExpression];
      DirectivesAreLoadLines(files, newLine);
      TerminatedAppend(LoadLines(files), tail, newLine);
      assert Terminated(tail, newLine) == MarkerDeclaration + newLine + MarkerExpression + newLine by {
        assert tail[..1] == [MarkerDeclaration];
        assert [MarkerDeclaration][..0] == [];
        assert Terminated([MarkerDeclaration], newLine) == MarkerDeclaration + newLine;
      }
      assert LoaderLines(files) == LoadLines(files) + tail;
    }
  }

  /** Every file contributes at least the `#load ` keyword, so the directives are empty
      exactly when there are no files. */
  lemma {:induction false} DirectivesLength(files: seq<string>, newLine: string)
    ensures |Directives(files, newLine)| >= |LoadDirective| * |files|
  {
    if files != [] {
      DirectivesLength(files[..|files| - 1], newLine);
    }
  }

  /** The loader for a non-empty list: one `#load` line per file in input order, then the
      marker declaration and the marker expression. */
  lemma LoaderLinesShape(files: seq<string>)
    requires files != []
    ensures |LoaderLines(files)| == |files| + 2
    ensures forall i :: 0 <= i < |files| ==> LoaderLines(files)[i] == "#load " + files[i]
    ensures LoaderLines(files)[|files|] == "public class Marker {}"
    ensures LoaderLines(files)[|files| + 1] == "typeof(Marker)"
  {
  }

  /** Builds the loader with a string builder: a `#load` line per file, then the marker
      lines when anything was written. */
  method GetLoader(files: seq<string>, newLine: string) returns (loader: string)
    ensures loader == LoaderText(files, newLine)
    ensures loader == "" <==> files == []
  {
    var builder := "";
    for i := 0 to |files|
      invariant builder == Directives(files[..i], newLine)
    {
      assert files[..i + 1][..i] == files[..i];
      builder := builder + LoadDirective + files[i] + newLine;
    }
    assert files[..|files|] == files;
    DirectivesLength(files, newLine);
    if |builder| != 0 {
      builder := builder + MarkerDeclaration + newLine;
      builder := builder + MarkerExpression + newLine;
    }
    loader := builder;
  }
}
