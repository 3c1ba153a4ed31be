/** JsDocToolkitUtils.getJsClassFiles: the class documentation pages JSDoc Toolkit wrote
    into the `symbols` sub-directory of its output directory. */
module JsDocUtils {
  import opened Strings

  const SymbolsDirName := "symbols"
  const HtmlSuffix := ".html"
  const GlobalPage := "_global_.html"
  const Separator := "/"

  /** The file system as far as this code sees it: every directory path with the names
      of its entries. A path that is not a key is not a directory. */
  datatype FileSystem = FileSystem(directories: map<string, seq<string>>)

  /** `new File(parent, child)`. */
  function Child(parent: string, name: string): string {
    parent + Separator + name
  }

  /** The test applied to each entry name. */
  predicate IsClassPage(name: string) {
    EndsWith(name, HtmlSuffix) && name != GlobalPage
  }

  /** The class pages found under `outputDir`, as file paths. */
  function ClassPages(fs: FileSystem, outputDir: string): set<string> {
    var symbols := Child(outputDir, SymbolsDirName);
    if symbols in fs.directories then
      var names := fs.directories[symbols];
      set i | 0 <= i < |names| && IsClassPage(names[i]) :: Child(symbols, names[i])
    else
      {}
  }

  /** The loop of getJsClassFiles: each listed entry whose name passes the test is added
      to a set. */
  method GetJsClassFiles(fs: FileSystem, outputDir: string) returns (jsClasses: set<string>)
    ensures jsClasses == ClassPages(fs, outputDir)
  {
    var symbols := Child(outputDir, SymbolsDirName);
    jsClasses := {};
    if symbols in fs.directories {
      var names := fs.directories[symbols];
      var i := 0;
      while i < |names|
        invariant 0 <= i <= |names|
        invariant jsClasses == set j | 0 <= j < i && IsClassPage(names[j]) :: Child(symbols, names[j])
      {
        if EndsWith(names[i], HtmlSuffix) && names[i] != GlobalPage {
          jsClasses := jsClasses + {Child(symbols, names[i])};
        }
        i := i + 1;
      }
    }
  }

  /** Two children of the same directory are the same path only if their names agree. */
  lemma ChildInjective(parent: string, a: string, b: string)
    requires Child(parent, a) == Child(parent, b)
    ensures a == b
  {
    var n := |parent + Separator|;
    assert a == Child(parent, a)[n..];
    assert b == Child(parent, b)[n..];
  }

  /** A path ending in a name ends in every suffix of that name. */
  lemma EndsWithChild(parent: string, name: string, suffix: string)
    requires EndsWith(name, suffix)
    ensures EndsWith(Child(parent, name), suffix)
  {
    var p := Child(parent, name);
    assert p[|p| - |name|..] == name;
    assert p[|p| - |suffix|..] == name[|name| - |suffix|..];
  }

  /** When `symbols` is not a directory, nothing is returned. */
  lemma NoSymbolsDirectory(fs: FileSystem, outputDir: string)
    requires Child(outputDir, SymbolsDirName) !in fs.directories
    ensures ClassPages(fs, outputDir) == {}
  {
  }

  /** A path is returned exactly when it names a listed entry of `symbols` that ends with
      ".html" and is not "_global_.html". */
  lemma ClassPagesExactly(fs: FileSystem, outputDir: string, name: string)
    ensures Child(Child(outputDir, SymbolsDirName), name) in ClassPages(fs, outputDir) <==>
              && Child(outputDir, SymbolsDirName) in fs.directories
              && name in fs.directories[Child(outputDir, SymbolsDirName)]
              && IsClassPage(name)
  {
    var symbols := Child(outputDir, SymbolsDirName);
    if Child(symbols, name) in ClassPages(fs, outputDir) {
      var names := fs.directories[symbols];
      var i :| 0 <= i < |names| && IsClassPage(names[i]) && Child(symbols, names[i]) == Child(symbols, name);
      ChildInjective(symbols, names[i], name);
    }
    if symbols in fs.directories && name in fs.directories[symbols] && IsClassPage(name) {
      var names := fs.directories[symbols];
      var i :| 0 <= i < |names| && names[i] == name;
    }
  }

  /** Every returned path lies in `symbols`, ends with ".html" and is not the global page. */
  lemma ClassPagesAreHtmlPages(fs: FileSystem, outputDir: string, path: string)
    requires path in ClassPages(fs, outputDir)
    ensures exists name :: name != GlobalPage && path == Child(Child(outputDir, SymbolsDirName), name)
    ensures EndsWith(path, HtmlSuffix)
    ensures path != Child(Child(outputDir, SymbolsDirName), GlobalPage)
  {
    var symbols := Child(outputDir, SymbolsDirName);
    var names := fs.directories[symbols];
    var i :| 0 <= i < |names| && IsClassPage(names[i]) && path == Child(symbols, names[i]);
    EndsWithChild(symbols, names[i], HtmlSuffix);
    if path == Child(symbols, GlobalPage) {
      ChildInjective(symbols, names[i], GlobalPage);
    }
  }
}
