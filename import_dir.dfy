/**
 * Locating an installed package's directory from an import path such as "@scope/pkg/dist/x"
 * or "pkg/dist/x": the path is cut into a module name and the segments inside the package.
 */
module ImportDir {
  import opened Wrappers
  import opened Strings

  /** How JavaScript renders a missing array element inside a template string. */
  const Undefined: string := "undefined"

  /** A module name is scoped when its first segment starts with '@'. */
  predicate Scoped(importPath: string) {
    StartsWith(Split(importPath, '/')[0], "@")
  }

  /** The module name the path designates: one segment, or two for a scoped package. */
  function ModuleName(importPath: string): string {
    var parts := Split(importPath, '/');
    if Scoped(importPath) then parts[0] + "/" + (if |parts| > 1 then parts[1] else Undefined)
    else parts[0]
  }

  /** The segments after the module name, in order. */
  function Subpath(importPath: string): seq<string> {
    var parts := Split(importPath, '/');
    if !Scoped(importPath) then parts[1..] else if |parts| > 1 then parts[2..] else []
  }

  function EmptyNameError(moduleName: string): string {
    "importDir must be called with a package name, called with \"" + moduleName + "\" instead."
  }

  /** `parts.shift()`: removes and returns the first element, undefined when there is none. */
  method Shift(parts: seq<string>) returns (head: Option<string>, rest: seq<string>)
    ensures |parts| == 0 ==> head == None && rest == []
    ensures |parts| > 0 ==> head == Some(parts[0]) && [parts[0]] + rest == parts
  {
    if |parts| == 0 {
      head, rest := None, [];
    } else {
      head, rest := Some(parts[0]), parts[1..];
    }
  }

  /** The string a template literal shows for a value that may be undefined. */
  function Show(v: Option<string>): string {
    match v
    case Some(s) => s
    case None => Undefined
  }

  /**
   * `importDir(importPath)`, with the package directory of a module name given by packageDir
   * (module resolution and `path.join` normalisation are not modelled; the segments are joined by '/').
   */
  method ImportDirectory(importPath: string, packageDir: string -> string) returns (r: Result<string>)
    ensures ModuleName(importPath) == "" ==> r == Err(EmptyNameError(""))
    ensures ModuleName(importPath) != "" ==>
      r == Ok(Join([packageDir(ModuleName(importPath))] + Subpath(importPath), "/"))
  {
    var parts := Split(importPath, '/');
    var moduleName: string;
    if StartsWith(parts[0], "@") {
      var scope, name;
      scope, parts := Shift(parts);
      name, parts := Shift(parts);
      moduleName := Show(scope) + "/" + Show(name);
      assert moduleName == ModuleName(importPath) && parts == Subpath(importPath);
    } else {
      var first;
      first, parts := Shift(parts);
      moduleName := Show(first);
      assert moduleName == ModuleName(importPath) && parts == Subpath(importPath);
    }
    if moduleName == "" {
      return Err(EmptyNameError(moduleName));
    }
    r := Ok(Join([packageDir(moduleName)] + parts, "/"));
  }

  /** The module name is empty exactly when the path is empty or starts with '/'. */
  lemma EmptyModuleName(importPath: string)
    ensures ModuleName(importPath) == "" <==> importPath == "" || importPath[0] == '/'
  {
    var parts := Split(importPath, '/');
    if importPath != "" && importPath[0] != '/' {
      assert parts[0] == [importPath[0]] + Split(importPath[1..], '/')[0];
    }
  }

  /** An unscoped module name is a single segment. */
  lemma UnscopedNameIsOneSegment(importPath: string)
    requires !Scoped(importPath)
    ensures '/' !in ModuleName(importPath)
    ensures [ModuleName(importPath)] + Subpath(importPath) == Split(importPath, '/')
  {
  }

  /** Nothing is lost: the module name followed by the segments is the original path. */
  lemma {:induction false} ImportPathRoundTrip(importPath: string)
    requires !Scoped(importPath) || |Split(importPath, '/')| > 1
    ensures Join([ModuleName(importPath)] + Subpath(importPath), "/") == importPath
  {
    var parts := Split(importPath, '/');
    JoinSplit(importPath, '/');
    if Scoped(importPath) {
      var rest := parts[2..];
      if |rest| == 0 {
        assert parts == [parts[0], parts[1]];
        assert Join(parts, "/") == parts[0] + "/" + parts[1];
      } else {
        assert parts[1..][1..] == rest;
        assert Join(parts, "/") == parts[0] + "/" + (parts[1] + "/" + Join(rest, "/"));
        assert [ModuleName(importPath)] + rest == [parts[0] + "/" + parts[1]] + rest;
      }
    } else {
      assert [parts[0]] + parts[1..] == parts;
    }
  }
}
