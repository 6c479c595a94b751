/**
 * The few System.IO.Path operations the engine relies on, on Windows conventions:
 * '\' and '/' separate directories and ':' ends a volume name.
 */
module Paths {

  /** DirectorySeparatorChar, AltDirectorySeparatorChar or VolumeSeparatorChar. */
  predicate IsSeparator(c: char)
  {
    c == '\\' || c == '/' || c == ':'
  }

  /** Path.GetFileName: the characters after the last separator of `path`. */
  function FileName(path: string): string
  {
    if path == [] then []
    else if IsSeparator(path[|path| - 1]) then []
    else FileName(path[..|path| - 1]) + [path[|path| - 1]]
  }

  /** The file name is the longest separator-free tail of the path. */
  lemma {:induction false} FileNameIsLastSegment(path: string)
    ensures var name := FileName(path);
      && |name| <= |path| && name == path[|path| - |name|..]
      && (forall i :: 0 <= i < |name| ==> !IsSeparator(name[i]))
      && (|name| < |path| ==> IsSeparator(path[|path| - |name| - 1]))
    decreases |path|
  {
    if path != [] && !IsSeparator(path[|path| - 1]) {
      var init := path[..|path| - 1];
      FileNameIsLastSegment(init);
      var name, name' := FileName(path), FileName(init);
      assert name == name' + [path[|path| - 1]];
      assert path[|path| - |name|..] == init[|init| - |name'|..] + [path[|path| - 1]];
      assert |name| < |path| ==> path[|path| - |name| - 1] == init[|init| - |name'| - 1];
    }
  }

  /** The index of the last '.' in `s`, or -1 when there is none (String.LastIndexOf). */
  function LastDot(s: string): (i: int)
    ensures -1 <= i < |s|
    ensures 0 <= i ==> s[i] == '.'
    ensures forall j :: i < j < |s| ==> s[j] != '.'
  {
    if s == [] then -1
    else if s[|s| - 1] == '.' then |s| - 1
    else LastDot(s[..|s| - 1])
  }

  /**
   * Path.GetFileNameWithoutExtension: the file name up to, not including, its last
   * '.'; the whole file name when it has no '.'.
   */
  function FileNameWithoutExtension(path: string): string
  {
    var name := FileName(path);
    var i := LastDot(name);
    if i < 0 then name else name[..i]
  }

  /**
   * The name the success and failure notifications of ExecuteScriptInTransaction
   * carry is a prefix of the file name: all of it when it has no '.', otherwise
   * everything before its last '.'.
   */
  lemma FileNameWithoutExtensionIsPrefix(path: string)
    ensures var stem, name := FileNameWithoutExtension(path), FileName(path);
      && stem <= name
      && (|stem| < |name| ==> name[|stem|] == '.' && forall j :: |stem| < j < |name| ==> name[j] != '.')
      && ('.' !in name <==> stem == name)
  {
  }

  /** Path.IsPathRooted: a leading separator or a drive letter. */
  predicate IsRooted(path: string)
  {
    (|path| > 0 && (path[0] == '\\' || path[0] == '/')) || (|path| > 1 && path[1] == ':')
  }

  /** Path.Combine of two paths. */
  function Combine(folder: string, name: string): (path: string)
  {
    if name == [] then folder
    else if folder == [] || IsRooted(name) then name
    else if IsSeparator(folder[|folder| - 1]) then folder + name
    else folder + "\\" + name
  }

  /** Appending to a path that ends at a separator keeps the file name of the appended part. */
  lemma {:induction false} FileNameAfterSeparator(prefix: string, rest: string)
    requires prefix != [] && IsSeparator(prefix[|prefix| - 1])
    ensures FileName(prefix + rest) == FileName(rest)
    decreases |rest|
  {
    if rest == [] {
      assert prefix + rest == prefix;
    } else {
      var all := prefix + rest;
      assert all[..|all| - 1] == prefix + rest[..|rest| - 1];
      assert all[|all| - 1] == rest[|rest| - 1];
      FileNameAfterSeparator(prefix, rest[..|rest| - 1]);
    }
  }

  /** A script named inside a folder keeps its own file name in the combined path. */
  lemma CombineFileName(folder: string, name: string)
    requires name != []
    ensures FileName(Combine(folder, name)) == FileName(name)
  {
    if folder == [] || IsRooted(name) {
    } else if IsSeparator(folder[|folder| - 1]) {
      FileNameAfterSeparator(folder, name);
    } else {
      assert folder + "\\" + name == (folder + "\\") + name;
      FileNameAfterSeparator(folder + "\\", name);
    }
  }

  /** String.StartsWith("~"): the path is relative to a web application's virtual root. */
  predicate IsVirtual(path: string)
  {
    |path| > 0 && path[0] == '~'
  }
}
