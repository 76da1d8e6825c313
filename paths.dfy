/** The part of `pathlib` the components rely on: the components of a path,
    its final name, its text after normalisation, joining a name onto it and
    the suffix of a file name. Paths are POSIX paths. */
module Paths {
  import opened Seqs
  import opened Strings

  predicate IsNamePart(part: string)
  {
    part != "" && part != "."
  }

  /** The components `pathlib` keeps: separators collapse and "." parts vanish. */
  function Components(path: string): seq<string>
  {
    Filter(Split(path, '/'), IsNamePart)
  }

  /** `Path(path).name`: the last component, or "" when there is none. */
  function BaseName(path: string): (name: string)
    ensures '/' !in name
  {
    var parts := Components(path);
    SplitPiecesFree(path, '/');
    if |parts| == 0 then "" else
      assert parts[|parts| - 1] in Split(path, '/');
      parts[|parts| - 1]
  }

  /** `str(Path(path))`. */
  function PathText(path: string): string
  {
    var parts := Components(path);
    var root := if |path| > 0 && path[0] == '/' then "/" else "";
    if root == "" && |parts| == 0 then "." else root + Join(parts, '/')
  }

  /** `str(Path(path) / name)` for a `PathText` and a plain name. */
  function Child(pathText: string, name: string): string
  {
    if pathText == "." then name
    else if pathText == "/" then "/" + name
    else pathText + "/" + name
  }

  /** A plain name prints as itself. */
  lemma PathTextPlain(name: string)
    requires PlainName(name)
    ensures PathText(name) == name
  {
    PlainNameComponents(name);
  }

  /** `(Path(p) / name).name == name` for a plain name. */
  lemma ChildBaseName(pathText: string, name: string)
    requires PlainName(name)
    ensures BaseName(Child(pathText, name)) == name
  {
    if pathText == "." {
      PlainNameComponents(name);
    } else {
      var dir := if pathText == "/" then "" else pathText;
      assert Child(pathText, name) == dir + ['/'] + name;
      var parts := Split(dir + ['/'] + name, '/');
      SplitLastPiece(dir, '/', name);
      assert parts == parts[..|parts| - 1] + [name];
      FilterSnoc(parts[..|parts| - 1], name, IsNamePart);
    }
  }

  /** Index of the last `c` in `s`, or -1. */
  function LastIndexOf(s: string, c: char): (i: int)
    ensures -1 <= i < |s|
    ensures 0 <= i ==> s[i] == c
    ensures forall k :: i < k < |s| ==> s[k] != c
    decreases |s|
  {
    if |s| == 0 then -1
    else if s[|s| - 1] == c then |s| - 1
    else LastIndexOf(s[..|s| - 1], c)
  }

  /** `Path(name).suffix`: from the last dot on, unless that dot is the first
      or the last character. */
  function Suffix(name: string): (suffix: string)
    ensures |suffix| < |name| || suffix == ""
    ensures suffix != "" ==> suffix[0] == '.' && '.' !in suffix[1..]
    ensures suffix != "" ==> name == name[..|name| - |suffix|] + suffix
  {
    var i := LastIndexOf(name, '.');
    if 0 < i < |name| - 1 then name[i..] else ""
  }

  /** The only `c` after index `k` is none: then `k` is the last `c`. */
  lemma LastIndexOfIs(s: string, c: char, k: int)
    requires 0 <= k < |s| && s[k] == c && c !in s[k + 1..]
    ensures LastIndexOf(s, c) == k
  {
  }

  /** A name whose last dot is neither its first nor its last character has
      the suffix that starts at that dot. */
  lemma SuffixPresent(name: string, k: int)
    requires 0 < k < |name| - 1 && name[k] == '.' && '.' !in name[k + 1..]
    ensures Suffix(name) == name[k..]
  {
    LastIndexOfIs(name, '.', k);
  }

  /** A single name: not empty, no separator, not "." (".." is a name to `pathlib`). */
  predicate PlainName(name: string)
  {
    IsNamePart(name) && '/' !in name
  }

  /** A plain name is its own only component. */
  lemma PlainNameComponents(name: string)
    requires PlainName(name)
    ensures Components(name) == [name]
    ensures BaseName(name) == name
  {
    SplitWithoutSeparator(name, '/');
    FilterSnoc([], name, IsNamePart);
    assert [] + [name] == [name];
  }
}
