/**
 * String-built paths. Ruby's Pathname#dirname is modelled by a dirname that
 * drops the last '/'-separated segment; file names of templates and partials
 * share the shape prefix + stem + "." + extension.
 */
module Paths {
  import opened Results

  /** `dir + "/" + name`, the string interpolation the source uses to build paths. */
  function Join(dir: string, name: string): string
  {
    dir + "/" + name
  }

  /** `s` holds no '/': it names a single path segment. */
  predicate NoSlash(s: string)
  {
    forall i :: 0 <= i < |s| ==> s[i] != '/'
  }

  /** Index of the last '/' among the first `n` characters of `s`, or -1 when there is none. */
  function LastSlashBefore(s: string, n: nat): (r: int)
    requires n <= |s|
    ensures -1 <= r < n
    ensures r >= 0 ==> s[r] == '/'
    ensures forall i :: r < i < n ==> s[i] != '/'
  {
    if n == 0 then -1
    else if s[n - 1] == '/' then n - 1
    else LastSlashBefore(s, n - 1)
  }

  /** Index of the last '/' in `s`, or -1 when `s` holds none. */
  function LastSlash(s: string): (r: int)
    ensures -1 <= r < |s|
    ensures r >= 0 ==> s[r] == '/'
    ensures forall i :: r < i < |s| ==> s[i] != '/'
  {
    LastSlashBefore(s, |s|)
  }

  /**
   * The directory part of `path`: "." when it holds no '/', "/" when its only
   * '/' is the leading one, otherwise everything before the last '/'.
   */
  function Dirname(path: string): string
  {
    var i := LastSlash(path);
    if i < 0 then "." else if i == 0 then "/" else path[..i]
  }

  /** A segment with a segment as its extension is one segment. */
  lemma NoSlashDotted(stem: string, ext: string)
    requires NoSlash(stem) && NoSlash(ext)
    ensures NoSlash(stem + "." + ext)
  {
  }

  /** A file joined onto a non-empty directory has that directory as its dirname. */
  lemma DirnameOfJoin(dir: string, name: string)
    requires dir != ""
    requires NoSlash(name)
    ensures Dirname(Join(dir, name)) == dir
  {
    var p := Join(dir, name);
    assert p[|dir|] == '/';
    forall i | |dir| < i < |p|
      ensures p[i] != '/'
    {
      assert p[i] == name[i - |dir| - 1];
    }
    assert LastSlash(p) == |dir|;
    assert p[..|dir|] == dir;
  }

  /** `prefix + stem + "." + ext`: the shape of template and partial file names. */
  function Affix(prefix: string, stem: string, ext: string): string
  {
    prefix + stem + "." + ext
  }

  /** The stem of `s` when `s` has the shape `prefix + stem + "." + ext`, None otherwise. */
  function Stem(prefix: string, ext: string, s: string): Option<string>
  {
    if |s| >= |prefix| + |ext| + 1 && s[..|prefix|] == prefix && s[|s| - |ext| - 1..] == "." + ext
    then Some(s[|prefix|..|s| - |ext| - 1])
    else None
  }

  /** Stem undoes Affix: the stem is recovered from the file name. */
  lemma StemOfAffix(prefix: string, stem: string, ext: string)
    ensures Stem(prefix, ext, Affix(prefix, stem, ext)) == Some(stem)
  {
    var s := Affix(prefix, stem, ext);
    assert s[..|prefix|] == prefix;
    assert s[|s| - |ext| - 1..] == "." + ext;
    assert s[|prefix|..|s| - |ext| - 1] == stem;
  }

  /** Affix undoes Stem: a name that has a stem is exactly that stem, affixed. */
  lemma AffixOfStem(prefix: string, ext: string, s: string)
    requires Stem(prefix, ext, s).Some?
    ensures Affix(prefix, Stem(prefix, ext, s).value, ext) == s
  {
  }

  /** For a fixed prefix and extension, different stems give different names. */
  lemma AffixInjective(prefix: string, stem1: string, stem2: string, ext: string)
    requires Affix(prefix, stem1, ext) == Affix(prefix, stem2, ext)
    ensures stem1 == stem2
  {
    StemOfAffix(prefix, stem1, ext);
    StemOfAffix(prefix, stem2, ext);
  }
}
