/**
 * Where Mustache::Railstache#partial finds a partial. The candidate file
 * name is "_" + name + "." + extension, with the underscore in front of the
 * whole name even when the name holds a '/'. The first place tried is that
 * file in the directory of the current template (after File.expand_path,
 * taken as an opaque function `expand`); when no regular file is there, the
 * file under the shared path is read without a check. The file system is a
 * map from the path of each regular file to its contents.
 */
module Partials {
  import opened Results
  import opened Paths

  type FileSystem = map<string, string>

  /** File.read failing because no regular file is at `path`. */
  datatype FsError = NoSuchFile(path: string)

  /** File.read */
  function ReadFile(fs: FileSystem, path: string): Result<string, FsError>
  {
    if path in fs then Ok(fs[path]) else Err(NoSuchFile(path))
  }

  /** `"_#{name}.#{ext}"` */
  function PartialFileName(name: string, ext: string): string
  {
    Affix("_", name, ext)
  }

  /** The file beside the current template. */
  function LocalCandidate(name: string, templateFile: string, ext: string, expand: string -> string): string
  {
    expand(Join(Dirname(templateFile), PartialFileName(name, ext)))
  }

  /** The file under the shared path. */
  function SharedCandidate(name: string, ext: string, sharedPath: string): string
  {
    Join(sharedPath, PartialFileName(name, ext))
  }

  /** What `partial(name)` returns, given the extension and shared path it reads from Config. */
  function LookupPartial(name: string, templateFile: string, ext: string, sharedPath: string,
                         fs: FileSystem, expand: string -> string): Result<string, FsError>
  {
    var local := LocalCandidate(name, templateFile, ext, expand);
    if local in fs then Ok(fs[local]) else ReadFile(fs, SharedCandidate(name, ext, sharedPath))
  }

  /** The partial's name is recovered from its file name: nothing is dropped or split. */
  lemma PartialFileNameDecodes(name: string, ext: string)
    ensures Stem("_", ext, PartialFileName(name, ext)) == Some(name)
    ensures PartialFileName(name, ext)[0] == '_'
  {
    StemOfAffix("_", name, ext);
  }

  /** A regular file beside the template wins, whatever the shared path holds. */
  lemma LocalFirst(name: string, templateFile: string, ext: string, sharedPath: string,
                   fs: FileSystem, expand: string -> string)
    requires LocalCandidate(name, templateFile, ext, expand) in fs
    ensures LookupPartial(name, templateFile, ext, sharedPath, fs, expand)
      == Ok(fs[LocalCandidate(name, templateFile, ext, expand)])
  {
  }

  /** Without a local file, the shared file is read. */
  lemma SharedFallback(name: string, templateFile: string, ext: string, sharedPath: string,
                       fs: FileSystem, expand: string -> string)
    requires LocalCandidate(name, templateFile, ext, expand) !in fs
    ensures LookupPartial(name, templateFile, ext, sharedPath, fs, expand)
      == ReadFile(fs, SharedCandidate(name, ext, sharedPath))
  {
  }

  /**
   * The lookup fails exactly when neither candidate is a regular file, and
   * then the error names the shared path only.
   */
  lemma NotFound(name: string, templateFile: string, ext: string, sharedPath: string,
                 fs: FileSystem, expand: string -> string)
    ensures LookupPartial(name, templateFile, ext, sharedPath, fs, expand).Err? <==>
      LocalCandidate(name, templateFile, ext, expand) !in fs && SharedCandidate(name, ext, sharedPath) !in fs
    ensures LookupPartial(name, templateFile, ext, sharedPath, fs, expand).Err? ==>
      LookupPartial(name, templateFile, ext, sharedPath, fs, expand).error
        == NoSuchFile(SharedCandidate(name, ext, sharedPath))
  {
  }

  /**
   * No third place is looked at: two file systems that agree on the two
   * candidates give the same result.
   */
  lemma OnlyTwoCandidates(name: string, templateFile: string, ext: string, sharedPath: string,
                          fs1: FileSystem, fs2: FileSystem, expand: string -> string)
    requires var local := LocalCandidate(name, templateFile, ext, expand);
      (local in fs1 <==> local in fs2) && (local in fs1 ==> fs1[local] == fs2[local])
    requires var shared := SharedCandidate(name, ext, sharedPath);
      (shared in fs1 <==> shared in fs2) && (shared in fs1 ==> fs1[shared] == fs2[shared])
    ensures LookupPartial(name, templateFile, ext, sharedPath, fs1, expand)
      == LookupPartial(name, templateFile, ext, sharedPath, fs2, expand)
  {
  }

  /** The expansion that leaves an already absolute, normalised path as it is. */
  function Identity(p: string): string { p }

  /** A partial stored beside the template file `dir/file` is found there. */
  lemma FoundBesideTemplate(dir: string, file: string, name: string, ext: string, sharedPath: string, fs: FileSystem)
    requires dir != "" && NoSlash(file)
    requires Join(dir, PartialFileName(name, ext)) in fs
    ensures LookupPartial(name, Join(dir, file), ext, sharedPath, fs, Identity)
      == Ok(fs[Join(dir, PartialFileName(name, ext))])
  {
    DirnameOfJoin(dir, file);
  }

  /** With nothing beside the template `dir/file`, the shared directory supplies the partial. */
  lemma FoundInShared(dir: string, file: string, name: string, ext: string, sharedPath: string, fs: FileSystem)
    requires dir != "" && NoSlash(file)
    requires Join(dir, PartialFileName(name, ext)) !in fs
    requires Join(sharedPath, PartialFileName(name, ext)) in fs
    ensures LookupPartial(name, Join(dir, file), ext, sharedPath, fs, Identity)
      == Ok(fs[Join(sharedPath, PartialFileName(name, ext))])
  {
    DirnameOfJoin(dir, file);
  }

  /** `"_" + sub + "/" + leaf` is never `sub + "/_" + leaf` when `sub` holds no '/'. */
  lemma UnderscoreNotMoved(base: string, sub: string, leaf: string, ext: string)
    requires NoSlash(sub)
    ensures Join(base, PartialFileName(sub + "/" + leaf, ext)) != Join(Join(base, sub), PartialFileName(leaf, ext))
  {
    var x := Join(base, PartialFileName(sub + "/" + leaf, ext));
    var y := Join(Join(base, sub), PartialFileName(leaf, ext));
    var k := |base| + 1 + |sub|;
    assert y[k] == '/';
    if |sub| == 0 {
      assert x[k] == '_';
    } else {
      assert x[k] == sub[|sub| - 1];
    }
  }

  /**
   * A name "sub/leaf" is not split into a subdirectory: with the only copy
   * of the partial at "sub/_leaf" (beside the template or under the shared
   * path), the lookup fails.
   */
  lemma SubdirectoryNotSplit(dir: string, file: string, sub: string, leaf: string, ext: string,
                             sharedPath: string, fs: FileSystem)
    requires dir != "" && NoSlash(file) && NoSlash(sub)
    requires forall p :: p in fs ==>
      p == Join(Join(dir, sub), PartialFileName(leaf, ext)) ||
      p == Join(Join(sharedPath, sub), PartialFileName(leaf, ext))
    ensures LookupPartial(sub + "/" + leaf, Join(dir, file), ext, sharedPath, fs, Identity)
      == Err(NoSuchFile(SharedCandidate(sub + "/" + leaf, ext, sharedPath)))
  {
    DirnameOfJoin(dir, file);
    UnderscoreNotMoved(dir, sub, leaf, ext);
    UnderscoreNotMoved(sharedPath, sub, leaf, ext);
  }
}
