/**
 * Mustache::Railstache::TemplateHandler#mustache_template_file: the file a
 * template with a given virtual path is read from, and where that puts the
 * partials it refers to.
 */
module TemplateHandler {
  import opened Results
  import opened Paths
  import opened Config
  import opened Partials

  /** `"#{base}/#{virtualPath}.#{ext}"` */
  function TemplatePath(base: string, virtualPath: string, ext: string): string
  {
    Affix(base + "/", virtualPath, ext)
  }

  /** Reads the base path and the extension from `config` (memoising both) and builds the file name. */
  method MustacheTemplateFile(config: Settings, virtualPath: string) returns (path: string)
    modifies config`templateBasePath, config`templateExtension
    ensures var base := Memo(old(config.templateBasePath), config.defaultBasePath);
            var ext := Memo(old(config.templateExtension), DefaultExtension);
      path == TemplatePath(base, virtualPath, ext)
      && config.templateBasePath == Some(base) && config.templateExtension == Some(ext)
  {
    var base := config.TemplateBasePath();
    var ext := config.TemplateExtension();
    path := TemplatePath(base, virtualPath, ext);
  }

  /** The virtual path is recovered from the template file name, so distinct virtual paths get distinct files. */
  lemma TemplatePathDecodes(base: string, virtualPath: string, ext: string)
    ensures Stem(base + "/", ext, TemplatePath(base, virtualPath, ext)) == Some(virtualPath)
  {
    StemOfAffix(base + "/", virtualPath, ext);
  }

  /** A template at the top of the base path has the base path as its directory. */
  lemma TopLevelTemplateDirectory(base: string, leaf: string, ext: string)
    requires base != "" && NoSlash(leaf) && NoSlash(ext)
    ensures Dirname(TemplatePath(base, leaf, ext)) == base
  {
    NoSlashDotted(leaf, ext);
    assert TemplatePath(base, leaf, ext) == Join(base, leaf + "." + ext);
    DirnameOfJoin(base, leaf + "." + ext);
  }

  /**
   * A template with virtual path "dir/leaf" has "base/dir" as its
   * directory, which is where its partials are looked for first.
   */
  lemma NestedTemplateDirectory(base: string, dir: string, leaf: string, ext: string)
    requires base != "" && NoSlash(leaf) && NoSlash(ext)
    ensures Dirname(TemplatePath(base, Join(dir, leaf), ext)) == Join(base, dir)
  {
    NoSlashDotted(leaf, ext);
    assert TemplatePath(base, Join(dir, leaf), ext) == Join(Join(base, dir), leaf + "." + ext);
    DirnameOfJoin(Join(base, dir), leaf + "." + ext);
  }

  /**
   * For the template rendered from "dir/leaf", the partial `name` is looked
   * for first as "base/dir/_name.ext".
   */
  lemma PartialBesideTemplate(base: string, dir: string, leaf: string, name: string, ext: string)
    requires base != "" && NoSlash(ext) && NoSlash(leaf)
    ensures LocalCandidate(name, TemplatePath(base, Join(dir, leaf), ext), ext, Identity)
      == Join(Join(base, dir), PartialFileName(name, ext))
  {
    NestedTemplateDirectory(base, dir, leaf, ext);
  }
}
