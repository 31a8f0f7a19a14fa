/**
 * Mustache::Railstache instances: their construction (`new(run)`, which
 * runs the overridable `init` hook when `run` holds), the `for` factory that
 * builds one from an options hash, storing values with `[]=`, and `partial`.
 * `initLog` records the view and context seen by each run of `init`.
 */
module Railstache {
  import opened Results
  import opened Paths
  import opened Config
  import opened Partials

  /** The options key that `for` takes the view from. */
  const ViewKey := "view"

  /** The caller's options hash, which `for` changes in place. */
  class OptionsHash<V> {
    var entries: map<string, V>

    constructor(entries: map<string, V>)
      ensures this.entries == entries
    {
      this.entries := entries;
    }
  }

  class Stache<V> {
    var view: Option<V>
    var context: map<string, V>
    var templateFile: string
    ghost var initLog: seq<(Option<V>, map<string, V>)>

    /** `initialize(run=true)`: `init` runs at construction exactly when `run` holds. */
    constructor(run: bool)
      ensures view == None && context == map[] && templateFile == ""
      ensures initLog == if run then [(None, map[])] else []
    {
      view, context, templateFile := None, map[], "";
      initLog := [];
      new;
      if run {
        Init();
      }
    }

    /** The `init` hook; the base class's does nothing but record what it saw. */
    method Init()
      modifies this`initLog
      ensures initLog == old(initLog) + [(view, context)]
    {
      initLog := initLog + [(view, context)];
    }

    /** `stache[key] = value` */
    method Store(key: string, value: V)
      modifies this`context
      ensures context == old(context)[key := value]
    {
      context := context[key := value];
    }

    /**
     * `Railstache.for(options)`: builds with `new(false)`, takes the view out
     * of the options, stores every other entry, then runs `init` once.
     */
    static method For(options: OptionsHash<V>) returns (stache: Stache<V>)
      modifies options
      ensures fresh(stache)
      ensures stache.view == if ViewKey in old(options.entries) then Some(old(options.entries)[ViewKey]) else None
      ensures options.entries == old(options.entries) - {ViewKey}
      ensures stache.context == options.entries
      ensures stache.initLog == [(stache.view, stache.context)]
      ensures stache.templateFile == ""
    {
      stache := new Stache(false);
      stache.view := if ViewKey in options.entries then Some(options.entries[ViewKey]) else None;
      options.entries := options.entries - {ViewKey};
      var pending := options.entries.Keys;
      while pending != {}
        invariant options.entries == old(options.entries) - {ViewKey}
        invariant pending <= options.entries.Keys
        invariant stache.context == map k | k in options.entries.Keys - pending :: options.entries[k]
        invariant stache.initLog == [] && stache.templateFile == ""
        invariant stache.view == if ViewKey in old(options.entries) then Some(old(options.entries)[ViewKey]) else None
        decreases pending
      {
        var key :| key in pending;
        stache.Store(key, options.entries[key]);
        pending := pending - {key};
      }
      assert options.entries.Keys - pending == options.entries.Keys;
      stache.Init();
    }

    /**
     * `partial(name)`: reads the extension from `config`, tries the file
     * beside the template, and only when that is not a regular file reads
     * the shared path from `config` and the file there.
     */
    method Partial(name: string, config: Settings, fs: FileSystem, expand: string -> string)
      returns (r: Result<string, FsError>)
      modifies config`templateExtension, config`sharedPath
      ensures var ext := Memo(old(config.templateExtension), DefaultExtension);
        r == LookupPartial(name, templateFile, ext,
                           Memo(old(config.sharedPath), config.defaultSharedPath), fs, expand)
        && config.templateExtension == Some(ext)
        && config.sharedPath == if LocalCandidate(name, templateFile, ext, expand) in fs
                                then old(config.sharedPath)
                                else Some(Memo(old(config.sharedPath), config.defaultSharedPath))
    {
      var ext := config.TemplateExtension();
      var partialName := PartialFileName(name, ext);
      var templateDir := Dirname(templateFile);
      var partialPath := expand(Join(templateDir, partialName));
      if partialPath !in fs {
        var shared := config.SharedPath();
        partialPath := Join(shared, partialName);
      }
      r := ReadFile(fs, partialPath);
    }
  }
}
