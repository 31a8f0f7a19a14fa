/**
 * Mustache::Railstache::Config: three process-wide settings, each read
 * through `@setting ||= default`. A getter returns the stored value when one
 * is set and otherwise stores the default and returns it; a setter stores
 * whatever it is given, nil included. The defaults derived from Rails.root
 * are passed in when the settings object is created.
 */
module Config {
  import opened Results

  /** The default of `template_extension`. */
  const DefaultExtension := "html.mustache"

  /** What `stored ||= default` evaluates to: a stored string, else the default. */
  function Memo(stored: Option<string>, default: string): string
  {
    if stored.Some? then stored.value else default
  }

  /** A stored non-nil value wins over the default. */
  lemma MemoAfterSet(v: string, default: string)
    ensures Memo(Some(v), default) == v
  {
  }

  /** Storing nil makes the next read fall back to the default. */
  lemma MemoAfterSetNil(default: string)
    ensures Memo(None, default) == default
  {
  }

  /** Once a read has stored its result, later reads return the same value. */
  lemma MemoStable(stored: Option<string>, default: string, other: string)
    ensures Memo(Some(Memo(stored, default)), other) == Memo(stored, default)
  {
  }

  class Settings {
    var templateBasePath: Option<string>
    var templateExtension: Option<string>
    var sharedPath: Option<string>

    /** `Rails.root.join('app', 'templates')` */
    const defaultBasePath: string
    /** `Rails.root.join('app', 'templates', 'shared')` */
    const defaultSharedPath: string

    /** No setting has been read or written yet. */
    constructor(defaultBasePath: string, defaultSharedPath: string)
      ensures templateBasePath == None && templateExtension == None && sharedPath == None
      ensures this.defaultBasePath == defaultBasePath && this.defaultSharedPath == defaultSharedPath
    {
      templateBasePath, templateExtension, sharedPath := None, None, None;
      this.defaultBasePath := defaultBasePath;
      this.defaultSharedPath := defaultSharedPath;
    }

    method TemplateBasePath() returns (p: string)
      modifies this`templateBasePath
      ensures p == Memo(old(templateBasePath), defaultBasePath)
      ensures templateBasePath == Some(p)
    {
      if templateBasePath.None? {
        templateBasePath := Some(defaultBasePath);
      }
      p := templateBasePath.value;
    }

    method SetTemplateBasePath(value: Option<string>)
      modifies this`templateBasePath
      ensures templateBasePath == value
    {
      templateBasePath := value;
    }

    method TemplateExtension() returns (e: string)
      modifies this`templateExtension
      ensures e == Memo(old(templateExtension), DefaultExtension)
      ensures templateExtension == Some(e)
    {
      if templateExtension.None? {
        templateExtension := Some(DefaultExtension);
      }
      e := templateExtension.value;
    }

    method SetTemplateExtension(value: Option<string>)
      modifies this`templateExtension
      ensures templateExtension == value
    {
      templateExtension := value;
    }

    method SharedPath() returns (p: string)
      modifies this`sharedPath
      ensures p == Memo(old(sharedPath), defaultSharedPath)
      ensures sharedPath == Some(p)
    {
      if sharedPath.None? {
        sharedPath := Some(defaultSharedPath);
      }
      p := sharedPath.value;
    }

    method SetSharedPath(value: Option<string>)
      modifies this`sharedPath
      ensures sharedPath == value
    {
      sharedPath := value;
    }
  }

  /** After a non-nil extension is stored, the getter returns it. */
  method SetThenGetExtension(c: Settings, v: string) returns (e: string)
    modifies c`templateExtension
    ensures e == v && c.templateExtension == Some(v)
  {
    c.SetTemplateExtension(Some(v));
    e := c.TemplateExtension();
  }

  /** After nil is stored, the getter falls back to "html.mustache" and memoises it. */
  method SetNilThenGetExtension(c: Settings) returns (e: string)
    modifies c`templateExtension
    ensures e == DefaultExtension && c.templateExtension == Some(DefaultExtension)
  {
    c.SetTemplateExtension(None);
    e := c.TemplateExtension();
  }
}
