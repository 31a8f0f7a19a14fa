# mustache_rails3 in Dafny

A model of `Mustache::Railstache`, the layer that lets Mustache templates
serve as Rails views. It covers:

- the HTML escape policy (`Mustache#escapeHTML`): strings tagged `html_safe`
  pass through, all others go through an opaque escaper;
- the context a view-model exposes to its template (`to_hash`): every
  public or protected method of the instance that is not already a method of
  `Mustache::Railstache`, mapped to what calling it returns;
- partial lookup (`partial`): `"_" + name + "." + extension` beside the
  current template, and otherwise under the shared path, read unconditionally;
- the `Config` settings, each a lazily defaulted `||=` slot;
- the construction protocol: `new(run)` runs `init` only when `run` holds;
  `Railstache.for(options)` builds with `new(false)`, removes `:view` from the
  caller's hash, stores every other entry, then runs `init` exactly once;
- `mustache_template_file`: `base + "/" + virtual_path + "." + extension`.

Modules: `Results` (Option, Result), `Paths` (joining, dirname, file-name
shapes), `Escaping`, `Config`, `Context`, `Partials`, `Railstache` (the
`Stache` class and the caller's `OptionsHash`), `TemplateHandler`.

Modelling choices:

- A view-model's methods are a table from name to visibility (public,
  protected, private) and the outcome of calling the method with no
  arguments (a value, or an error it raises). `Mustache::Railstache.instance_methods`
  is the parameter `baseline`. `Object#methods` lists public and protected
  methods, so protected methods are exposed too; private ones never are.
- The file system is a map from the path of each regular file to its
  contents; `File.file?` is membership and `File.read` of any other path fails
  with `NoSuchFile(path)`. `File.expand_path` is an opaque function `expand`,
  applied to the local candidate only, as the source does.
- `Pathname#dirname` is modelled by dropping the last `/`-separated segment
  ("." when there is none, "/" for a single leading `/`).
- `CGI.escapeHTML` is an opaque function `escape`.
- The `Config` module's instance variables are the fields of a `Settings`
  object; nil is `None`. The defaults `Rails.root.join('app', 'templates')` and
  `Rails.root.join('app', 'templates', 'shared')` are constructor parameters;
  the extension default is the literal `"html.mustache"`.
- `Stache.initLog` (ghost) records the view and context each run of `init`
  saw, which is how "runs exactly once, after the view and every option are
  set" is stated.

Behaviour worth noting:

- A partial name containing `/` is not treated as a subdirectory: the
  underscore is prefixed to the whole name, so `"other_dir/other_template"`
  is looked for as `_other_dir/other_template.html.mustache`
  (`Partials.SubdirectoryNotSplit`).
- A missing partial fails with the error of reading the shared candidate:
  the error names only the shared path (`Partials.NotFound`).
- `expose_to_hash` / `fields_for_hash` are not defined by the library code,
  and `to_hash` never reads values stored with `[]=`; neither is modelled.

## Model

| member | source | states |
|---|---|---|
| `Escaping.EscapeHTML` | lib/mustache_railstache.rb:14-16 | computes the escape policy: a string tagged html_safe is returned as it is, tag included; any other becomes the escaper's output, untagged |
| `Escaping.SafeUnchanged` | lib/mustache_railstache.rb:14-16 | a string tagged html_safe is returned unchanged, still tagged |
| `Escaping.PlainEscaped` | lib/mustache_railstache.rb:14-16 | any other string is replaced by the escaper's output, untagged |
| `Escaping.SafeIdempotent` | lib/mustache_railstache.rb:14-16 | on a string tagged html_safe, applying the policy twice equals applying it once |
| `Escaping.UntaggedEscapedTwice` | lib/mustache_railstache.rb:12-16 | the policy's output for an untagged string is untagged, so passing it through the policy again escapes it a second time |
| `Railstache.Stache.constructor` | lib/mustache_railstache.rb:44-46 | `new(run)` starts with no view and an empty context, and runs `init` once when `run` holds and never otherwise |
| `Railstache.Stache.Init` | lib/mustache_railstache.rb:48-50 | the base `init` hook changes nothing but records that it ran, and the view and context it saw |
| `Railstache.Stache.Store` | lib/mustache_railstache.rb:37 | `stache[key] = value` sets that key of the context and leaves the rest |
| `Railstache.Stache.For` | lib/mustache_railstache.rb:31-42 | returns a fresh stache whose view is `options[:view]` (nil if absent), removes `:view` from the caller's hash, stores exactly the remaining entries, and runs `init` exactly once, after the view is set and all entries are stored |
| `Context.ExposedNames` | lib/mustache_railstache.rb:54 | computes `methods - Mustache::Railstache.instance_methods`: the public and protected method names outside the baseline |
| `Context.ExpectedHash` | lib/mustache_railstache.rb:52-58 | computes the hash `to_hash` builds when nothing raises: each exposed name mapped to its method's return value |
| `Context.ToHash` | lib/mustache_railstache.rb:52-58 | when no exposed method raises, the result is the hash of every listed non-baseline method to its return value; otherwise the result is an error raised by one of the exposed methods |
| `Context.ContextKeys` | lib/mustache_railstache.rb:54-55 | the keys are exactly the public or protected methods not in `Mustache::Railstache.instance_methods`, each mapped to what calling it returns |
| `Context.PrivateHidden` | lib/mustache_railstache.rb:54 | a private method is never exposed, whatever it returns |
| `Context.NothingAddedIsEmpty` | spec/mustache_railstache_spec.rb:45-48 | a subclass that adds no listed method outside the baseline yields `{}` |
| `Context.OverridesIgnored` | spec/mustache_railstache_spec.rb:58-61 | redefining baseline methods such as `init`, or private ones such as `initialize`, changes neither the context nor whether building it raises |
| `Context.OneTwoNotThree` | spec/mustache_railstache_spec.rb:50-56 | public `one`, `two` and private `three` give exactly `{one: 1, two: 2}` |
| `Partials.ReadFile` | lib/mustache_railstache.rb:72 | computes `File.read`: the contents of a regular file, or `NoSuchFile` naming the path |
| `Partials.PartialFileName` | lib/mustache_railstache.rb:66 | computes the partial's file name `"_" + name + "." + ext` |
| `Partials.LocalCandidate` | lib/mustache_railstache.rb:67-68 | computes the expanded path of the partial file in the current template's directory |
| `Partials.SharedCandidate` | lib/mustache_railstache.rb:70 | computes `shared_path + "/" + file name`, unexpanded |
| `Partials.LookupPartial` | lib/mustache_railstache.rb:65-73 | computes what `partial` returns: the local candidate's contents when it is a regular file, otherwise the read of the shared candidate |
| `Partials.PartialFileNameDecodes` | lib/mustache_railstache.rb:66 | the partial file name starts with `_` and yields back the whole name, `/` included |
| `Partials.UnderscoreNotMoved` | lib/mustache_railstache.rb:66 | the name `sub/leaf` never becomes the file `sub/_leaf` |
| `Partials.LocalFirst` | lib/mustache_railstache.rb:67-69 | a regular file beside the template is returned, whatever the shared path holds |
| `Partials.SharedFallback` | lib/mustache_railstache.rb:69-72 | without a local file, the result is the read of the shared candidate |
| `Partials.NotFound` | lib/mustache_railstache.rb:69-72 | the lookup fails exactly when neither candidate is a regular file, and the error names the shared candidate |
| `Partials.OnlyTwoCandidates` | lib/mustache_railstache.rb:65-73 | no third path is consulted: file systems agreeing on the two candidates give the same result |
| `Partials.FoundBesideTemplate` | lib/mustache_railstache.rb:67-69 | for a template `dir/file`, a partial stored as `dir/_name.ext` is found |
| `Partials.FoundInShared` | lib/mustache_railstache.rb:69-72 | with nothing in `dir`, the partial at `shared/_name.ext` is found |
| `Partials.SubdirectoryNotSplit` | lib/mustache_railstache.rb:65-72 | a name `sub/leaf` whose only copies are `sub/_leaf.ext` files fails with the shared candidate's error |
| `Railstache.Stache.Partial` | lib/mustache_railstache.rb:65-73 | returns the lookup result for the current template file and the configured extension and shared path; memoises the extension, and the shared path only when the local candidate is missing |
| `Config.Memo` | lib/mustache_railstache.rb:89 | computes what `stored ||= default` yields: the stored string when there is one, else the default (the same `||=` as lines 81 and 97) |
| `Config.MemoAfterSet` | lib/mustache_railstache.rb:88-94 | after a non-nil value is stored, a getter returns it |
| `Config.MemoAfterSetNil` | lib/mustache_railstache.rb:88-94 | after nil is stored, a getter returns the default |
| `Config.MemoStable` | lib/mustache_railstache.rb:89 | once a getter has memoised its value, later reads return it |
| `Config.SetThenGetExtension` | lib/mustache_railstache.rb:88-94 | after `template_extension = v` with `v` non-nil, `template_extension` returns `v` and keeps it stored |
| `Config.SetNilThenGetExtension` | lib/mustache_railstache.rb:88-94 | after `template_extension = nil`, `template_extension` returns `html.mustache` and stores it |
| `Config.Settings.constructor` | lib/mustache_railstache.rb:79-103 | no setting is stored before first use |
| `Config.Settings.TemplateBasePath` | lib/mustache_railstache.rb:80-82 | returns the stored base path, or stores and returns the Rails.root default |
| `Config.Settings.SetTemplateBasePath` | lib/mustache_railstache.rb:84-86 | stores the given value, nil included |
| `Config.Settings.TemplateExtension` | lib/mustache_railstache.rb:88-90 | returns the stored extension, or stores and returns `html.mustache` |
| `Config.Settings.SetTemplateExtension` | lib/mustache_railstache.rb:92-94 | stores the given value, nil included |
| `Config.Settings.SharedPath` | lib/mustache_railstache.rb:96-98 | returns the stored shared path, or stores and returns the Rails.root default |
| `Config.Settings.SetSharedPath` | lib/mustache_railstache.rb:100-102 | stores the given value, nil included |
| `TemplateHandler.TemplatePath` | lib/mustache_railstache.rb:158 | computes `base + "/" + virtual_path + "." + ext` |
| `TemplateHandler.MustacheTemplateFile` | lib/mustache_railstache.rb:157-159 | the template file is `base/virtual_path.ext` for the configured base and extension, both memoised |
| `TemplateHandler.TemplatePathDecodes` | lib/mustache_railstache.rb:158 | the virtual path is recovered from the template file name |
| `TemplateHandler.TopLevelTemplateDirectory` | lib/mustache_railstache.rb:67 | a template with a one-segment virtual path lies in the base path |
| `TemplateHandler.NestedTemplateDirectory` | lib/mustache_railstache.rb:67 | a template with virtual path `dir/leaf` lies in `base/dir` |
| `TemplateHandler.PartialBesideTemplate` | lib/mustache_railstache.rb:66-68 | for the template `dir/leaf`, the first candidate for a partial is `base/dir/_name.ext` |
| `Paths.Dirname` | lib/mustache_railstache.rb:67 | computes the directory of a path by dropping its last `/`-separated segment ("." without a `/`, "/" for a single leading one) |
| `Paths.DirnameOfJoin` | lib/mustache_railstache.rb:67-68 | the directory of `dir/file` is `dir` |
| `Paths.StemOfAffix` | lib/mustache_railstache.rb:66 | a name is recovered from `prefix + name + "." + ext` |
| `Paths.AffixOfStem` | lib/mustache_railstache.rb:66 | a file name with a recoverable name is exactly that name affixed |
| `Paths.AffixInjective` | lib/mustache_railstache.rb:158 | distinct names give distinct file names |

## Left out

- `TemplateHandler#call`: it produces Ruby source that ActionView evaluates, copying controller instance variables and defining readers with `class_eval`; there is no result to state.
- `method_missing` and `respond_to?`: open-ended forwarding to the view object.
- `mustache_class_from_template`: it rests on ActiveSupport's `camelize` and `constantize`.
- The registration with ActionView and Mustache's own parsing and rendering.
- The internals of `CGI.escapeHTML`, `File.expand_path`, `File.file?`, `File.read`, `Pathname#dirname` and `Rails.root`: an opaque escaper, an opaque expansion, a map of regular files, a dirname that drops the last segment, and default paths passed in.
- `Paths.Dirname`: trailing and repeated `/` are not collapsed as `Pathname#dirname` does. A template file ends in a file name, so trailing slashes do not arise; but a base path set with a trailing `/` gives `base//vp.ext`, whose modelled dirname keeps one `/` (`"a//b"` gives `"a/"` where `File.dirname` gives `"a"`). The local candidate then reads `a//_name.ext`, and it names the right file only because `File.expand_path` (the opaque `expand`) normalises the doubled `/`.
- `Context.ToHash`: side effects of the exposed methods themselves, and their order of evaluation, are not modelled; when several raise, which error propagates is left open.
- `Railstache.Stache.Init`: a subclass's own `init` body is not modelled; only that it runs, and when.
- `Railstache.Stache.constructor`: Mustache's default `template_file`, derived from the class name, is not modelled; the template handler sets it explicitly.
- `Config.Settings`: storing `false` (falsy in Ruby like nil) is not modelled; settings hold strings or nil.
- Options keys are strings rather than symbols, and `[]=` converting its key with `to_sym` is not modelled.
