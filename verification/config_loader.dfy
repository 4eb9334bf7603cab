/** Provider configuration: the descriptors read from `config/providers.yaml` and the
    default descriptor injected when none are configured (app/core/config_loader.py).
    Reading and YAML-parsing the file are not modelled; their result is a `ConfigFile`. */
module ConfigLoader {
  import opened Wrappers

  /** One provider descriptor (a YAML mapping); `None` is a missing key. */
  datatype Descriptor = Descriptor(
    name: Option<string>,
    kind: Option<string>,          // the `type` key
    models: Option<seq<string>>,
    baseUrl: Option<string>,       // the `base_url` key
    apiKey: Option<string>)        // the `api_key` key

  /** The value stored under the `providers` key. */
  datatype ProvidersValue =
    | Items(descriptors: seq<Descriptor>)
    | NotAList                     // a value `list.extend` rejects: `null`, a number, a boolean

  /** The document `yaml.safe_load` returned. */
  datatype Document =
    | Falsy                                        // None, or an empty mapping
    | Mapping(providers: Option<ProvidersValue>)   // a non-empty mapping

  /** What reading the configuration path produced. */
  datatype ConfigFile =
    | NoFile        // `os.path.exists` is false
    | LoadFailed    // opening or parsing raised
    | Loaded(doc: Document)

  const WildcardModel := "*"

  /** The descriptor used when no provider is configured. */
  const DefaultDescriptor := Descriptor(
    Some("g4f-default"), Some("g4f"), Some(["gpt-4", "gpt-3.5-turbo", WildcardModel]), None, None)

  /** The configured descriptors, when the file yields a non-empty `providers` list. */
  predicate Configured(f: ConfigFile) {
    && f.Loaded? && f.doc.Mapping? && f.doc.providers.Some?
    && f.doc.providers.value.Items? && |f.doc.providers.value.descriptors| > 0
  }

  /** `ConfigLoader.load_providers`: the configured list, or the single default. */
  function LoadProviders(f: ConfigFile): (r: seq<Descriptor>)
    ensures |r| > 0
    ensures Configured(f) ==> r == f.doc.providers.value.descriptors
    ensures !Configured(f) ==> r == [DefaultDescriptor]
  {
    var loaded :=
      match f
      case Loaded(Mapping(Some(Items(ds)))) => ds
      case _ => [];
    if |loaded| == 0 then [DefaultDescriptor] else loaded
  }
}
