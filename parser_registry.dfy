/** The process-wide parser registry `parser_instances`, the lazy
    constructor `get_parser`, and the `set_parser` route that switches the
    Japanese parser's tagger between dictionary variants in place. */
module ParserRegistry {
  import opened Python
  import opened UserSettings

  const JapaneseName := "japanese"
  const UnidicKey := "unidic_types"

  /** A parser instance; only its current tagger variant is modelled. */
  class Parser {
    var tagger: string
    /** Every variant `switch_tagger` has been called with, oldest first. */
    ghost var switches: seq<string>

    constructor (tagger: string)
      ensures this.tagger == tagger && switches == []
    {
      this.tagger := tagger;
      switches := [];
    }

    /** `switch_tagger(variant)`: rebuilds the tagger for `variant` on this
        same instance. */
    method SwitchTagger(variant: string)
      modifies this
      ensures tagger == variant
      ensures switches == old(switches) + [variant]
    {
      tagger := variant;
      switches := switches + [variant];
    }
  }

  /** What constructing a parser inside `get_parser` does: it succeeds with a
      parser on some initial variant, or raises. */
  datatype BuildAttempt = Built(initialTagger: string) | BuildFailed(error: Exception)

  class Registry {
    /** `parser_instances`: parser name to instance, `null` for `None`. */
    var instances: map<string, Parser?>

    constructor (instances: map<string, Parser?>)
      ensures this.instances == instances
    {
      this.instances := instances;
    }

    /** The entry for `name`, `null` when it is `None` or absent. */
    function Instance(name: string): Parser?
      reads this
    {
      if name in instances then instances[name] else null
    }

    /** The objects an operation on `name`'s instance may change. */
    function Footprint(name: string): set<object>
      reads this
    {
      if Instance(name) != null then {Instance(name)} else {}
    }

    /** `get_parser(name)`: an existing instance is kept; otherwise a new one is
        built and stored, or the build raises and nothing is stored. */
    method GetParser(name: string, build: BuildAttempt) returns (raised: Option<Exception>)
      modifies this
      ensures old(Instance(name)) != null ==> unchanged(this) && raised == None
      ensures old(Instance(name)) == null && build.Built? ==>
        && raised == None
        && fresh(Instance(name))
        && instances == old(instances)[name := Instance(name)]
        && Instance(name).tagger == build.initialTagger && Instance(name).switches == []
      ensures old(Instance(name)) == null && build.BuildFailed? ==>
        unchanged(this) && raised == Some(build.error)
    {
      raised := None;
      if Instance(name) == null {
        match build
        case Built(t) =>
          var p := new Parser(t);
          instances := instances[name := p];
        case BuildFailed(e) =>
          raised := Some(e);
      }
    }
  }

  /** `parser_instances["japanese"]` on a missing key raises this. */
  const MissingJapaneseEntry := Exception("KeyError", "'japanese'")

  /** `set_parser(unidic_type)`. It compares the request with the stored
      `unidic_types` setting, not with the instance's current tagger; it never
      writes that setting; and it switches the tagger on the registry's
      instance, building that instance first when the entry is `None`. */
  method SetParser(store: Store, registry: Registry, unidicType: string, build: BuildAttempt)
    returns (r: Result<string>)
    modifies registry, registry.Footprint(JapaneseName)
    ensures unchanged(store)
    ensures r.Ok? ==> r.value == unidicType
    ensures store.Get(UnidicKey) == Str(unidicType) ==>
      r == Ok(unidicType) && unchanged(registry) && unchanged(old(registry.Footprint(JapaneseName)))
    ensures store.Get(UnidicKey) != Str(unidicType) && JapaneseName !in old(registry.instances) ==>
      r == Err(MissingJapaneseEntry) && unchanged(registry)
    ensures store.Get(UnidicKey) != Str(unidicType) && old(registry.Instance(JapaneseName)) != null ==>
      var p := old(registry.Instance(JapaneseName));
      && r == Ok(unidicType)
      && registry.instances == old(registry.instances)
      && p.tagger == unidicType && p.switches == old(p.switches) + [unidicType]
    ensures store.Get(UnidicKey) != Str(unidicType) && JapaneseName in old(registry.instances)
            && old(registry.Instance(JapaneseName)) == null && build.Built? ==>
      var p := registry.Instance(JapaneseName);
      && r == Ok(unidicType)
      && fresh(p)
      && registry.instances == old(registry.instances)[JapaneseName := p]
      && p.tagger == unidicType && p.switches == [unidicType]
    ensures store.Get(UnidicKey) != Str(unidicType) && JapaneseName in old(registry.instances)
            && old(registry.Instance(JapaneseName)) == null && build.BuildFailed? ==>
      r == Err(build.error) && unchanged(registry)
  {
    if Str(unidicType) == store.Get(UnidicKey) {
      return Ok(unidicType);
    }
    if JapaneseName !in registry.instances {
      return Err(MissingJapaneseEntry);
    }
    if registry.instances[JapaneseName] == null {
      var raised := registry.GetParser(JapaneseName, build);
      if raised.Some? {
        return Err(raised.value);
      }
    }
    var p := registry.instances[JapaneseName];
    p.SwitchTagger(unidicType);
    r := Ok(unidicType);
  }

  /** Because `set_parser` compares with the stored setting, switching to
      "writing" and back to "spoken" before the form is saved leaves the
      parser on "writing": the second call is a no-op. */
  method SwitchBackWithoutSaving() returns (tagger: string, stored: Value)
    ensures stored == Str("spoken") && tagger == "writing"
  {
    var store := new Store(map[UnidicKey := Str("spoken")]);
    var p := new Parser("spoken");
    var registry := new Registry(map[JapaneseName := p]);
    var toWriting := SetParser(store, registry, "writing", Built("spoken"));
    var backToSpoken := SetParser(store, registry, "spoken", Built("spoken"));
    tagger := p.tagger;
    stored := store.Get(UnidicKey);
  }
}
