/**
 * The data-source factory: it resolves a source name against the three
 * registered source classes, falling back to the configured default, and
 * hands out one shared instance per source name.
 *
 * The sources' own behaviour (their network calls) is not modelled; an
 * instance is an object that knows which class it was built from.
 */
module DataSources {
  import opened Wrappers

  /** The three registered source classes. */
  datatype SourceKind = AlphaVantage | Tushare | AKShare

  /** The configured default when the environment sets none. */
  const DefaultDataSource: string := "alphavantage"

  /** `_source_classes`: `None` for a name that is not registered. */
  function KindOf(name: string): (k: Option<SourceKind>)
    ensures k == Some(AlphaVantage) <==> name == "alphavantage"
    ensures k == Some(Tushare) <==> name == "tushare"
    ensures k == Some(AKShare) <==> name == "akshare"
    ensures k.None? <==> name !in {"alphavantage", "tushare", "akshare"}
  {
    if name == "alphavantage" then Some(AlphaVantage)
    else if name == "tushare" then Some(Tushare)
    else if name == "akshare" then Some(AKShare)
    else None
  }

  /** The name `get_data_source` looks up: the requested one when registered, else the default. */
  function ResolveName(requested: Option<string>, defaultSource: string): (name: string)
    ensures requested.Some? && KindOf(requested.value).Some? ==> name == requested.value
    ensures requested.None? || KindOf(requested.value).None? ==> name == defaultSource
  {
    var name := if requested.Some? then requested.value else defaultSource;
    if KindOf(name).Some? then name else defaultSource
  }

  /** Resolving a resolved name changes nothing. */
  lemma ResolveIsStable(requested: Option<string>, defaultSource: string)
    ensures ResolveName(Some(ResolveName(requested, defaultSource)), defaultSource) == ResolveName(requested, defaultSource)
  {
  }

  /** A source object; only the class it was built from is modelled. */
  class DataSource {
    const kind: SourceKind

    constructor(kind: SourceKind)
      ensures this.kind == kind
    {
      this.kind := kind;
    }
  }

  /** The factory's class-level instance cache. */
  class DataSourceFactory {
    var instances: map<string, DataSource>

    /** Every cached instance was built from the class its name registers. */
    predicate Valid()
      reads this, instances.Values
    {
      forall name :: name in instances ==> KindOf(name) == Some(instances[name].kind)
    }

    constructor()
      ensures instances == map[] && Valid()
    {
      instances := map[];
    }

    /**
     * `get_data_source`: the cached instance for the resolved name, else a new
     * one, cached. `None` is the `KeyError` raised when the default itself is
     * not registered.
     */
    method GetDataSource(requested: Option<string>, defaultSource: string) returns (r: Option<DataSource>)
      requires Valid()
      modifies this
      ensures var name := ResolveName(requested, defaultSource);
        && (r.None? <==> KindOf(name).None?)
        && (r.None? ==> instances == old(instances))
        && (name in old(instances) ==> r == Some(old(instances)[name]) && instances == old(instances))
        && (r.Some? && name !in old(instances) ==> fresh(r.value) && instances == old(instances)[name := r.value])
        && (r.Some? ==> Some(r.value.kind) == KindOf(name))
      ensures defaultSource == DefaultDataSource ==> r.Some?
      ensures Valid()
    {
      var name := if requested.Some? then requested.value else defaultSource;
      if KindOf(name).None? {
        name := defaultSource;
      }
      if name in instances {
        return Some(instances[name]);
      }
      var kind := KindOf(name);
      if kind.None? {
        return None;
      }
      var instance := new DataSource(kind.value);
      instances := instances[name := instance];
      r := Some(instance);
    }
  }
}
