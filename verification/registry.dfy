/** The analyzer registry: an ordered list of analyzer initializers, the two
    name queries over it, and the resolution of an enable/disable request into
    the ordered list of analyzers to run. */
module Analysis {
  import opened Config

  /** An analyzer initializer: the name of the analyzer it builds, whether
      that analyzer is on by default, and its constructor. The analyzer type
      `A` is opaque; `init` is handed the whole per-linter configuration. */
  datatype Initializer<A> = Initializer(name: string, isDefault: bool, init: LintersConfig -> A)

  // ---------------------------------------------------------------------
  // Specification functions. Each walks the initializers from the back, so
  // that the value for a prefix extends to the next prefix by one step.
  // ---------------------------------------------------------------------

  /** Names of all initializers. */
  function AllNames<A>(s: seq<Initializer<A>>): set<string>
  {
    if s == [] then {} else AllNames(s[..|s| - 1]) + {s[|s| - 1].name}
  }

  /** Names of the initializers that are on by default. */
  function DefaultNames<A>(s: seq<Initializer<A>>): set<string>
  {
    if s == [] then {}
    else DefaultNames(s[..|s| - 1]) + (if s[|s| - 1].isDefault then {s[|s| - 1].name} else {})
  }

  /** The distinct entries of a request list. */
  function ToSet(names: seq<string>): set<string>
  {
    set n | n in names
  }

  /** A list means "all" only when the wildcard is its one distinct entry. */
  predicate IsWildcardOnly(names: set<string>)
  {
    |names| == 1 && Wildcard in names
  }

  predicate AllEnabled(cfg: Linters)
  {
    IsWildcardOnly(ToSet(cfg.enable))
  }

  predicate AllDisabled(cfg: Linters)
  {
    IsWildcardOnly(ToSet(cfg.disable))
  }

  /** The decision taken for one initializer: an explicit disable excludes it;
      otherwise a wildcard enable, an explicit enable, or (when the disable
      list is not the wildcard) its default flag includes it. */
  predicate Included<A>(cfg: Linters, i: Initializer<A>)
  {
    i.name !in ToSet(cfg.disable) &&
    (AllEnabled(cfg) || i.name in ToSet(cfg.enable) || (!AllDisabled(cfg) && i.isDefault))
  }

  /** The initializers of `s` that satisfy `keep`, in their original order. */
  function Filter<A>(s: seq<Initializer<A>>, keep: Initializer<A> -> bool): seq<Initializer<A>>
  {
    if s == [] then []
    else Filter(s[..|s| - 1], keep) + (if keep(s[|s| - 1]) then [s[|s| - 1]] else [])
  }

  /** The initializers the request selects, in registration order. */
  function Selected<A>(s: seq<Initializer<A>>, cfg: Linters): seq<Initializer<A>>
  {
    Filter(s, (i: Initializer<A>) => Included(cfg, i))
  }

  /** Runs every initializer of `s` on the per-linter configuration, in order. */
  function InitAll<A>(s: seq<Initializer<A>>, lintersCfg: LintersConfig): seq<A>
  {
    if s == [] then [] else InitAll(s[..|s| - 1], lintersCfg) + [s[|s| - 1].init(lintersCfg)]
  }

  /** The analyzers the request yields: select, then initialize. */
  function Initialized<A>(s: seq<Initializer<A>>, cfg: Linters, lintersCfg: LintersConfig): seq<A>
  {
    InitAll(Selected(s, cfg), lintersCfg)
  }

  /** Initializing yields one analyzer per initializer. */
  lemma InitAllLength<A>(s: seq<Initializer<A>>, lintersCfg: LintersConfig)
    ensures |InitAll(s, lintersCfg)| == |s|
  {
  }

  /** The registry proper. Its initializers are fixed when it is built. */
  class Registry<A> {
    const initializers: seq<Initializer<A>>

    /** The registry of the three built-in analyzers, in this order: comment
        start, JSON tags, optional-or-required. */
    constructor NewRegistry(commentStart: Initializer<A>, jsonTags: Initializer<A>,
                            optionalOrRequired: Initializer<A>)
      ensures initializers == [commentStart, jsonTags, optionalOrRequired]
    {
      initializers := [commentStart, jsonTags, optionalOrRequired];
    }

    /** The names of the linters that are enabled by default. */
    method DefaultLinters() returns (defaultLinters: set<string>)
      ensures defaultLinters == DefaultNames(initializers)
    {
      defaultLinters := {};
      for i := 0 to |initializers|
        invariant defaultLinters == DefaultNames(initializers[..i])
      {
        assert initializers[..i + 1][..i] == initializers[..i];
        if initializers[i].isDefault {
          defaultLinters := defaultLinters + {initializers[i].name};
        }
      }
      assert initializers[..|initializers|] == initializers;
    }

    /** The names of all linters known to the registry. */
    method AllLinters() returns (linters: set<string>)
      ensures linters == AllNames(initializers)
    {
      linters := {};
      for i := 0 to |initializers|
        invariant linters == AllNames(initializers[..i])
      {
        assert initializers[..i + 1][..i] == initializers[..i];
        linters := linters + {initializers[i].name};
      }
      assert initializers[..|initializers|] == initializers;
    }

    /** The analyzers to run for the enable/disable request `cfg`, each
        initialized with `lintersCfg`, in registration order. */
    method InitializeLinters(cfg: Linters, lintersCfg: LintersConfig) returns (analyzers: seq<A>)
      ensures analyzers == Initialized(initializers, cfg, lintersCfg)
    {
      analyzers := [];

      var enabled := ToSet(cfg.enable);
      var disabled := ToSet(cfg.disable);

      var allEnabled := |enabled| == 1 && Wildcard in enabled;
      var allDisabled := |disabled| == 1 && Wildcard in disabled;

      for i := 0 to |initializers|
        invariant analyzers == InitAll(Selected(initializers[..i], cfg), lintersCfg)
      {
        var initializer := initializers[i];
        ghost var done := Selected(initializers[..i], cfg);
        assert initializers[..i + 1][..i] == initializers[..i];
        if initializer.name !in disabled
           && (allEnabled || initializer.name in enabled || (!allDisabled && initializer.isDefault))
        {
          assert Selected(initializers[..i + 1], cfg) == done + [initializer];
          assert (done + [initializer])[..|done|] == done;
          analyzers := analyzers + [initializer.init(lintersCfg)];
        } else {
          assert Selected(initializers[..i + 1], cfg) == done;
        }
      }
      assert initializers[..|initializers|] == initializers;
    }
  }
}
